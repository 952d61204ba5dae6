/** The annotation grammar and the annotation language: a token sequence is accepted if and only if it
    writes a file, and then it is that file that the actions build. */
module AnnoSentences {
  import opened LrTables
  import opened LrTrees
  import opened LrEngine
  import opened LrSoundness
  import opened LrTermination
  import opened LrCompleteness
  import opened AnnoTables
  import opened AnnoLookahead
  import opened AnnoTrees
  import opened AnnoSpelling
  import opened AnnoParser
  import opened TypeLists

  // ---- Introductions --------------------------------------------------------------------------------

  const INTRODUCTION := 28

  /** Action 4, once for every type: the definitions in the order in which they are made. */
  function DefsOf(tree: Tree): seq<TypeDef>
    decreases tree
  {
    if IsFull(tree) && tree.rule == 4
    then DefsOf(Kid(tree, 0)) + [TypeDef(NumOf(Kid(tree, 3)), NumOf(Kid(tree, 5)))]
    else []
  }

  lemma IntroSymbols(r: int)
    requires 1 <= r < 38
    ensures R1At(r) == INTRODUCTION <==> r == 3 || r == 4
    ensures LengthAt(3) == 5 && SymbolAt(3, 0) == 3 && SymbolAt(3, 1) == 23 && SymbolAt(3, 2) == 24
    ensures SymbolAt(3, 3) == 4 && SymbolAt(3, 4) == 23
    ensures LengthAt(4) == 7 && SymbolAt(4, 0) == INTRODUCTION && SymbolAt(4, 1) == 24 && SymbolAt(4, 2) == 21
    ensures SymbolAt(4, 3) == 25 && SymbolAt(4, 4) == 15 && SymbolAt(4, 5) == 25 && SymbolAt(4, 6) == 16
    ensures LengthAt(2) == 4 && SymbolAt(2, 0) == INTRODUCTION && R1At(2) == 26
  {
  }

  lemma YieldNext(kids: seq<Tree>, i: nat)
    requires i < |kids|
    ensures Yields(kids[i..]) == Yield(kids[i]) + Yields(kids[i + 1..])
    ensures i + 1 == |kids| ==> Yields(kids[i..]) == Yield(kids[i])
  {
  }

  lemma LeavesYield(kids: seq<Tree>, i: nat)
    requires i <= |kids| && forall j | i <= j < |kids| :: kids[j].Leaf?
    ensures |Yields(kids[i..])| == |kids| - i
    ensures forall j | i <= j < |kids| :: Yields(kids[i..])[j - i] == kids[j].token
    decreases |kids| - i
  {
    hide Yields;
    if i == |kids| {
      assert kids[i..] == [];
      NoYield();
    } else {
      YieldNext(kids, i);
      LeavesYield(kids, i + 1);
    }
  }

  lemma NoYield()
    ensures Yields([]) == []
  {
  }

  lemma StartsStay(tokens: seq<Token>, more: seq<Token>, kinds: seq<int>)
    requires Starts(tokens, kinds)
    ensures Starts(tokens + more, kinds)
  {
  }

  lemma Introduced(tokens: seq<Token>, defs: seq<TypeDef>, more: seq<Token>, d: TypeDef)
    requires Introduces(tokens, defs) && Spells(more, d)
    ensures Introduces(tokens + more, defs + [d])
  {
    hide Spells, Starts;
    Six(more, d);
    StartsStay(tokens, more, [3, 23, 24, 4, 23]);
    var all := tokens + more;
    forall i | 0 <= i < |defs| + 1 ensures Spells(all[5 + 6 * i..11 + 6 * i], (defs + [d])[i]) {
      if i < |defs| {
        assert all[5 + 6 * i..11 + 6 * i] == tokens[5 + 6 * i..11 + 6 * i];
      } else {
        assert all[5 + 6 * i..11 + 6 * i] == more;
      }
    }
  }

  lemma Six(tokens: seq<Token>, d: TypeDef)
    requires Spells(tokens, d)
    ensures |tokens| == 6
  {
  }

  /** The definitions are made as the file spells them, each once and in order. */
  lemma {:induction false} DefinitionsSpelled(tree: Tree)
    requires Derivation(TABLES, tree) && Proper(TABLES, tree) && tree.Node?
    requires Root(TABLES, tree) == INTRODUCTION
    ensures Introduces(Yield(tree), DefsOf(tree))
    decreases tree
  {
    hide LengthAt, SymbolAt, R1At, Derivation, Proper, Root, Introduces, Yields;
    NodeRule(tree);
    IntroSymbols(tree.rule);
    KidRoots(tree);
    NodeParts(tree);
    NodeYields(tree);
    var kids := tree.kids;
    forall i | 0 <= i < |kids| && IsToken(SymbolAt(tree.rule, i)) ensures kids[i].Leaf? {
      KidsProper(kids, i);
    }
    if tree.rule == 3 {
      HeadingAt(kids);
    } else {
      KidsProper(kids, 0);
      DefinitionsSpelled(kids[0]);
      LeavesYield(kids, 1);
      DefinitionAt(kids);
      YieldNext(kids, 0);
      var d := TypeDef(NumOf(kids[3]), NumOf(kids[5]));
      Introduced(Yield(kids[0]), DefsOf(kids[0]), Yields(kids[1..]), d);
    }
  }

  lemma NodeYields(tree: Tree)
    requires tree.Node?
    ensures Yield(tree) == Yields(tree.kids[0..])
  {
    assert tree.kids[0..] == tree.kids;
  }

  lemma LeafKind(tree: Tree)
    requires tree.Leaf?
    ensures Root(TABLES, tree) == tree.token.kind
  {
  }

  lemma Headed(tokens: seq<Token>)
    requires |tokens| == 5 && tokens[0].kind == 3 && tokens[1].kind == 23 && tokens[2].kind == 24
    requires tokens[3].kind == 4 && tokens[4].kind == 23
    ensures Introduces(tokens, [])
  {
  }

  lemma HeadingAt(kids: seq<Tree>)
    requires |kids| == 5 && forall j | 0 <= j < 5 :: kids[j].Leaf? && Root(TABLES, kids[j]) == SymbolAt(3, j)
    ensures Introduces(Yields(kids[0..]), [])
  {
    hide SymbolAt, Root, Yields, Introduces;
    IntroSymbols(3);
    LeavesYield(kids, 0);
    LeafKind(kids[0]);
    LeafKind(kids[1]);
    LeafKind(kids[2]);
    LeafKind(kids[3]);
    LeafKind(kids[4]);
    Headed(Yields(kids[0..]));
  }

  lemma DefinitionAt(kids: seq<Tree>)
    requires |kids| == 7 && forall j | 1 <= j < 7 :: kids[j].Leaf?
    requires forall j | 1 <= j < 7 :: Root(TABLES, kids[j]) == SymbolAt(4, j)
    ensures Spells(Yields(kids[1..]), TypeDef(NumOf(kids[3]), NumOf(kids[5])))
  {
    hide SymbolAt, Root, Yields;
    IntroSymbols(4);
    LeavesYield(kids, 1);
    forall j | 1 <= j < 7 ensures Yields(kids[1..])[j - 1] == kids[j].token && kids[j].token.kind == SymbolAt(4, j) {
      LeafKind(kids[j]);
    }
  }

  /** The type definitions of a file. */
  function FileDefs(file: Tree): seq<TypeDef> {
    DefsOf(Kid(file, 0))
  }

  /** The first section of an accepted file is an introduction. */
  lemma FileIntroduces(file: Tree)
    requires Derivation(TABLES, file) && Proper(TABLES, file) && Root(TABLES, file) == Start(TABLES)
    ensures file.Node? && |file.kids| == 4 && Introduces(Yield(file.kids[0]), FileDefs(file))
  {
    hide LengthAt, SymbolAt, R1At, Derivation, Proper, Root, Introduces;
    FileStart(file);
    IntroSymbols(2);
    KidRoots(file);
    KidsProper(file.kids, 0);
    DefinitionsSpelled(file.kids[0]);
  }

  // ---- Attributes and whole files -------------------------------------------------------------------

  lemma AttributeSymbols(r: int)
    requires 1 <= r < 38
    ensures R1At(r) == 27 <==> r == 1
    ensures R1At(r) == 29 <==> r == 5
    ensures R1At(r) == 30 <==> r == 6 || r == 7
    ensures R1At(r) == 31 <==> r == 8
    ensures LengthAt(1) == 0 && LengthAt(2) == 4 && SymbolAt(2, 1) == 27 && SymbolAt(2, 2) == 29
    ensures LengthAt(5) == 3 && SymbolAt(5, 0) == 5 && SymbolAt(5, 1) == 23 && SymbolAt(5, 2) == 30
    ensures LengthAt(6) == 1 && SymbolAt(6, 0) == 31
    ensures LengthAt(7) == 2 && SymbolAt(7, 0) == 31 && SymbolAt(7, 1) == 30
    ensures LengthAt(8) == 3 && SymbolAt(8, 0) == 24 && SymbolAt(8, 1) == 21 && SymbolAt(8, 2) == 25
  {
  }

  /** A node of the grammar, and what is known of its children. */
  ghost predicate Known(t: Tables, tree: Tree) {
    && tree.Node? && Derivation(t, tree) && Proper(t, tree) && 1 <= tree.rule < 38
    && IsFull(tree) && Root(t, tree) == R1At(tree.rule)
    && forall i | 0 <= i < |tree.kids| ::
         && Root(t, tree.kids[i]) == SymbolAt(tree.rule, i)
         && Derivation(t, tree.kids[i]) && Proper(t, tree.kids[i])
         && (IsToken(SymbolAt(tree.rule, i)) ==> tree.kids[i].Leaf?)
         && (26 <= SymbolAt(tree.rule, i) < 47 ==> tree.kids[i].Node?)
  }

  lemma NodeKnown(tree: Tree)
    requires Derivation(TABLES, tree) && Proper(TABLES, tree) && tree.Node?
    ensures Known(TABLES, tree)
  {
    hide R1At, LengthAt, SymbolAt, Derivation, Proper;
    NodeRule(tree);
    NodeParts(tree);
    KidRoots(tree);
    forall i | 0 <= i < |tree.kids|
      ensures Derivation(TABLES, tree.kids[i]) && Proper(TABLES, tree.kids[i])
      ensures IsToken(SymbolAt(tree.rule, i)) ==> tree.kids[i].Leaf?
      ensures 26 <= SymbolAt(tree.rule, i) < 47 ==> tree.kids[i].Node?
    {
      KidsProper(tree.kids, i);
    }
  }

  lemma {:induction false} AttributeWritten(tree: Tree)
    requires Derivation(TABLES, tree) && Proper(TABLES, tree) && tree.Node? && Root(TABLES, tree) == 31
    ensures |Yield(tree)| == 3 && Starts(Yield(tree), [24, 21, 25])
  {
    hide R1At, LengthAt, SymbolAt, Derivation, Proper;
    NodeKnown(tree);
    AttributeSymbols(tree.rule);
    FrontTokens(tree.kids, 3);
    LastYield(tree.kids, 3);
  }

  lemma {:induction false} AttributeListWritten(tree: Tree)
    requires Derivation(TABLES, tree) && Proper(TABLES, tree) && tree.Node? && Root(TABLES, tree) == 30
    ensures WritesAttributeList(Yield(tree))
    decreases tree
  {
    hide R1At, LengthAt, SymbolAt, Derivation, Proper;
    NodeKnown(tree);
    AttributeSymbols(tree.rule);
    var kids := tree.kids;
    assert kids[0..] == kids;
    LastYield(kids, 0);
    AttributeWritten(kids[0]);
    if tree.rule == 7 {
      AttributeListWritten(kids[1]);
      assert Yield(tree)[3..] == Yield(kids[1]);
    }
  }

  lemma {:induction false} AttributesWritten(tree: Tree)
    requires Derivation(TABLES, tree) && Proper(TABLES, tree) && tree.Node? && Root(TABLES, tree) == 29
    ensures WritesAttributes(Yield(tree))
  {
    hide R1At, LengthAt, SymbolAt, Derivation, Proper;
    NodeKnown(tree);
    AttributeSymbols(tree.rule);
    var kids := tree.kids;
    FrontTokens(kids, 2);
    LastYield(kids, 2);
    AttributeListWritten(kids[2]);
  }

  lemma {:induction false} MarkerEmpty(tree: Tree)
    requires Derivation(TABLES, tree) && Proper(TABLES, tree) && tree.Node? && Root(TABLES, tree) == 27
    ensures Yield(tree) == []
  {
    hide R1At, LengthAt, SymbolAt;
    NodeKnown(tree);
    AttributeSymbols(tree.rule);
    assert tree.kids == [];
  }

  /** The parse tree of a file is what its tokens write. */
  lemma {:induction false} FileWritten(file: Tree)
    requires Derivation(TABLES, file) && Proper(TABLES, file) && Permitted(LOOKAHEAD, file)
    requires Root(TABLES, file) == Start(TABLES)
    ensures WritesFile(Yield(file), FileDefs(file), FileCalls(file))
  {
    hide R1At, LengthAt, SymbolAt, Derivation, Proper, Permitted, Barred, Root;
    hide Introduces, WritesAttributes, WritesSection, FileDefs, FileCalls;
    FileStart(file);
    FileIntroduces(file);
    NodeKnown(file);
    AttributeSymbols(2);
    PermittedKids(file);
    PermittedAt(file.rule, 0, file.kids, 3);
    MarkerEmpty(file.kids[1]);
    AttributesWritten(file.kids[2]);
    SectionWritten(file);
    NodeYield(file);
    var k, tokens := file.kids, Yield(file);
    var i, j := |Yield(k[0])|, |Yield(k[0])| + |Yield(k[2])|;
    assert tokens[..i] == Yield(k[0]) && tokens[i..j] == Yield(k[2]) && tokens[j..] == Yield(k[3]);
  }

  lemma SectionWritten(file: Tree)
    requires file.Node? && |file.kids| == 4 && file.kids[3].Node? && Root(TABLES, file.kids[3]) == 32
    requires Derivation(TABLES, file.kids[3]) && Proper(TABLES, file.kids[3]) && Permitted(LOOKAHEAD, file.kids[3])
    ensures WritesSection(Yield(file.kids[3]), FileCalls(file))
  {
    hide R1At, Derivation, Proper, Permitted, Barred, Root, WritesSection;
    OutputSection(file.kids[3]);
  }

  // ---- Every file that is written has a parse tree ------------------------------------------------------

  /** `tree` is a parse tree of `tokens` below symbol `x`. */
  ghost predicate Makes(t: Tables, x: int, tree: Tree, tokens: seq<Token>) {
    && Root(t, tree) == x && Derivation(t, tree) && Proper(t, tree) && Permitted(LOOKAHEAD, tree)
    && Yield(tree) == tokens
  }

  /** `kids` are parse trees of `tokens` below the symbols of rule `r` from position `k` on. */
  ghost predicate MakeRest(t: Tables, r: int, k: nat, kids: seq<Tree>, tokens: seq<Token>) {
    && Spell(t, kids, r, k) && AllPermitted(LOOKAHEAD, r, k, kids) && Yields(kids) == tokens
  }

  lemma MakesNone(r: int)
    requires 1 <= r < 38
    ensures MakeRest(TABLES, r, LengthAt(r), [], [])
  {
    hide LengthAt;
    RulesAre(r);
    assert TABLES.rhs[r][LengthAt(r)..] == [] == LrTrees.Roots(TABLES, []);
  }

  lemma MakesMore(r: int, k: nat, tree: Tree, u: seq<Token>, kids: seq<Tree>, v: seq<Token>)
    requires 1 <= r < 38 && k < LengthAt(r) && MakeRest(TABLES, r, k + 1, kids, v)
    requires Makes(TABLES, SymbolAt(r, k), tree, u) && (r == 18 && tree.Node? ==> tree.rule != 22)
    ensures MakeRest(TABLES, r, k, [tree] + kids, u + v)
  {
    hide LengthAt, SymbolAt, Root, Derivation, Proper, Permitted, IsRule;
    RulesAre(r);
    SymbolsAre(r, k);
    var all := [tree] + kids;
    assert all[1..] == kids && all[0] == tree;
    assert LrTrees.Roots(TABLES, all) == [Root(TABLES, tree)] + LrTrees.Roots(TABLES, kids);
    assert TABLES.rhs[r][k..] == [TABLES.rhs[r][k]] + TABLES.rhs[r][k + 1..];
    assert AllPermitted(LOOKAHEAD, r, k, all);
  }

  lemma MakesToken(r: int, k: nat, token: Token, kids: seq<Tree>, v: seq<Token>)
    requires 1 <= r < 38 && k < LengthAt(r) && MakeRest(TABLES, r, k + 1, kids, v)
    requires token.kind == SymbolAt(r, k) && IsToken(token.kind)
    ensures MakeRest(TABLES, r, k, [Leaf(token)] + kids, [token] + v)
  {
    hide LengthAt, SymbolAt, MakeRest;
    StatesAre(token.kind);
    assert Makes(TABLES, token.kind, Leaf(token), [token]);
    MakesMore(r, k, Leaf(token), [token], kids, v);
  }

  lemma MakesNode(r: int, kids: seq<Tree>, tokens: seq<Token>)
    requires 1 <= r < 38 && MakeRest(TABLES, r, 0, kids, tokens)
    ensures Makes(TABLES, R1At(r), Node(r, kids), tokens) && IsFull(Node(r, kids))
  {
    hide LengthAt, R1At, IsRule;
    RulesAre(r);
    assert TABLES.rhs[r][0..] == TABLES.rhs[r];
    assert |LrTrees.Roots(TABLES, kids)| == |kids|;
  }

  function Leaves(tokens: seq<Token>): (kids: seq<Tree>)
    ensures |kids| == |tokens| && forall i | 0 <= i < |kids| :: kids[i] == Leaf(tokens[i])
  {
    seq(|tokens|, i requires 0 <= i < |tokens| => Leaf(tokens[i]))
  }

  lemma {:induction false} MakesTokens(r: int, k: nat, tokens: seq<Token>, kids: seq<Tree>, v: seq<Token>)
    requires 1 <= r < 38 && k + |tokens| <= LengthAt(r) && MakeRest(TABLES, r, k + |tokens|, kids, v)
    requires forall i | 0 <= i < |tokens| :: tokens[i].kind == SymbolAt(r, k + i) && IsToken(tokens[i].kind)
    ensures MakeRest(TABLES, r, k, Leaves(tokens) + kids, tokens + v)
    decreases |tokens|
  {
    hide LengthAt, SymbolAt, MakeRest;
    if tokens == [] {
      assert Leaves(tokens) + kids == kids && tokens + v == v;
    } else {
      MakesTokens(r, k + 1, tokens[1..], kids, v);
      MakesToken(r, k, tokens[0], Leaves(tokens[1..]) + kids, tokens[1..] + v);
      assert [Leaf(tokens[0])] + (Leaves(tokens[1..]) + kids) == Leaves(tokens) + kids;
      assert [tokens[0]] + (tokens[1..] + v) == tokens + v;
    }
  }

  /** A node over tokens alone. */
  lemma OverTokens(r: int, tokens: seq<Token>)
    requires 1 <= r < 38 && |tokens| == LengthAt(r)
    requires forall i | 0 <= i < |tokens| :: tokens[i].kind == SymbolAt(r, i) && IsToken(tokens[i].kind)
    ensures Makes(TABLES, R1At(r), Node(r, Leaves(tokens)), tokens) && IsFull(Node(r, Leaves(tokens)))
  {
    hide LengthAt, SymbolAt, R1At, MakeRest, Makes;
    MakesNone(r);
    MakesTokens(r, 0, tokens, [], []);
    assert Leaves(tokens) + [] == Leaves(tokens) && tokens + [] == tokens;
    MakesNode(r, Leaves(tokens), tokens);
  }

  /** A node over tokens and one tree after them. */
  lemma OverLast(r: int, front: seq<Token>, tree: Tree, tokens: seq<Token>)
    requires 1 <= r < 38 && |front| + 1 == LengthAt(r) && r != 18
    requires forall i | 0 <= i < |front| :: front[i].kind == SymbolAt(r, i) && IsToken(front[i].kind)
    requires Makes(TABLES, SymbolAt(r, |front|), tree, tokens)
    ensures Makes(TABLES, R1At(r), Node(r, Leaves(front) + [tree]), front + tokens)
    ensures IsFull(Node(r, Leaves(front) + [tree]))
  {
    hide LengthAt, SymbolAt, R1At, MakeRest, Makes;
    MakesNone(r);
    MakesMore(r, |front|, tree, tokens, [], []);
    assert [tree] + [] == [tree] && tokens + [] == tokens;
    MakesTokens(r, 0, front, [tree], tokens);
    MakesNode(r, Leaves(front) + [tree], front + tokens);
  }

  /** A node over two trees. */
  lemma OverTwo(r: int, a: Tree, u: seq<Token>, b: Tree, v: seq<Token>)
    requires 1 <= r < 38 && LengthAt(r) == 2 && r != 18
    requires Makes(TABLES, SymbolAt(r, 0), a, u) && Makes(TABLES, SymbolAt(r, 1), b, v)
    ensures Makes(TABLES, R1At(r), Node(r, [a, b]), u + v) && IsFull(Node(r, [a, b]))
  {
    hide LengthAt, SymbolAt, R1At, MakeRest, Makes;
    MakesNone(r);
    MakesMore(r, 1, b, v, [], []);
    assert [b] + [] == [b] && v + [] == v;
    MakesMore(r, 0, a, u, [b], v);
    assert [a] + [b] == [a, b];
    MakesNode(r, [a, b], u + v);
  }

  lemma OverOne(r: int, tree: Tree, tokens: seq<Token>)
    requires 1 <= r < 38 && LengthAt(r) == 1 && r != 18 && Makes(TABLES, SymbolAt(r, 0), tree, tokens)
    ensures Makes(TABLES, R1At(r), Node(r, [tree]), tokens) && IsFull(Node(r, [tree]))
  {
    hide LengthAt, SymbolAt, R1At, MakeRest, Makes;
    OverLast(r, [], tree, tokens);
    assert Leaves([]) + [tree] == [tree] && [] + tokens == tokens;
  }

  /** A block over its type, a number, and what its braces hold. */
  lemma OverBlock(r: int, sort: Tree, tokens: seq<Token>, inner: Tree)
    requires (r == 18 || r == 19) && |tokens| >= 4
    requires tokens[1].kind == 25 && tokens[2].kind == 13 && tokens[|tokens| - 1].kind == 14
    requires Makes(TABLES, BLOCK_TYPE, sort, [tokens[0]])
    requires Makes(TABLES, SymbolAt(r, 3), inner, tokens[3..|tokens| - 1])
    requires inner.Node? ==> inner.rule != 22
    requires sort.Node? ==> sort.rule != 22
    ensures var kids := [sort, Leaf(tokens[1]), Leaf(tokens[2]), inner, Leaf(tokens[|tokens| - 1])];
      Makes(TABLES, 36, Node(r, kids), tokens) && IsFull(Node(r, kids))
  {
    hide LengthAt, SymbolAt, R1At, MakeRest, Makes;
    RuleSpells(r);
    var last, within := tokens[|tokens| - 1], tokens[3..|tokens| - 1];
    MakesNone(r);
    MakesToken(r, 4, last, [], []);
    assert [Leaf(last)] + [] == [Leaf(last)] && [last] + [] == [last];
    MakesMore(r, 3, inner, within, [Leaf(last)], [last]);
    assert [inner] + [Leaf(last)] == [inner, Leaf(last)];
    assert within + [last] == tokens[3..];
    MakesToken(r, 2, tokens[2], [inner, Leaf(last)], tokens[3..]);
    assert [Leaf(tokens[2])] + [inner, Leaf(last)] == [Leaf(tokens[2]), inner, Leaf(last)];
    assert [tokens[2]] + tokens[3..] == tokens[2..];
    MakesToken(r, 1, tokens[1], [Leaf(tokens[2]), inner, Leaf(last)], tokens[2..]);
    assert [Leaf(tokens[1])] + [Leaf(tokens[2]), inner, Leaf(last)] ==
           [Leaf(tokens[1]), Leaf(tokens[2]), inner, Leaf(last)];
    assert [tokens[1]] + tokens[2..] == tokens[1..];
    MakesMore(r, 0, sort, [tokens[0]], [Leaf(tokens[1]), Leaf(tokens[2]), inner, Leaf(last)], tokens[1..]);
    assert [sort] + [Leaf(tokens[1]), Leaf(tokens[2]), inner, Leaf(last)] ==
           [sort, Leaf(tokens[1]), Leaf(tokens[2]), inner, Leaf(last)];
    assert [tokens[0]] + tokens[1..] == tokens;
    MakesNode(r, [sort, Leaf(tokens[1]), Leaf(tokens[2]), inner, Leaf(last)], tokens);
  }

  /** A node over three trees: a group, a separator, and the elements after it. */
  lemma OverElement(a: Tree, u: seq<Token>, b: Tree, v: seq<Token>, c: Tree, w: seq<Token>)
    requires Makes(TABLES, 39, a, u) && Makes(TABLES, 41, b, v) && Makes(TABLES, 38, c, w)
    ensures Makes(TABLES, 38, Node(23, [a, b, c]), u + v + w) && IsFull(Node(23, [a, b, c]))
  {
    hide LengthAt, SymbolAt, R1At, MakeRest, Makes;
    RuleSpells(23);
    MakesNone(23);
    MakesMore(23, 2, c, w, [], []);
    assert [c] + [] == [c] && w + [] == w;
    MakesMore(23, 1, b, v, [c], w);
    assert [b] + [c] == [b, c];
    MakesMore(23, 0, a, u, [b, c], v + w);
    assert [a] + [b, c] == [a, b, c] && u + (v + w) == u + v + w;
    MakesNode(23, [a, b, c], u + v + w);
  }

  lemma SeparatorMade(tokens: seq<Token>, s: Separator) returns (tree: Tree)
    requires WritesSeparator(tokens, s)
    ensures Makes(TABLES, SEPARATOR, tree, tokens) && tree.Node? && SeparatorOf(tree) == s
  {
    hide LengthAt, SymbolAt, R1At, Makes;
    var r := if |tokens| == 6 then 29 else if tokens[0].kind == 17 then 28 else 30;
    RuleSpells(r);
    tree := Node(r, Leaves(tokens));
    OverTokens(r, tokens);
  }

  lemma {:induction false} TreeMade(tokens: seq<Token>, a: Anno) returns (tree: Tree)
    requires WritesTree(tokens, a)
    ensures Makes(TABLES, 35, tree, tokens) && TreeOf(tree) == a
    decreases |tokens|, 1
  {
    hide LengthAt, SymbolAt, R1At, Makes, WritesBlock, WritesLinks, WritesContents;
    var r, kid;
    if |tokens| == 2 && Starts(tokens, [24, 25]) && a == Text(tokens[0].text, tokens[1].num) {
      RuleSpells(31);
      r, kid := 17, Node(31, Leaves(tokens));
      OverTokens(31, tokens);
    } else if WritesBlock(tokens, a) {
      r := 14;
      kid := BlockMade(tokens, a);
    } else {
      var front, rest := tokens[..2], tokens[2..];
      assert front + rest == tokens;
      if Starts(tokens, [10, 11]) && WritesLinks(rest, a) {
        RuleSpells(32);
        var links := LinksMade(rest, a);
        r, kid := 15, Node(32, Leaves(front) + [links]);
        OverLast(32, front, links, rest);
      } else {
        RuleSpells(33);
        var contents := ContentsMade(rest, a.body);
        r, kid := 16, Node(33, Leaves(front) + [contents]);
        OverLast(33, front, contents, rest);
      }
    }
    RuleSpells(r);
    tree := Node(r, [kid]);
    OverOne(r, kid, tokens);
  }

  lemma {:induction false} BlockMade(tokens: seq<Token>, a: Anno) returns (tree: Tree)
    requires WritesBlock(tokens, a)
    ensures Makes(TABLES, 36, tree, tokens) && TreeOf(tree) == a
    decreases |tokens|, 0
  {
    hide LengthAt, SymbolAt, R1At, Makes, WritesGroup, WritesChain;
    var inner := tokens[3..|tokens| - 1];
    var s := if tokens[0].kind == 7 then 20 else 21;
    RuleSpells(s);
    var sort := Node(s, Leaves([tokens[0]]));
    OverTokens(s, [tokens[0]]);
    var r, within;
    if WritesGroup(inner, a) {
      r := 19;
      within := GroupMade(inner, a);
      RuleSpells(19);
      GroupNode(within, inner);
    } else {
      r := 18;
      within := ChainMade(inner, a.chain);
      RuleSpells(18);
    }
    OverBlock(r, sort, tokens, within);
    tree := Node(r, [sort, Leaf(tokens[1]), Leaf(tokens[2]), within, Leaf(tokens[|tokens| - 1])]);
  }

  lemma GroupNode(tree: Tree, tokens: seq<Token>)
    requires Makes(TABLES, 39, tree, tokens)
    ensures tree.Node? ==> tree.rule != 22
  {
    hide R1At;
    NodeRule(tree);
    RuleSpells(22);
  }

  lemma {:induction false} LinksMade(tokens: seq<Token>, a: Anno) returns (tree: Tree)
    requires WritesLinks(tokens, a)
    ensures Makes(TABLES, 45, tree, tokens) && TreeOf(tree) == a
    decreases |tokens|, 3
  {
    hide LengthAt, SymbolAt, R1At, Makes, WritesContents;
    if Starts(tokens, [12]) && WritesContents(tokens[1..], a) {
      RuleSpells(34);
      var contents := ContentsMade(tokens[1..], a);
      tree := Node(34, Leaves(tokens[..1]) + [contents]);
      OverLast(34, tokens[..1], contents, tokens[1..]);
      assert tokens[..1] + tokens[1..] == tokens;
    } else {
      RuleSpells(35);
      var links := LinksMade(tokens[5..], a.body);
      tree := Node(35, Leaves(tokens[..5]) + [links]);
      OverLast(35, tokens[..5], links, tokens[5..]);
      assert tokens[..5] + tokens[5..] == tokens;
    }
  }

  lemma {:induction false} ContentsMade(tokens: seq<Token>, a: Anno) returns (tree: Tree)
    requires WritesContents(tokens, a)
    ensures Makes(TABLES, 46, tree, tokens) && TreeOf(tree) == a
    decreases |tokens|, 2
  {
    hide LengthAt, SymbolAt, R1At, Makes, WritesTree, WritesSeparator;
    if WritesTree(tokens, a) {
      RuleSpells(36);
      var kid := TreeMade(tokens, a);
      tree := Node(36, [kid]);
      OverOne(36, kid, tokens);
    } else {
      RuleSpells(37);
      var s :| WritesSeparator(tokens, s);
      var kid := SeparatorMade(tokens, s);
      tree := Node(37, [kid]);
      OverOne(37, kid, tokens);
    }
  }

  lemma {:induction false} GroupMade(tokens: seq<Token>, a: Anno) returns (tree: Tree)
    requires WritesGroup(tokens, a)
    ensures Makes(TABLES, 39, tree, tokens) && TreeOf(tree) == a
    decreases |tokens|, 3
  {
    hide LengthAt, SymbolAt, R1At, Makes, WritesRow;
    if tokens == [] && a == EMPTY {
      RuleSpells(24);
      tree := Node(24, Leaves([]));
      OverTokens(24, []);
    } else {
      RuleSpells(25);
      var kid := RowMade(tokens, a);
      tree := Node(25, [kid]);
      OverOne(25, kid, tokens);
    }
  }

  lemma {:induction false} RowMade(tokens: seq<Token>, a: Anno) returns (tree: Tree)
    requires WritesRow(tokens, a)
    ensures Makes(TABLES, 40, tree, tokens) && TreeOf(tree) == a
    decreases |tokens|, 2
  {
    hide LengthAt, SymbolAt, R1At, Makes, WritesTree;
    if WritesTree(tokens, a) {
      RuleSpells(26);
      var kid := TreeMade(tokens, a);
      tree := Node(26, [kid]);
      OverOne(26, kid, tokens);
    } else {
      RuleSpells(27);
      var i :| 0 < i < |tokens| && WritesTree(tokens[..i], a.left) && WritesRow(tokens[i..], a.right);
      var left := TreeMade(tokens[..i], a.left);
      var right := RowMade(tokens[i..], a.right);
      tree := Node(27, [left, right]);
      OverTwo(27, left, tokens[..i], right, tokens[i..]);
      assert tokens[..i] + tokens[i..] == tokens;
    }
  }

  lemma {:induction false} ChainMade(tokens: seq<Token>, chain: Chain) returns (tree: Tree)
    requires WritesChain(tokens, chain)
    ensures Makes(TABLES, 38, tree, tokens) && ListOf(tree) == chain
    ensures tree.Node? && (chain.next.Element? ==> tree.rule == 23)
    decreases |tokens|, 4
  {
    hide LengthAt, SymbolAt, R1At, Makes, WritesGroup, WritesSeparator;
    if chain.separator == Separator(SepNever, 0, 0) && chain.next == Null && WritesGroup(tokens, chain.contents) {
      RuleSpells(22);
      var group := GroupMade(tokens, chain.contents);
      tree := Node(22, [group]);
      OverOne(22, group, tokens);
    } else {
      var i, j :| 0 <= i < j <= |tokens| && WritesGroup(tokens[..i], chain.contents)
                  && WritesSeparator(tokens[i..j], chain.separator) && WritesChain(tokens[j..], chain.next);
      var group := GroupMade(tokens[..i], chain.contents);
      var separator := SeparatorMade(tokens[i..j], chain.separator);
      var next := ChainMade(tokens[j..], chain.next);
      tree := Node(23, [group, separator, next]);
      OverElement(group, tokens[..i], separator, tokens[i..j], next, tokens[j..]);
      assert tokens[..i] + tokens[i..j] + tokens[j..] == tokens;
    }
  }

  lemma TurnMade(tokens: seq<Token>)
    requires |tokens| == 2 && Starts(tokens, [22, 25])
    ensures var output := Node(12, Leaves(tokens));
      Makes(TABLES, OUTPUT, output, tokens) && TypeOf(output) == tokens[1].num && CallsOf(output) == []
  {
    hide LengthAt, SymbolAt, R1At, Makes;
    OutputSymbols(12);
    OverTokens(12, tokens);
  }

  lemma CallMade(output: Tree, begun: seq<Token>, kid: Tree, tokens: seq<Token>)
    requires Makes(TABLES, OUTPUT, output, begun) && Makes(TABLES, 35, kid, tokens)
    ensures var longer := Node(13, [output, kid]);
      && Makes(TABLES, OUTPUT, longer, begun + tokens) && TypeOf(longer) == TypeOf(output)
      && CallsOf(longer) == CallsOf(output) + [(TypeOf(output), TreeOf(kid))]
  {
    hide LengthAt, SymbolAt, R1At, Makes, TreeOf;
    OutputSymbols(13);
    OverTwo(13, output, begun, kid, tokens);
  }

  lemma ListEnds(output: Tree, tokens: seq<Token>)
    requires Makes(TABLES, OUTPUT, output, tokens)
    ensures Makes(TABLES, OUTPUTLIST, Node(10, [output]), tokens) && CallsOf(Node(10, [output])) == CallsOf(output)
  {
    hide LengthAt, SymbolAt, R1At, Makes;
    OutputSymbols(10);
    OverOne(10, output, tokens);
  }

  lemma ListGoesOn(output: Tree, begun: seq<Token>, others: Tree, tokens: seq<Token>)
    requires Makes(TABLES, OUTPUT, output, begun) && Makes(TABLES, OUTPUTLIST, others, tokens)
    ensures var tree := Node(11, [output, others]);
      Makes(TABLES, OUTPUTLIST, tree, begun + tokens) && CallsOf(tree) == CallsOf(output) + CallsOf(others)
  {
    hide LengthAt, SymbolAt, R1At, Makes;
    OutputSymbols(11);
    OverTwo(11, output, begun, others, tokens);
  }

  lemma NextCall(tokens: seq<Token>, kind: nat, calls: seq<(nat, Anno)>) returns (i: nat)
    requires WritesCalls(tokens, kind, calls) && !(tokens == [] && calls == [])
    requires !(Starts(tokens, [22, 25]) && WritesCalls(tokens[2..], tokens[1].num, calls))
    ensures 0 < i <= |tokens| && calls != [] && calls[0].0 == kind
    ensures WritesTree(tokens[..i], calls[0].1) && WritesCalls(tokens[i..], kind, calls[1..])
  {
    hide WritesTree;
    i :| 0 < i <= |tokens| && WritesTree(tokens[..i], calls[0].1) && WritesCalls(tokens[i..], kind, calls[1..]);
  }

  /** Outputs from some place on, the first of them begun. */
  lemma {:induction false} OutputsMade(
      output: Tree, begun: seq<Token>, tokens: seq<Token>, kind: nat, calls: seq<(nat, Anno)>) returns (tree: Tree)
    requires Makes(TABLES, OUTPUT, output, begun) && TypeOf(output) == kind && WritesCalls(tokens, kind, calls)
    ensures Makes(TABLES, OUTPUTLIST, tree, begun + tokens) && CallsOf(tree) == CallsOf(output) + calls
    decreases |tokens|
  {
    hide Makes, WritesTree, WritesCalls, TreeOf, TypeOf, CallsOf, Leaves;
    if tokens == [] && calls == [] {
      tree := Node(10, [output]);
      ListEnds(output, begun);
      assert begun + tokens == begun && CallsOf(output) + calls == CallsOf(output);
    } else if Starts(tokens, [22, 25]) && WritesCalls(tokens[2..], tokens[1].num, calls) {
      TurnMade(tokens[..2]);
      var others := OutputsMade(Node(12, Leaves(tokens[..2])), tokens[..2], tokens[2..], tokens[1].num, calls);
      assert tokens[..2] + tokens[2..] == tokens && [] + calls == calls;
      tree := Node(11, [output, others]);
      ListGoesOn(output, begun, others, tokens);
    } else {
      var i := NextCall(tokens, kind, calls);
      var kid := TreeMade(tokens[..i], calls[0].1);
      CallMade(output, begun, kid, tokens[..i]);
      tree := OutputsMade(Node(13, [output, kid]), begun + tokens[..i], tokens[i..], kind, calls[1..]);
      assert begun + tokens[..i] + tokens[i..] == begun + tokens;
      assert calls == [(kind, calls[0].1)] + calls[1..];
    }
  }

  lemma SectionMade(tokens: seq<Token>, calls: seq<(nat, Anno)>) returns (tree: Tree)
    requires WritesSection(tokens, calls)
    ensures Makes(TABLES, 32, tree, tokens) && CallsOf(Kid(tree, 2)) == calls
  {
    hide LengthAt, SymbolAt, R1At, Makes, WritesCalls;
    OutputSymbols(9);
    var rest := tokens[2..];
    TurnMade(rest[..2]);
    var list := OutputsMade(Node(12, Leaves(rest[..2])), rest[..2], rest[2..], rest[1].num, calls);
    assert rest[..2] + rest[2..] == rest && [] + calls == calls;
    tree := Node(9, Leaves(tokens[..2]) + [list]);
    OverLast(9, tokens[..2], list, rest);
    assert tokens[..2] + rest == tokens;
  }

  lemma {:induction false} AttributeListMade(tokens: seq<Token>) returns (tree: Tree)
    requires WritesAttributeList(tokens)
    ensures Makes(TABLES, 30, tree, tokens)
    decreases |tokens|
  {
    hide LengthAt, SymbolAt, R1At, Makes;
    AttributeSymbols(8);
    AttributeSymbols(6);
    AttributeSymbols(7);
    var attribute := Node(8, Leaves(tokens[..3]));
    OverTokens(8, tokens[..3]);
    if |tokens| == 3 {
      assert tokens[..3] == tokens;
      tree := Node(6, [attribute]);
      OverOne(6, attribute, tokens);
    } else {
      var others := AttributeListMade(tokens[3..]);
      tree := Node(7, [attribute, others]);
      OverTwo(7, attribute, tokens[..3], others, tokens[3..]);
      assert tokens[..3] + tokens[3..] == tokens;
    }
  }

  lemma AttributesMade(tokens: seq<Token>) returns (tree: Tree)
    requires WritesAttributes(tokens)
    ensures Makes(TABLES, 29, tree, tokens)
  {
    hide LengthAt, SymbolAt, R1At, Makes, WritesAttributeList;
    AttributeSymbols(5);
    var list := AttributeListMade(tokens[2..]);
    tree := Node(5, Leaves(tokens[..2]) + [list]);
    OverLast(5, tokens[..2], list, tokens[2..]);
    assert tokens[..2] + tokens[2..] == tokens;
  }

  lemma HeadingMade(tokens: seq<Token>) returns (tree: Tree)
    requires Introduces(tokens, [])
    ensures Makes(TABLES, INTRODUCTION, tree, tokens) && DefsOf(tree) == []
  {
    hide LengthAt, SymbolAt, R1At, Makes, Spells;
    IntroSymbols(3);
    tree := Node(3, Leaves(tokens));
    OverTokens(3, tokens);
  }

  lemma {:induction false} IntroductionMade(tokens: seq<Token>, defs: seq<TypeDef>) returns (tree: Tree)
    requires Introduces(tokens, defs)
    ensures Makes(TABLES, INTRODUCTION, tree, tokens) && DefsOf(tree) == defs
    decreases |defs|
  {
    hide LengthAt, SymbolAt, R1At, Makes, Spells, Introduces;
    if defs == [] {
      tree := HeadingMade(tokens);
    } else {
      var n := |defs| - 1;
      IntroducesLess(tokens, defs);
      var before, six := tokens[..|tokens| - 6], tokens[|tokens| - 6..];
      assert before + six == tokens;
      var intro := IntroductionMade(before, defs[..n]);
      tree := Node(4, [intro] + Leaves(six));
      DefinitionMade(intro, before, six, defs[n]);
      assert defs[..n] + [defs[n]] == defs;
    }
  }

  lemma IntroducesLess(tokens: seq<Token>, defs: seq<TypeDef>)
    requires Introduces(tokens, defs) && defs != []
    ensures |tokens| >= 6 && Introduces(tokens[..|tokens| - 6], defs[..|defs| - 1])
    ensures Spells(tokens[|tokens| - 6..], defs[|defs| - 1])
  {
    hide Spells;
    var n := |defs| - 1;
    assert tokens[5 + 6 * n..11 + 6 * n] == tokens[|tokens| - 6..];
    var less := tokens[..|tokens| - 6];
    forall i | 0 <= i < |defs| - 1 ensures Spells(less[5 + 6 * i..11 + 6 * i], defs[i]) {
      assert less[5 + 6 * i..11 + 6 * i] == tokens[5 + 6 * i..11 + 6 * i];
    }
  }

  lemma DefinitionMade(intro: Tree, before: seq<Token>, six: seq<Token>, d: TypeDef)
    requires Makes(TABLES, INTRODUCTION, intro, before) && Spells(six, d)
    ensures var tree := Node(4, [intro] + Leaves(six));
      && Makes(TABLES, INTRODUCTION, tree, before + six) && IsFull(tree)
      && NumOf(Kid(tree, 3)) == d.number && NumOf(Kid(tree, 5)) == d.parent
  {
    hide LengthAt, SymbolAt, R1At, Makes, MakeRest;
    IntroSymbols(4);
    MakesNone(4);
    MakesTokens(4, 1, six, [], []);
    assert Leaves(six) + [] == Leaves(six) && six + [] == six;
    MakesMore(4, 0, intro, before, Leaves(six), six);
    MakesNode(4, [intro] + Leaves(six), before + six);
  }

  /** A node over the three sections of a file, with the marker between the first two. */
  lemma OverFile(intro: Tree, u: seq<Token>, attributes: Tree, v: seq<Token>, section: Tree, w: seq<Token>)
    requires Makes(TABLES, INTRODUCTION, intro, u) && Makes(TABLES, 29, attributes, v) && Makes(TABLES, 32, section, w)
    ensures Makes(TABLES, 26, Node(2, [intro, Node(1, Leaves([])), attributes, section]), u + (v + w))
  {
    hide LengthAt, SymbolAt, R1At, Makes, MakeRest, Leaves;
    IntroSymbols(2);
    AttributeSymbols(1);
    OutputSymbols(2);
    var marker := Node(1, Leaves([]));
    OverTokens(1, []);
    MakesNone(2);
    MakesMore(2, 3, section, w, [], []);
    assert [section] + [] == [section] && w + [] == w;
    MakesMore(2, 2, attributes, v, [section], w);
    assert [attributes] + [section] == [attributes, section];
    MakesMore(2, 1, marker, [], [attributes, section], v + w);
    assert [marker] + [attributes, section] == [marker, attributes, section] && [] + (v + w) == v + w;
    MakesMore(2, 0, intro, u, [marker, attributes, section], v + w);
    assert [intro] + [marker, attributes, section] == [intro, marker, attributes, section];
    MakesNode(2, [intro, marker, attributes, section], u + (v + w));
  }

  /** Every file that is written has a parse tree, with the definitions and the calls that are written. */
  lemma {:induction false} FileMade(tokens: seq<Token>, defs: seq<TypeDef>, calls: seq<(nat, Anno)>)
    returns (file: Tree)
    requires WritesFile(tokens, defs, calls)
    ensures Makes(TABLES, Start(TABLES), file, tokens) && FileDefs(file) == defs && FileCalls(file) == calls
  {
    hide Makes, Introduces, WritesAttributes, WritesSection, Start, CallsOf, DefsOf, Leaves;
    StartIs();
    var i, j :| 0 <= i <= j <= |tokens| && Introduces(tokens[..i], defs) && WritesAttributes(tokens[i..j])
                && WritesSection(tokens[j..], calls);
    var intro := IntroductionMade(tokens[..i], defs);
    var attributes := AttributesMade(tokens[i..j]);
    var section := SectionMade(tokens[j..], calls);
    OverFile(intro, tokens[..i], attributes, tokens[i..j], section, tokens[j..]);
    assert tokens[..i] + (tokens[i..j] + tokens[j..]) == tokens;
    file := Node(2, [intro, Node(1, Leaves([])), attributes, section]);
  }

  // ---- What the parser accepts --------------------------------------------------------------------------

  /** What a run says of the language: an accepted input writes the definitions and the calls of the
      file that is built, and no others; an input that writes a file is accepted, unless the stacks
      have no room for it. */
  lemma {:induction false} AcceptsWritten(input: seq<Token>, defs: seq<TypeDef>, calls: seq<(nat, Anno)>)
    requires InputOk(TABLES, input)
    ensures var c := LastConfig(TABLES, WEIGHTS, input);
      && (c.status.Accepted? ==> |c.trees| == 2)
      && (WritesFile(input, defs, calls) ==> c.status.Accepted? || c.status.Overflowed?)
      && (c.status.Accepted? ==>
            (WritesFile(input, defs, calls) <==> defs == FileDefs(c.trees[0]) && calls == FileCalls(c.trees[0])))
  {
    hide Run, LrTables.Valid, Complete, Weighted, Permitted, Barred, Derivation, Proper, Root, Height, StepBound, Built;
    hide WritesFile, FileDefs, FileCalls, InputOk;
    TablesValid();
    TablesWeighted();
    TablesComplete();
    var c := LastConfig(TABLES, WEIGHTS, input);
    if WritesFile(input, defs, calls) {
      var file := FileMade(input, defs, calls);
      SentenceAccepted(TABLES, CERT, LOOKAHEAD, WEIGHTS, file);
    }
    if c.status.Accepted? {
      AcceptedWithoutError(input);
      AcceptedParses(TABLES, CERT, LOOKAHEAD, WEIGHTS, input);
      FileWritten(c.trees[0]);
    }
  }

  lemma AcceptedWithoutError(input: seq<Token>)
    requires InputOk(TABLES, input) && LastConfig(TABLES, WEIGHTS, input).status.Accepted?
    ensures LastConfig(TABLES, WEIGHTS, input).nerrs == 0
  {
    hide Run, LrTables.Valid, StepBound;
    TablesValid();
    forall s | IsState(TABLES, s) ensures ErrorLookup(TABLES, s).Error? {
      NoErrorState(s);
    }
    NoRecovery(TABLES, CERT, input, StepBound(WEIGHTS, input));
    RunCounts(input, StepBound(WEIGHTS, input));
  }
}
