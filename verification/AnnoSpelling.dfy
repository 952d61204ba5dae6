/** The annotation language as it is written: which token sequences stand for which tree, and where
    each number and each keyword of a tree stands. What the parser builds is what the tokens write. */
module AnnoSpelling {
  import opened LrTables
  import opened LrTrees
  import opened LrSoundness
  import opened LrCompleteness
  import opened AnnoTables
  import opened AnnoLookahead
  import opened AnnoTrees
  import opened TypeLists

  // ---- The language -------------------------------------------------------------------------------

  /** The first tokens are of these kinds. */
  predicate Starts(tokens: seq<Token>, kinds: seq<int>) {
    |kinds| <= |tokens| && forall i | 0 <= i < |kinds| :: tokens[i].kind == kinds[i]
  }

  /** A text in its type, a block in braces, a link, or a label. */
  ghost predicate WritesTree(tokens: seq<Token>, a: Anno)
    decreases |tokens|, 1
  {
    || (|tokens| == 2 && Starts(tokens, [24, 25]) && a == Text(tokens[0].text, tokens[1].num))
    || WritesBlock(tokens, a)
    || (Starts(tokens, [10, 11]) && WritesLinks(tokens[2..], a))
    || (Starts(tokens, [25, 23]) && a.Label? && a.id == tokens[0].num && WritesContents(tokens[2..], a.body))
  }

  /** 'C' or 'I', the indentation, and in braces either one group, which is then all there is, or
      groups with separators between them. */
  ghost predicate WritesBlock(tokens: seq<Token>, a: Anno)
    decreases |tokens|, 0
  {
    && |tokens| >= 4 && (tokens[0].kind == 7 || tokens[0].kind == 8) && tokens[1].kind == 25 && tokens[2].kind == 13
    && tokens[|tokens| - 1].kind == 14
    && var inner := tokens[3..|tokens| - 1];
       || WritesGroup(inner, a)
       || (a.Block? && a.consistent == (tokens[0].kind == 7) && a.indentation == tokens[1].num
           && a.chain.Element? && a.chain.next.Element? && WritesChain(inner, a.chain))
  }

  /** Each link by the label it leads to and its type, the outermost first, and what is linked. */
  ghost predicate WritesLinks(tokens: seq<Token>, a: Anno)
    decreases |tokens|, 3
  {
    || (Starts(tokens, [12]) && WritesContents(tokens[1..], a))
    || (Starts(tokens, [15, 25, 9, 25, 16]) && a.Link? && a.id == tokens[1].num && a.kind == tokens[3].num
        && WritesLinks(tokens[5..], a.body))
  }

  /** A tree, or a separator, which shows nothing. */
  ghost predicate WritesContents(tokens: seq<Token>, a: Anno)
    decreases |tokens|, 2
  {
    WritesTree(tokens, a) || (a == EMPTY && exists s :: WritesSeparator(tokens, s))
  }

  /** Nothing, or trees in a row. */
  ghost predicate WritesGroup(tokens: seq<Token>, a: Anno)
    decreases |tokens|, 3
  {
    (tokens == [] && a == EMPTY) || WritesRow(tokens, a)
  }

  ghost predicate WritesRow(tokens: seq<Token>, a: Anno)
    decreases |tokens|, 2
  {
    || WritesTree(tokens, a)
    || (a.Concat? && exists i | 0 < i < |tokens| :: WritesTree(tokens[..i], a.left) && WritesRow(tokens[i..], a.right))
  }

  /** Groups with separators between them; the last one has none. */
  ghost predicate WritesChain(tokens: seq<Token>, chain: Chain)
    decreases |tokens|, 4
  {
    && chain.Element?
    && ((chain.separator == Separator(SepNever, 0, 0) && chain.next == Null && WritesGroup(tokens, chain.contents))
        || exists i, j | 0 <= i < j <= |tokens| ::
             && WritesGroup(tokens[..i], chain.contents) && WritesSeparator(tokens[i..j], chain.separator)
             && WritesChain(tokens[j..], chain.next))
  }

  /** `?`, with spaces and an offset in angle brackets or without, or `!`. */
  ghost predicate WritesSeparator(tokens: seq<Token>, s: Separator) {
    || (|tokens| == 1 && tokens[0].kind == 17 && s == Separator(SepBreak, 1, 0))
    || (|tokens| == 6 && Starts(tokens, [17, 18, 25, 9, 25, 19])
        && s == Separator(SepBreak, tokens[2].num, tokens[4].num))
    || (|tokens| == 1 && tokens[0].kind == 20 && s == Separator(SepNewline, 1, 0))
  }

  /** An output section from some place on, where outputs belong to `type`: `#` and a number turn to
      another type, and each tree is added to the type last turned to. */
  ghost predicate WritesCalls(tokens: seq<Token>, kind: nat, calls: seq<(nat, Anno)>)
    decreases |tokens|
  {
    || (tokens == [] && calls == [])
    || (Starts(tokens, [22, 25]) && WritesCalls(tokens[2..], tokens[1].num, calls))
    || (calls != [] && calls[0].0 == kind
        && exists i | 0 < i <= |tokens| ::
             WritesTree(tokens[..i], calls[0].1) && WritesCalls(tokens[i..], kind, calls[1..]))
  }

  /** The section starts by turning to a type. */
  ghost predicate WritesOutputs(tokens: seq<Token>, calls: seq<(nat, Anno)>) {
    Starts(tokens, [22, 25]) && WritesCalls(tokens[2..], tokens[1].num, calls)
  }

  /** A definition as the file spells it: a name, '=', its number, and its parent in parentheses. */
  ghost predicate Spells(tokens: seq<Token>, d: TypeDef) {
    && |tokens| == 6
    && tokens[0].kind == STRING && tokens[1].kind == 21 && tokens[2].kind == 25
    && tokens[3].kind == 15 && tokens[4].kind == 25 && tokens[5].kind == 16
    && tokens[2].num == d.number && tokens[4].num == d.parent
  }

  /** An introduction as the file spells it: two headings with the producer's name between them, and
      then the definitions in order. */
  ghost predicate Introduces(tokens: seq<Token>, defs: seq<TypeDef>) {
    && |tokens| == 5 + 6 * |defs| && Starts(tokens, [3, 23, 24, 4, 23])
    && forall i | 0 <= i < |defs| :: Spells(tokens[5 + 6 * i..11 + 6 * i], defs[i])
  }

  /** The attributes: a heading, and each a name, `=` and a number. */
  ghost predicate WritesAttributes(tokens: seq<Token>) {
    Starts(tokens, [5, 23]) && WritesAttributeList(tokens[2..])
  }

  ghost predicate WritesAttributeList(tokens: seq<Token>) {
    |tokens| >= 3 && Starts(tokens, [24, 21, 25]) && (|tokens| == 3 || WritesAttributeList(tokens[3..]))
  }

  ghost predicate WritesSection(tokens: seq<Token>, calls: seq<(nat, Anno)>) {
    Starts(tokens, [6, 23]) && WritesOutputs(tokens[2..], calls)
  }

  /** A whole file: the types it defines, its attributes, and the trees it adds to types. */
  ghost predicate WritesFile(tokens: seq<Token>, defs: seq<TypeDef>, calls: seq<(nat, Anno)>) {
    exists i, j | 0 <= i <= j <= |tokens| ::
      Introduces(tokens[..i], defs) && WritesAttributes(tokens[i..j]) && WritesSection(tokens[j..], calls)
  }

  // ---- What a parse tree spells -----------------------------------------------------------------------

  /** The tokens of a parse tree write its value. */
  ghost predicate Written(x: int, tokens: seq<Token>, tree: Tree) {
    && (x == 35 || x == 36 || 42 <= x <= 44 ==> WritesTree(tokens, TreeOf(tree)))
    && (x == BLOCKLIST ==> WritesChain(tokens, ListOf(tree)) && ListOf(tree).Element?
                           && (tree.Node? && tree.rule == 23 ==> ListOf(tree).next.Element?))
    && (x == 39 ==> WritesGroup(tokens, TreeOf(tree)))
    && (x == 40 ==> WritesRow(tokens, TreeOf(tree)) && tokens != [])
    && (x == SEPARATOR ==> WritesSeparator(tokens, SeparatorOf(tree)))
    && (x == 45 ==> WritesLinks(tokens, TreeOf(tree)))
    && (x == 46 ==> WritesContents(tokens, TreeOf(tree)))
    && (x == BLOCK_TYPE ==> |tokens| == 1 && tree.Node? && (tokens[0].kind == 7 || tokens[0].kind == 8)
                            && (tree.rule == 20 <==> tokens[0].kind == 7))
  }

  ghost predicate KidsWritten(tree: Tree) {
    && IsFull(tree)
    && forall i | 0 <= i < |tree.kids| ::
         && (IsToken(SymbolAt(tree.rule, i)) ==>
               tree.kids[i].Leaf? && tree.kids[i].token.kind == SymbolAt(tree.rule, i))
         && (!IsToken(SymbolAt(tree.rule, i)) ==>
               Written(SymbolAt(tree.rule, i), Yield(tree.kids[i]), tree.kids[i]))
  }

  lemma KidWritten(tree: Tree, i: nat)
    requires KidsWritten(tree) && i < |tree.kids|
    ensures IsToken(SymbolAt(tree.rule, i)) ==>
              tree.kids[i].Leaf? && tree.kids[i].token.kind == SymbolAt(tree.rule, i)
              && Yield(tree.kids[i]) == [tree.kids[i].token]
    ensures !IsToken(SymbolAt(tree.rule, i)) ==>
              Written(SymbolAt(tree.rule, i), Yield(tree.kids[i]), tree.kids[i])
  {
    hide Written, SymbolAt;
  }

  /** Children of one token each stand at the front of a node's tokens. */
  lemma {:induction false} FrontTokens(kids: seq<Tree>, n: nat)
    requires n <= |kids| && forall i | 0 <= i < n :: |Yield(kids[i])| == 1
    ensures n <= |Yields(kids)| && Yields(kids)[n..] == Yields(kids[n..])
    ensures forall i | 0 <= i < n :: Yields(kids)[i] == Yield(kids[i])[0]
    decreases n
  {
    hide Yield;
    if n > 0 {
      forall i | 0 <= i < n - 1 ensures |Yield(kids[1..][i])| == 1 {
        assert kids[1..][i] == kids[i + 1];
      }
      FrontTokens(kids[1..], n - 1);
      assert kids[1..][n - 1..] == kids[n..];
      assert forall i | 1 <= i < n :: kids[1..][i - 1] == kids[i];
      assert Yields(kids) == Yield(kids[0]) + Yields(kids[1..]);
    }
  }

  lemma LastYield(kids: seq<Tree>, n: nat)
    requires n <= |kids| <= n + 3
    ensures |kids| == n ==> Yields(kids[n..]) == []
    ensures |kids| == n + 1 ==> Yields(kids[n..]) == Yield(kids[n])
    ensures |kids| == n + 2 ==> Yields(kids[n..]) == Yield(kids[n]) + Yield(kids[n + 1])
    ensures |kids| == n + 3 ==> Yields(kids[n..]) == Yield(kids[n]) + (Yield(kids[n + 1]) + Yield(kids[n + 2]))
  {
    hide Yield;
    var end := kids[|kids|..];
    assert Yields(end) == [];
    if |kids| > n {
      assert kids[n..][1..] == kids[n + 1..];
      if |kids| > n + 1 {
        assert kids[n + 1..][1..] == kids[n + 2..];
        if |kids| > n + 2 {
          assert kids[n + 2..][1..] == end;
          assert Yields(kids[n + 2..]) == Yield(kids[n + 2]);
        }
        assert |kids| == n + 2 ==> Yields(kids[n + 1..]) == Yield(kids[n + 1]);
      }
    }
  }

  /** The right-hand sides of rules 14 to 37. */
  lemma RuleSpells(r: int)
    requires 14 <= r < 38
    ensures r == 14 ==> R1At(r) == 35 && LengthAt(r) == 1 && SymbolAt(r, 0) == 36
    ensures r == 15 ==> R1At(r) == 35 && LengthAt(r) == 1 && SymbolAt(r, 0) == 43
    ensures r == 16 ==> R1At(r) == 35 && LengthAt(r) == 1 && SymbolAt(r, 0) == 44
    ensures r == 17 ==> R1At(r) == 35 && LengthAt(r) == 1 && SymbolAt(r, 0) == 42
    ensures r == 18 || r == 19 ==> R1At(r) == 36 && LengthAt(r) == 5 && SymbolAt(r, 0) == 37
    ensures r == 18 || r == 19 ==> SymbolAt(r, 1) == 25 && SymbolAt(r, 2) == 13 && SymbolAt(r, 4) == 14
    ensures r == 18 ==> SymbolAt(r, 3) == 38
    ensures r == 19 ==> SymbolAt(r, 3) == 39
    ensures r == 20 ==> R1At(r) == 37 && LengthAt(r) == 1 && SymbolAt(r, 0) == 7
    ensures r == 21 ==> R1At(r) == 37 && LengthAt(r) == 1 && SymbolAt(r, 0) == 8
    ensures r == 22 ==> R1At(r) == 38 && LengthAt(r) == 1 && SymbolAt(r, 0) == 39
    ensures r == 23 ==> R1At(r) == 38 && LengthAt(r) == 3
    ensures r == 23 ==> SymbolAt(r, 0) == 39 && SymbolAt(r, 1) == 41 && SymbolAt(r, 2) == 38
    ensures r == 24 ==> R1At(r) == 39 && LengthAt(r) == 0
    ensures r == 25 ==> R1At(r) == 39 && LengthAt(r) == 1 && SymbolAt(r, 0) == 40
    ensures r == 26 ==> R1At(r) == 40 && LengthAt(r) == 1 && SymbolAt(r, 0) == 35
    ensures r == 27 ==> R1At(r) == 40 && LengthAt(r) == 2 && SymbolAt(r, 0) == 35 && SymbolAt(r, 1) == 40
    ensures r == 28 ==> R1At(r) == 41 && LengthAt(r) == 1 && SymbolAt(r, 0) == 17
    ensures r == 29 ==> R1At(r) == 41 && LengthAt(r) == 6 && SymbolAt(r, 0) == 17 && SymbolAt(r, 1) == 18
    ensures r == 29 ==> SymbolAt(r, 2) == 25 && SymbolAt(r, 3) == 9 && SymbolAt(r, 4) == 25 && SymbolAt(r, 5) == 19
    ensures r == 30 ==> R1At(r) == 41 && LengthAt(r) == 1 && SymbolAt(r, 0) == 20
    ensures r == 31 ==> R1At(r) == 42 && LengthAt(r) == 2 && SymbolAt(r, 0) == 24 && SymbolAt(r, 1) == 25
    ensures r == 32 ==> R1At(r) == 43 && LengthAt(r) == 3
    ensures r == 32 ==> SymbolAt(r, 0) == 10 && SymbolAt(r, 1) == 11 && SymbolAt(r, 2) == 45
    ensures r == 33 ==> R1At(r) == 44 && LengthAt(r) == 3
    ensures r == 33 ==> SymbolAt(r, 0) == 25 && SymbolAt(r, 1) == 23 && SymbolAt(r, 2) == 46
    ensures r == 34 ==> R1At(r) == 45 && LengthAt(r) == 2 && SymbolAt(r, 0) == 12 && SymbolAt(r, 1) == 46
    ensures r == 35 ==> R1At(r) == 45 && LengthAt(r) == 6 && SymbolAt(r, 0) == 15 && SymbolAt(r, 1) == 25
    ensures r == 35 ==> SymbolAt(r, 2) == 9 && SymbolAt(r, 3) == 25 && SymbolAt(r, 4) == 16 && SymbolAt(r, 5) == 45
    ensures r == 36 ==> R1At(r) == 46 && LengthAt(r) == 1 && SymbolAt(r, 0) == 35
    ensures r == 37 ==> R1At(r) == 46 && LengthAt(r) == 1 && SymbolAt(r, 0) == 41
  {
  }

  /** The token of a child that stands for one, and the rest of the node's tokens. */
  lemma {:induction false} NodeTokens(tree: Tree, n: nat)
    requires KidsWritten(tree) && n <= |tree.kids| <= n + 3
    requires forall i | 0 <= i < n :: IsToken(SymbolAt(tree.rule, i)) || SymbolAt(tree.rule, i) == BLOCK_TYPE
    ensures var tokens := Yield(tree);
      && n <= |tokens| && tokens[n..] == Yields(tree.kids[n..])
      && forall i | 0 <= i < n :: Yield(tree.kids[i]) == [tokens[i]]
    ensures forall i | 0 <= i < n && IsToken(SymbolAt(tree.rule, i)) ::
      && tree.kids[i] == Leaf(Yield(tree)[i]) && Yield(tree)[i].kind == SymbolAt(tree.rule, i)
  {
    hide SymbolAt, WritesTree, WritesChain, WritesGroup, WritesRow, WritesSeparator, WritesLinks, WritesContents;
    var kids := tree.kids;
    forall i | 0 <= i < n ensures |Yield(kids[i])| == 1 {
      KidWritten(tree, i);
    }
    FrontTokens(kids, n);
    forall i | 0 <= i < n && IsToken(SymbolAt(tree.rule, i))
      ensures kids[i] == Leaf(Yield(tree)[i]) && Yield(tree)[i].kind == SymbolAt(tree.rule, i)
    {
      KidWritten(tree, i);
    }
  }

  lemma UnitWrites(tree: Tree)
    requires KidsWritten(tree) && (14 <= tree.rule <= 17 || tree.rule == 25 || tree.rule == 26 || tree.rule == 36)
    ensures Written(R1At(tree.rule), Yield(tree), tree)
  {
    hide R1At, LengthAt, SymbolAt, WritesTree, WritesSeparator, WritesLinks, WritesChain;
    RuleSpells(tree.rule);
    NodeTokens(tree, 0);
    LastYield(tree.kids, 0);
    KidWritten(tree, 0);
    assert TreeOf(tree) == TreeOf(tree.kids[0]) && Yield(tree) == Yield(tree.kids[0]);
    if WritesTree(Yield(tree), TreeOf(tree)) {
      TreeHasTokens(Yield(tree), TreeOf(tree));
    }
  }

  lemma TextWrites(tree: Tree)
    requires KidsWritten(tree) && tree.rule == 31
    ensures Written(R1At(31), Yield(tree), tree)
  {
    hide R1At, LengthAt, SymbolAt, WritesSeparator, WritesBlock, WritesLinks, WritesChain;
    RuleSpells(31);
    NodeTokens(tree, 2);
    LastYield(tree.kids, 2);
  }

  lemma EmptyWrites(tree: Tree)
    requires KidsWritten(tree) && (tree.rule == 24 || tree.rule == 37)
    ensures Written(R1At(tree.rule), Yield(tree), tree)
  {
    hide R1At, LengthAt, SymbolAt, WritesSeparator, WritesBlock, WritesLinks, WritesChain;
    RuleSpells(tree.rule);
    NodeTokens(tree, 0);
    LastYield(tree.kids, 0);
    if tree.rule == 37 {
      KidWritten(tree, 0);
    }
  }

  lemma RowWrites(tree: Tree)
    requires KidsWritten(tree) && tree.rule == 27
    ensures Written(R1At(27), Yield(tree), tree)
  {
    hide R1At, LengthAt, SymbolAt, WritesSeparator, WritesBlock, WritesLinks, WritesChain;
    RuleSpells(27);
    NodeTokens(tree, 0);
    LastYield(tree.kids, 0);
    KidWritten(tree, 0);
    KidWritten(tree, 1);
    var tokens, i := Yield(tree), |Yield(tree.kids[0])|;
    assert tokens[..i] == Yield(tree.kids[0]) && tokens[i..] == Yield(tree.kids[1]);
    TreeHasTokens(Yield(tree.kids[0]), TreeOf(tree.kids[0]));
  }

  lemma TreeHasTokens(tokens: seq<Token>, a: Anno)
    requires WritesTree(tokens, a)
    ensures tokens != []
  {
  }

  lemma BlockTypeWrites(tree: Tree)
    requires KidsWritten(tree) && (tree.rule == 20 || tree.rule == 21)
    ensures Written(R1At(tree.rule), Yield(tree), tree)
  {
    hide R1At, LengthAt, SymbolAt, WritesTree, WritesSeparator, WritesBlock, WritesLinks, WritesChain;
    RuleSpells(tree.rule);
    NodeTokens(tree, 1);
    LastYield(tree.kids, 1);
  }

  lemma SeparatorWrites(tree: Tree)
    requires KidsWritten(tree) && (tree.rule == 28 || tree.rule == 30)
    ensures Written(R1At(tree.rule), Yield(tree), tree)
  {
    hide R1At, LengthAt, SymbolAt, WritesTree, WritesBlock, WritesLinks, WritesChain;
    RuleSpells(tree.rule);
    NodeTokens(tree, 1);
    LastYield(tree.kids, 1);
  }

  lemma SizedSeparatorWrites(tree: Tree)
    requires KidsWritten(tree) && tree.rule == 29
    ensures Written(R1At(29), Yield(tree), tree)
  {
    hide R1At, LengthAt, SymbolAt, WritesTree, WritesBlock, WritesLinks, WritesChain;
    RuleSpells(29);
    NodeTokens(tree, 6);
    LastYield(tree.kids, 6);
  }

  lemma LastWrites(tree: Tree)
    requires KidsWritten(tree) && tree.rule == 22
    ensures Written(R1At(22), Yield(tree), tree)
  {
    hide R1At, LengthAt, SymbolAt, WritesTree, WritesSeparator, WritesBlock, WritesLinks;
    RuleSpells(22);
    NodeTokens(tree, 0);
    LastYield(tree.kids, 0);
    KidWritten(tree, 0);
  }

  lemma ElementWrites(tree: Tree)
    requires KidsWritten(tree) && tree.rule == 23
    ensures Written(R1At(23), Yield(tree), tree)
  {
    hide R1At, LengthAt, SymbolAt, WritesTree, WritesSeparator, WritesBlock, WritesLinks;
    RuleSpells(23);
    NodeTokens(tree, 0);
    LastYield(tree.kids, 0);
    KidWritten(tree, 0);
    KidWritten(tree, 1);
    KidWritten(tree, 2);
    var tokens, k := Yield(tree), tree.kids;
    var i, j := |Yield(k[0])|, |Yield(k[0])| + |Yield(k[1])|;
    assert tokens[..i] == Yield(k[0]) && tokens[i..j] == Yield(k[1]) && tokens[j..] == Yield(k[2]);
    SeparatorHasTokens(Yield(k[1]), SeparatorOf(k[1]));
  }

  lemma SeparatorHasTokens(tokens: seq<Token>, s: Separator)
    requires WritesSeparator(tokens, s)
    ensures tokens != []
  {
  }

  lemma BlockWrites(tree: Tree)
    requires KidsWritten(tree) && (tree.rule == 18 || tree.rule == 19)
    requires tree.rule == 18 ==> Kid(tree, 3).Node? && Kid(tree, 3).rule == 23 && ListOf(Kid(tree, 3)).next.Element?
    ensures Written(R1At(tree.rule), Yield(tree), tree)
  {
    hide R1At, LengthAt, SymbolAt, WritesSeparator, WritesLinks, WritesChain, WritesGroup;
    RuleSpells(tree.rule);
    NodeTokens(tree, 3);
    LastYield(tree.kids, 3);
    KidWritten(tree, 0);
    KidWritten(tree, 3);
    KidWritten(tree, 4);
    var tokens := Yield(tree);
    assert tokens[3..] == Yield(tree.kids[3]) + [tree.kids[4].token];
    assert tokens[3..|tokens| - 1] == Yield(tree.kids[3]);
    assert tokens[|tokens| - 1] == tree.kids[4].token;
    assert WritesBlock(tokens, TreeOf(tree));
  }

  lemma LinkedWrites(tree: Tree)
    requires KidsWritten(tree) && tree.rule == 32
    ensures Written(R1At(32), Yield(tree), tree)
  {
    hide R1At, LengthAt, SymbolAt, WritesSeparator, WritesBlock, WritesLinks, WritesChain;
    RuleSpells(32);
    NodeTokens(tree, 2);
    LastYield(tree.kids, 2);
    KidWritten(tree, 2);
  }

  lemma LabelWrites(tree: Tree)
    requires KidsWritten(tree) && tree.rule == 33
    ensures Written(R1At(33), Yield(tree), tree)
  {
    hide R1At, LengthAt, SymbolAt, WritesSeparator, WritesBlock, WritesLinks, WritesChain, WritesContents;
    RuleSpells(33);
    NodeTokens(tree, 2);
    LastYield(tree.kids, 2);
    KidWritten(tree, 2);
  }

  lemma LinksWrite(tree: Tree)
    requires KidsWritten(tree) && (tree.rule == 34 || tree.rule == 35)
    ensures Written(R1At(tree.rule), Yield(tree), tree)
  {
    hide R1At, LengthAt, SymbolAt, WritesTree, WritesSeparator, WritesBlock, WritesChain, WritesContents;
    RuleSpells(tree.rule);
    var n := if tree.rule == 34 then 1 else 5;
    NodeTokens(tree, n);
    LastYield(tree.kids, n);
    KidWritten(tree, n);
  }

  /** Every action builds what the tokens of its rule write. */
  lemma ActionWrites(tree: Tree)
    requires tree.Node? && KidsWritten(tree) && 14 <= tree.rule < 38
    requires tree.rule == 18 ==> Kid(tree, 3).Node? && Kid(tree, 3).rule == 23 && ListOf(Kid(tree, 3)).next.Element?
    ensures Written(R1At(tree.rule), Yield(tree), tree)
  {
    hide R1At, KidsWritten, Written, ListOf;
    match tree.rule
    case 18 | 19 => BlockWrites(tree);
    case 20 | 21 => BlockTypeWrites(tree);
    case 22 => LastWrites(tree);
    case 23 => ElementWrites(tree);
    case 24 | 37 => EmptyWrites(tree);
    case 27 => RowWrites(tree);
    case 28 | 30 => SeparatorWrites(tree);
    case 29 => SizedSeparatorWrites(tree);
    case 31 => TextWrites(tree);
    case 32 => LinkedWrites(tree);
    case 33 => LabelWrites(tree);
    case 34 | 35 => LinksWrite(tree);
    case _ => UnitWrites(tree);
  }

  lemma {:induction false} PermittedAt(r: int, k: nat, kids: seq<Tree>, i: nat)
    requires AllPermitted(LOOKAHEAD, r, k, kids) && i < |kids|
    ensures Permitted(LOOKAHEAD, kids[i]) && (kids[i].Node? ==> !Barred(LOOKAHEAD, r, k + i, kids[i].rule))
    decreases i
  {
    hide Permitted, Barred;
    if i > 0 {
      PermittedAt(r, k + 1, kids[1..], i - 1);
    }
  }

  lemma PermittedKids(tree: Tree)
    requires tree.Node? && Permitted(LOOKAHEAD, tree)
    ensures AllPermitted(LOOKAHEAD, tree.rule, 0, tree.kids)
  {
  }

  lemma LoneGroupBarred(q: int)
    requires Barred(LOOKAHEAD, 18, 3, q) == false
    ensures q != 22
  {
  }

  /** The tokens of every parse tree write the value that the actions build for it. */
  lemma {:induction false} TreeWritten(tree: Tree)
    requires Derivation(TABLES, tree) && Proper(TABLES, tree) && Permitted(LOOKAHEAD, tree)
    requires tree.Node? && 14 <= tree.rule
    ensures Written(Root(TABLES, tree), Yield(tree), tree)
    decreases tree
  {
    hide R1At, LengthAt, SymbolAt, Written, Derivation, Proper, Permitted, Barred, ListOf;
    NodeRule(tree);
    NodeParts(tree);
    KidRoots(tree);
    PermittedKids(tree);
    KidsAreWritten(tree.kids, tree.rule, 0);
    forall i | 0 <= i < |tree.kids|
      ensures IsToken(SymbolAt(tree.rule, i)) ==>
                tree.kids[i].Leaf? && tree.kids[i].token.kind == SymbolAt(tree.rule, i)
      ensures !IsToken(SymbolAt(tree.rule, i)) ==>
                Written(SymbolAt(tree.rule, i), Yield(tree.kids[i]), tree.kids[i])
    {
      KidsProper(tree.kids, i);
      SymbolsTextual(tree.rule, i);
      if tree.kids[i].Node? {
        KidRule(tree.kids[i]);
      }
    }
    assert KidsWritten(tree);
    if tree.rule == 18 {
      BlocklistWritten(tree);
    }
    ActionWrites(tree);
  }

  lemma {:induction false} KidsAreWritten(kids: seq<Tree>, r: int, k: nat)
    requires Derivations(TABLES, kids) && AllProper(TABLES, kids) && AllPermitted(LOOKAHEAD, r, k, kids)
    ensures forall i | 0 <= i < |kids| && kids[i].Node? && 14 <= kids[i].rule ::
              Written(Root(TABLES, kids[i]), Yield(kids[i]), kids[i])
    decreases kids
  {
    hide Written, Derivation, Proper, Permitted, Barred, Root;
    if kids != [] {
      KidsAreWritten(kids[1..], r, k + 1);
      if kids[0].Node? && 14 <= kids[0].rule {
        TreeWritten(kids[0]);
      }
      assert forall i | 0 < i < |kids| :: kids[i] == kids[1..][i - 1];
    }
  }

  lemma BlocklistWritten(tree: Tree)
    requires tree.Node? && tree.rule == 18 && KidsWritten(tree) && AllPermitted(LOOKAHEAD, 18, 0, tree.kids)
    requires Derivation(TABLES, tree) && Derivations(TABLES, tree.kids) && AllProper(TABLES, tree.kids)
    ensures Kid(tree, 3).Node? && Kid(tree, 3).rule == 23 && ListOf(Kid(tree, 3)).next.Element?
  {
    hide R1At, LengthAt, SymbolAt, Derivation, Proper, Permitted, Barred, ListOf, WritesChain;
    RuleSpells(18);
    KidRoots(tree);
    KidsProper(tree.kids, 3);
    KidWritten(tree, 3);
    PermittedAt(18, 0, tree.kids, 3);
    BlocklistRules(tree.kids[3].rule);
    LoneGroupBarred(tree.kids[3].rule);
  }

  // ---- Output sections --------------------------------------------------------------------------------

  lemma TurnWrites(tokens: seq<Token>, rest: seq<Token>, kind: nat, more: seq<(nat, Anno)>)
    requires |tokens| == 2 && Starts(tokens, [22, 25]) && WritesCalls(rest, tokens[1].num, more)
    ensures WritesOutputs(tokens + rest, more) && WritesCalls(tokens + rest, kind, more)
  {
    assert (tokens + rest)[2..] == rest;
  }

  lemma CallWrites(tokens: seq<Token>, rest: seq<Token>, kind: nat, a: Anno, more: seq<(nat, Anno)>)
    requires WritesTree(tokens, a) && WritesCalls(rest, kind, more)
    ensures WritesCalls(tokens + rest, kind, [(kind, a)] + more)
  {
    hide WritesTree;
    var i, calls := |tokens|, [(kind, a)] + more;
    TreeHasTokens(tokens, a);
    assert (tokens + rest)[..i] == tokens && (tokens + rest)[i..] == rest && calls[1..] == more;
  }

  lemma OutputsTurn(tokens: seq<Token>, kind: nat, calls: seq<(nat, Anno)>)
    requires WritesOutputs(tokens, calls)
    ensures WritesCalls(tokens, kind, calls)
  {
  }

  lemma OutputKids(tree: Tree)
    requires Derivation(TABLES, tree) && Proper(TABLES, tree) && Permitted(LOOKAHEAD, tree) && tree.Node?
    requires Root(TABLES, tree) == OUTPUT || Root(TABLES, tree) == OUTPUTLIST
    ensures 10 <= tree.rule <= 13 && IsFull(tree) && |tree.kids| == (if tree.rule == 10 then 1 else 2)
    ensures Root(TABLES, tree) == R1At(tree.rule)
    ensures forall i | 0 <= i < |tree.kids| ::
      && Derivation(TABLES, tree.kids[i]) && Proper(TABLES, tree.kids[i]) && Permitted(LOOKAHEAD, tree.kids[i])
      && Root(TABLES, tree.kids[i]) == SymbolAt(tree.rule, i)
      && (IsToken(SymbolAt(tree.rule, i)) ==> tree.kids[i].Leaf?)
      && (26 <= SymbolAt(tree.rule, i) < 47 ==> tree.kids[i].Node?)
  {
    hide R1At, LengthAt, SymbolAt, Derivation, Proper, Permitted, Barred;
    NodeRule(tree);
    NodeParts(tree);
    KidRoots(tree);
    OutputSymbols(tree.rule);
    PermittedKids(tree);
    forall i | 0 <= i < |tree.kids|
      ensures Derivation(TABLES, tree.kids[i]) && Proper(TABLES, tree.kids[i]) && Permitted(LOOKAHEAD, tree.kids[i])
      ensures IsToken(SymbolAt(tree.rule, i)) ==> tree.kids[i].Leaf?
      ensures 26 <= SymbolAt(tree.rule, i) < 47 ==> tree.kids[i].Node?
    {
      KidsProper(tree.kids, i);
      PermittedAt(tree.rule, 0, tree.kids, i);
    }
  }

  /** An output and what follows it: the calls are made in the type that its first two tokens turn to. */
  lemma {:induction false} OutputWritten(tree: Tree, rest: seq<Token>, more: seq<(nat, Anno)>)
    requires Derivation(TABLES, tree) && Proper(TABLES, tree) && Permitted(LOOKAHEAD, tree) && tree.Node?
    requires Root(TABLES, tree) == OUTPUT && WritesCalls(rest, TypeOf(tree), more)
    ensures WritesOutputs(Yield(tree) + rest, CallsOf(tree) + more)
    decreases tree
  {
    hide R1At, LengthAt, SymbolAt, Derivation, Proper, Permitted, Barred, TreeOf;
    hide WritesTree, WritesCalls, WritesOutputs;
    OutputKids(tree);
    OutputSymbols(tree.rule);
    var kids := tree.kids;
    assert kids[0..] == kids;
    LastYield(kids, 0);
    if tree.rule == 12 {
      TurnTokens(kids[0], kids[1]);
      TurnWrites(Yield(tree), rest, 0, more);
      assert CallsOf(tree) + more == more;
    } else {
      OutputTree(kids[1]);
      var call := (TypeOf(kids[0]), TreeOf(kids[1]));
      CallWrites(Yield(kids[1]), rest, TypeOf(kids[0]), TreeOf(kids[1]), more);
      OutputWritten(kids[0], Yield(kids[1]) + rest, [call] + more);
      assert Yield(tree) + rest == Yield(kids[0]) + (Yield(kids[1]) + rest);
      assert CallsOf(tree) + more == CallsOf(kids[0]) + ([call] + more);
    }
  }

  lemma TurnTokens(a: Tree, b: Tree)
    requires a.Leaf? && b.Leaf? && Root(TABLES, a) == 22 && Root(TABLES, b) == 25
    ensures var tokens := Yield(a) + Yield(b);
      |tokens| == 2 && Starts(tokens, [22, 25]) && tokens[1].num == NumOf(b)
  {
  }

  lemma OutputTree(tree: Tree)
    requires Derivation(TABLES, tree) && Proper(TABLES, tree) && Permitted(LOOKAHEAD, tree)
    requires tree.Node? && Root(TABLES, tree) == 35
    ensures WritesTree(Yield(tree), TreeOf(tree))
  {
    hide R1At, Derivation, Proper, Permitted, WritesTree, TreeOf;
    KidRule(tree);
    TreeWritten(tree);
  }

  /** The calls of an output section are those that its tokens write: each tree once, in order, and
      in the type last turned to. */
  lemma {:induction false} OutputsWritten(tree: Tree)
    requires Derivation(TABLES, tree) && Proper(TABLES, tree) && Permitted(LOOKAHEAD, tree) && tree.Node?
    requires Root(TABLES, tree) == OUTPUTLIST
    ensures WritesOutputs(Yield(tree), CallsOf(tree))
    decreases tree
  {
    hide R1At, LengthAt, SymbolAt, Derivation, Proper, Permitted, Barred, TypeOf, WritesCalls, WritesOutputs;
    OutputKids(tree);
    OutputSymbols(tree.rule);
    var kids := tree.kids;
    assert kids[0..] == kids;
    LastYield(kids, 0);
    if tree.rule == 10 {
      NoCallsWritten(TypeOf(kids[0]));
      OutputWritten(kids[0], [], []);
      assert Yield(tree) + [] == Yield(tree) && CallsOf(tree) + [] == CallsOf(tree);
      assert Yield(kids[0]) + [] == Yield(tree) && CallsOf(kids[0]) + [] == CallsOf(tree);
    } else {
      OutputsWritten(kids[1]);
      OutputsTurn(Yield(kids[1]), TypeOf(kids[0]), CallsOf(kids[1]));
      OutputWritten(kids[0], Yield(kids[1]), CallsOf(kids[1]));
    }
  }

  lemma NoCallsWritten(kind: nat)
    ensures WritesCalls([], kind, [])
  {
  }
}
