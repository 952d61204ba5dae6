/** The annotation parser as a whole: what every accepted file means. */
module AnnoParser {
  import opened LrTables
  import opened LrTrees
  import opened LrEngine
  import opened LrSoundness
  import opened LrCompleteness
  import opened AnnoTables
  import opened AnnoLookahead
  import opened AnnoTrees
  import opened AnnoSpelling

  // ---- Block shape ----------------------------------------------------------------------------------

  /** Every TREE_LIST has at least two elements, and exactly its last one is SEP_NEVER. */
  predicate ShapeOk(a: Anno)
    decreases a
  {
    match a
    case Text(_, _) => true
    case Concat(left, right) => ShapeOk(left) && ShapeOk(right)
    case Label(_, body) => ShapeOk(body)
    case Link(_, _, body) => ShapeOk(body)
    case Block(_, _, chain) => chain.Element? && chain.next.Element? && ChainOk(chain)
  }

  predicate ChainOk(chain: Chain)
    decreases chain
  {
    && chain.Element?
    && ShapeOk(chain.contents)
    && (chain.separator.tag.SepNever? <==> chain.next.Null?)
    && (chain.next.Element? ==> ChainOk(chain.next))
  }

  /** The state after an opening brace does not want a blocklist of one group: a lone group
      before the closing brace is rule 19. */
  lemma AfterBrace(q: int, brace: Tree)
    requires Built(TABLES, CERT, q, brace) && brace.Leaf? && brace.token.kind == 13
    requires IsState(TABLES, Move(TABLES, q, brace))
    ensures !Item(CERT, Move(TABLES, q, brace), 22, 0)
  {
    hide ActionAt, ErrorActionAt, Below, EntryAt, ItemAt, Item, IsState, Lookup, ErrorLookup;
    var n := Move(TABLES, q, brace);
    StatesAre(q);
    StatesAre(13);
    StatesAre(n);
    LookupIs(q, 13);
    ActionsFit(q, 13);
    OneBraceState(n);
    ItemIs(n, 22, 0);
  }

  lemma OneBraceState(n: int)
    requires 0 <= n < 78 && EntryAt(n) == 13
    ensures n == 54 && ItemAt(n, 22, 0) == false
  {
  }

  /** The state below child `i`, and what is known of the child there. */
  lemma {:induction false} KidBuilt(p: int, trees: seq<Tree>, i: nat) returns (q: int)
    requires BuiltAll(TABLES, CERT, p, trees) && i < |trees|
    decreases i
    ensures Built(TABLES, CERT, q, trees[i])
    ensures i + 1 < |trees| ==> Built(TABLES, CERT, Move(TABLES, q, trees[i]), trees[i + 1])
  {
    hide Built, Move;
    if i == 0 {
      q := p;
      assert |trees| > 1 ==> trees[1..][0] == trees[1];
    } else {
      q := KidBuilt(Move(TABLES, p, trees[0]), trees[1..], i - 1);
    }
  }

  /** The blocklist of a braced block starts with a group and a separator. */
  lemma BlocklistLong(p: int, tree: Tree)
    requires Built(TABLES, CERT, p, tree) && tree.Node? && tree.rule == 18 && Clean(tree)
    ensures |tree.kids| == 5 && tree.kids[3].Node? && tree.kids[3].rule == 23
  {
    hide SymbolAt, LengthAt, R1At, ItemAt, Item, Move;
    BuiltIsDerivation(TABLES, CERT, p, tree);
    BuiltIsProper(TABLES, CERT, p, tree);
    KidRoots(tree);
    ProperLeaves(tree.kids);
    Rule18();
    var q := KidBuilt(p, tree.kids, 2);
    AfterBrace(q, tree.kids[2]);
    RulesAre(tree.kids[3].rule);
    BlocklistRules(tree.kids[3].rule);
  }

  lemma Rule18()
    ensures LengthAt(18) == 5 && SymbolAt(18, 2) == 13 && SymbolAt(18, 3) == BLOCKLIST
  {
  }

  /** Where the children of a node stand in its rule: which are trees, which are lists. */
  lemma ShapeSymbols(r: int)
    requires 14 <= r < 38
    ensures r == 18 ==> LengthAt(r) == 5 && SymbolAt(r, 3) == BLOCKLIST
    ensures r == 19 ==> LengthAt(r) == 5 && IsTreeSymbol(SymbolAt(r, 3))
    ensures r == 22 ==> LengthAt(r) == 1 && IsTreeSymbol(SymbolAt(r, 0))
    ensures r == 23 ==> LengthAt(r) == 3 && IsTreeSymbol(SymbolAt(r, 0))
    ensures r == 23 ==> SymbolAt(r, 1) == SEPARATOR && SymbolAt(r, 2) == BLOCKLIST
    ensures r == 27 ==> LengthAt(r) == 2 && IsTreeSymbol(SymbolAt(r, 0)) && IsTreeSymbol(SymbolAt(r, 1))
    ensures r == 32 || r == 33 ==> LengthAt(r) == 3 && IsTreeSymbol(SymbolAt(r, 2))
    ensures r == 34 ==> LengthAt(r) == 2 && IsTreeSymbol(SymbolAt(r, 1))
    ensures r == 35 ==> LengthAt(r) == 6 && IsTreeSymbol(SymbolAt(r, 5))
    ensures r == 31 ==> LengthAt(r) == 2
    ensures r == 37 ==> LengthAt(r) == 1
    ensures r == 24 ==> LengthAt(r) == 0
    ensures IsTreeSymbol(R1At(r)) && IsSimple(r) && r != 31 && r != 37 && r != 24 ==>
              LengthAt(r) == 1 && IsTreeSymbol(SymbolAt(r, 0))
  {
  }

  /** A chain of elements; one built by rule 23 has at least two. */
  predicate ListShaped(tree: Tree) {
    && ChainOk(ListOf(tree))
    && (tree.Node? && tree.rule == 23 ==> ListOf(tree).next.Element?)
  }

  /** The tree a child contributes is well shaped, given its symbol. */
  ghost predicate KidShaped(tree: Tree, x: int) {
    && (IsTreeSymbol(x) ==> ShapeOk(TreeOf(tree)))
    && (x == BLOCKLIST ==> ListShaped(tree))
    && (x == SEPARATOR ==> tree.Node? && 28 <= tree.rule <= 30)
  }

  /** Each action builds a well-shaped tree from well-shaped ones. */
  lemma ActionKeepsShape(tree: Tree)
    requires tree.Node? && IsFull(tree) && 14 <= tree.rule < 38
    requires IsTreeSymbol(R1At(tree.rule)) || R1At(tree.rule) == BLOCKLIST
    requires forall i | 0 <= i < |tree.kids| :: KidShaped(tree.kids[i], SymbolAt(tree.rule, i))
    requires tree.rule == 18 ==> |tree.kids| == 5 && tree.kids[3].Node? && tree.kids[3].rule == 23
    ensures IsTreeSymbol(R1At(tree.rule)) ==> ShapeOk(TreeOf(tree))
    ensures R1At(tree.rule) == BLOCKLIST ==> ListShaped(tree)
  {
    hide LengthAt, SymbolAt, R1At;
    var r, kids := tree.rule, tree.kids;
    ShapeSymbols(r);
    BlocklistRules(r);
    forall i | 0 <= i < |kids| ensures KidShaped(kids[i], SymbolAt(r, i)) {
    }
    if |kids| > 0 { assert KidShaped(kids[0], SymbolAt(r, 0)); }
    if |kids| > 1 { assert KidShaped(kids[1], SymbolAt(r, 1)); }
    if |kids| > 2 { assert KidShaped(kids[2], SymbolAt(r, 2)); }
    if |kids| > 3 { assert KidShaped(kids[3], SymbolAt(r, 3)); }
    if |kids| > 5 { assert KidShaped(kids[5], SymbolAt(r, 5)); }
  }

  /** With the actual tables, every TREE_LIST ever built has at least two elements, a chain that
      ends, and SEP_NEVER in exactly its last element. */
  lemma {:induction false} TreesShaped(p: int, tree: Tree)
    requires Built(TABLES, CERT, p, tree) && Clean(tree)
    ensures KidShaped(tree, Root(TABLES, tree))
    decreases tree
  {
    hide LengthAt, SymbolAt, R1At, TreeOf, ListOf, Move, Item, ItemAt;
    BuiltIsDerivation(TABLES, CERT, p, tree);
    BuiltIsProper(TABLES, CERT, p, tree);
    if tree.Node? {
      KidRoots(tree);
      BlocklistRules(tree.rule);
      if IsTreeSymbol(R1At(tree.rule)) || R1At(tree.rule) == BLOCKLIST {
        AllTreesShaped(p, tree.kids);
        if tree.rule == 18 {
          BlocklistLong(p, tree);
        }
        ActionKeepsShape(tree);
      }
    } else if tree.Leaf? {
      StatesAre(tree.token.kind);
    }
  }

  lemma {:induction false} AllTreesShaped(p: int, trees: seq<Tree>)
    requires BuiltAll(TABLES, CERT, p, trees) && AllClean(trees)
    ensures forall i | 0 <= i < |trees| :: KidShaped(trees[i], Root(TABLES, trees[i]))
    decreases trees
  {
    hide KidShaped;
    if trees != [] {
      TreesShaped(p, trees[0]);
      AllTreesShaped(Move(TABLES, p, trees[0]), trees[1..]);
      assert forall i | 1 <= i < |trees| :: trees[i] == trees[1..][i - 1];
    }
  }

  // ---- The whole file -----------------------------------------------------------------------------

  function CallTexts(calls: seq<(nat, Anno)>): seq<string> {
    if calls == [] then [] else Texts(calls[0].1) + CallTexts(calls[1..])
  }

  lemma {:induction false} CallTextsConcat(a: seq<(nat, Anno)>, b: seq<(nat, Anno)>)
    ensures CallTexts(a + b) == CallTexts(a) + CallTexts(b)
  {
    hide Texts;
    if a == [] {
      assert a + b == b;
    } else {
      CallTextsConcat(a[1..], b);
      assert (a + b)[1..] == a[1..] + b;
      assert CallTexts(a + b) == Texts(a[0].1) + (CallTexts(a[1..]) + CallTexts(b));
    }
  }

  lemma NextYield(kids: seq<Tree>, i: nat)
    requires i < |kids|
    ensures StringTokens(Yields(kids[i..])) == StringTokens(Yield(kids[i])) + StringTokens(Yields(kids[i + 1..]))
    ensures i + 1 == |kids| ==> StringTokens(Yields(kids[i..])) == StringTokens(Yield(kids[i]))
  {
    assert kids[i..][1..] == kids[i + 1..];
    StringTokensConcat(Yield(kids[i]), Yields(kids[i + 1..]));
  }

  lemma TwoYields(kids: seq<Tree>)
    requires 1 <= |kids| <= 2
    ensures StringTokens(Yields(kids)) ==
            StringTokens(Yield(kids[0])) + (if |kids| == 2 then StringTokens(Yield(kids[1])) else [])
  {
    hide StringTokens, Yields;
    assert kids[0..] == kids;
    NextYield(kids, 0);
    if |kids| == 2 {
      NextYield(kids, 1);
    }
  }

  lemma TokenSilent(tree: Tree)
    requires tree.Leaf? && tree.token.kind != STRING
    ensures StringTokens(Yield(tree)) == []
  {
    assert [tree.token][1..] == [];
  }

  /** What AddAnnoTree is given for an output section: all its text, in order. */
  lemma {:induction false} CallsKeepText(tree: Tree)
    requires Derivation(TABLES, tree) && Proper(TABLES, tree) && tree.Node?
    requires Root(TABLES, tree) == OUTPUT || Root(TABLES, tree) == OUTPUTLIST
    ensures CallTexts(CallsOf(tree)) == StringTokens(Yield(tree))
    decreases tree
  {
    hide LengthAt, SymbolAt, R1At, StringTokens, TypeOf, TreeOf, Texts, CallTexts, TokensAreLeaves;
    var r, kids := tree.rule, tree.kids;
    KidRoots(tree);
    OutputSymbols(r);
    TwoYields(kids);
    KidsProper(kids, 0);
    if r == 10 {
      CallsKeepText(kids[0]);
    } else {
      KidsProper(kids, 1);
      if r == 11 {
        CallsKeepText(kids[0]);
        CallsKeepText(kids[1]);
        CallTextsConcat(CallsOf(kids[0]), CallsOf(kids[1]));
      } else if r == 12 {
        TokenSilent(kids[0]);
        TokenSilent(kids[1]);
        NoCalls();
      } else {
        CallsKeepText(kids[0]);
        OutputSymbols(kids[1].rule);
        TextConserved(kids[1]);
        var calls := [(TypeOf(kids[0]), TreeOf(kids[1]))];
        CallTextsConcat(CallsOf(kids[0]), calls);
        OneCall(TypeOf(kids[0]), TreeOf(kids[1]));
      }
    }
  }

  lemma NoCalls()
    ensures CallTexts([]) == []
  {
  }

  lemma OneCall(kind: nat, a: Anno)
    ensures CallTexts([(kind, a)]) == Texts(a)
  {
    assert [(kind, a)][1..] == [];
  }

  /** The calls of AddAnnoTree that parsing a file makes, in order. */
  function FileCalls(file: Tree): seq<(nat, Anno)> {
    CallsOf(Kid(Kid(file, 3), 2))
  }

  /** A file is an introduction, an attribute section and an output section. What it adds to the
      browser are the trees that its output section writes, each in the type that the section has
      turned to; their text is all the text of the section, and their blocks are of proper shape. */
  ghost predicate FileOk(t: Tables, input: seq<Token>, file: Tree) {
    && file.Node? && |file.kids| == 4
    && input == Yield(file.kids[0]) + Yield(file.kids[1]) + Yield(file.kids[2]) + Yield(file.kids[3])
    && WritesSection(Yield(file.kids[3]), FileCalls(file))
    && CallTexts(FileCalls(file)) == StringTokens(Yield(file.kids[3]))
    && CallsShaped(FileCalls(file))
  }

  ghost predicate CallsShaped(calls: seq<(nat, Anno)>) {
    forall i | 0 <= i < |calls| :: ShapeOk(calls[i].1)
  }

  lemma {:induction false} CallsOfShaped(p: int, tree: Tree)
    requires Built(TABLES, CERT, p, tree) && Clean(tree)
    ensures CallsShaped(CallsOf(tree))
    decreases tree
  {
    hide LengthAt, SymbolAt, R1At, TypeOf, TreeOf, ShapeOk, Move, Item;
    if IsFull(tree) && (tree.rule == 10 || tree.rule == 11 || tree.rule == 13) {
      BuiltIsDerivation(TABLES, CERT, p, tree);
      KidRoots(tree);
      OutputSymbols(tree.rule);
      var q := KidBuilt(p, tree.kids, 0);
      CleanKid(tree.kids, 0);
      CallsOfShaped(q, tree.kids[0]);
      if tree.rule != 10 {
        var q' := KidBuilt(p, tree.kids, 1);
        CleanKid(tree.kids, 1);
        CallsOfShaped(q', tree.kids[1]);
        TreesShaped(q', tree.kids[1]);
      }
    }
  }

  lemma {:induction false} CleanKid(trees: seq<Tree>, i: nat)
    requires AllClean(trees) && i < |trees|
    ensures Clean(trees[i])
  {
    if i > 0 {
      CleanKid(trees[1..], i - 1);
    }
  }

  lemma FileStart(tree: Tree)
    requires Derivation(TABLES, tree) && Proper(TABLES, tree) && Root(TABLES, tree) == Start(TABLES)
    ensures tree.Node? && tree.rule == 2 && |tree.kids| == 4
    ensures AllProper(TABLES, tree.kids) && Derivations(TABLES, tree.kids) && Root(TABLES, tree.kids[3]) == 32
  {
    hide LengthAt, R1At;
    StartIs();
    StatesAre(26);
    NodeRule(tree);
    assert tree.Leaf? ==> IsKind(TABLES, 26);
    OutputSymbols(tree.rule);
    KidRoots(tree);
  }

  lemma StartIs()
    ensures Start(TABLES) == 26
  {
  }

  lemma OutputSection(tree: Tree)
    requires Derivation(TABLES, tree) && Proper(TABLES, tree) && Root(TABLES, tree) == 32 && tree.Node?
    requires Permitted(LOOKAHEAD, tree)
    ensures CallTexts(CallsOf(Kid(tree, 2))) == StringTokens(Yield(tree))
    ensures WritesSection(Yield(tree), CallsOf(Kid(tree, 2)))
  {
    hide LengthAt, SymbolAt, R1At, StringTokens, CallsOf, CallTexts, Yields, Derivation, Proper, Permitted, Barred;
    hide WritesOutputs;
    NodeRule(tree);
    OutputSymbols(tree.rule);
    KidRoots(tree);
    NodeParts(tree);
    var kids := tree.kids;
    KidsProper(kids, 0);
    KidsProper(kids, 1);
    KidsProper(kids, 2);
    assert kids[0..] == kids;
    NextYield(kids, 0);
    NextYield(kids, 1);
    NextYield(kids, 2);
    TokenSilent(kids[0]);
    TokenSilent(kids[1]);
    CallsKeepText(kids[2]);
    NodeYield(tree);
    PermittedKids(tree);
    PermittedAt(tree.rule, 0, kids, 2);
    OutputsWritten(kids[2]);
    SectionHead(kids);
  }

  lemma SectionHead(kids: seq<Tree>)
    requires |kids| == 3 && kids[0].Leaf? && kids[1].Leaf?
    requires Root(TABLES, kids[0]) == 6 && Root(TABLES, kids[1]) == 23
    ensures |Yields(kids)| >= 2 && Starts(Yields(kids), [6, 23]) && Yields(kids)[2..] == Yield(kids[2])
  {
    FrontTokens(kids, 2);
    LastYield(kids, 2);
  }

  lemma NodeYield(tree: Tree)
    requires tree.Node?
    ensures Yield(tree) == Yields(tree.kids)
    ensures |tree.kids| == 4 ==>
              Yield(tree) == Yield(tree.kids[0]) + Yield(tree.kids[1]) + Yield(tree.kids[2]) + Yield(tree.kids[3])
  {
    if |tree.kids| == 4 {
      var k := tree.kids;
      assert Yields(k[3..]) == Yield(k[3]) + Yields(k[4..]) == Yield(k[3]);
      assert k[2..][1..] == k[3..] && k[1..][1..] == k[2..];
      assert Yields(k[2..]) == Yield(k[2]) + Yield(k[3]);
      assert Yields(k[1..]) == Yield(k[1]) + (Yield(k[2]) + Yield(k[3]));
    }
  }

  lemma NoErrorState(s: int)
    requires IsState(TABLES, s)
    ensures ErrorLookup(TABLES, s).Error?
  {
    hide ItemAt, Below, ActionAt, Lookup, ErrorLookup;
    StatesAre(s);
    LookupIs(s, 0);
    NoErrorAction(s);
  }

  lemma NoErrorAction(s: int)
    requires 0 <= s < 78
    ensures ErrorActionAt(s) == 0
  {
  }

  /** Whole runs of the annotation parser: an accepted input is a file as above. */
  lemma {:induction false} AcceptedFile(input: seq<Token>, n: nat)
    requires InputOk(TABLES, input) && Run(TABLES, input, n).status.Accepted?
    ensures |Run(TABLES, input, n).trees| == 2
    ensures FileOk(TABLES, input, Run(TABLES, input, n).trees[0])
  {
    hide Run, Built, Derivation, Proper, CallsOf, CallTexts, Yield, Clean, FileCalls, CallsShaped, WritesSection,
        LrTables.Valid, InputOk, R1At;
    TablesValid();
    AcceptSound(TABLES, CERT, input, n);
    forall s | IsState(TABLES, s) ensures ErrorLookup(TABLES, s).Error? {
      NoErrorState(s);
    }
    NoRecovery(TABLES, CERT, input, n);
    RunCounts(input, n);
    var file := Run(TABLES, input, n).trees[0];
    FileIsOk(input, file);
  }

  lemma RunCounts(input: seq<Token>, n: nat)
    requires InputOk(TABLES, input)
    ensures var c := Run(TABLES, input, n); c.errors == 0 <==> c.nerrs == 0
  {
    hide Run, LrTables.Valid, InputOk, StackOk, FlowOk;
    TablesValid();
    RunSound(TABLES, CERT, input, n);
  }

  lemma FileIsOk(input: seq<Token>, file: Tree)
    requires Built(TABLES, CERT, 0, file) && Clean(file) && Root(TABLES, file) == Start(TABLES)
    requires Yield(file) == input
    ensures FileOk(TABLES, input, file)
  {
    hide R1At, LengthAt, SymbolAt, CallsOf, CallTexts, StringTokens, Move, Item, ItemAt, Complete, Permitted, Barred;
    hide WritesSection;
    BuiltIsProper(TABLES, CERT, 0, file);
    BuiltIsDerivation(TABLES, CERT, 0, file);
    TablesComplete();
    BuiltIsPermitted(TABLES, CERT, LOOKAHEAD, 0, file);
    FileStart(file);
    KidsProper(file.kids, 3);
    PermittedKids(file);
    PermittedAt(file.rule, 0, file.kids, 3);
    OutputSection(file.kids[3]);
    NodeYield(file);
    OutputsShaped(file);
  }

  lemma OutputsShaped(file: Tree)
    requires Built(TABLES, CERT, 0, file) && Clean(file) && file.Node? && |file.kids| == 4
    requires file.kids[3].Node?
    ensures CallsShaped(FileCalls(file))
  {
    hide R1At, LengthAt, SymbolAt, CallsOf, Move, Item, ItemAt;
    var q := KidBuilt(0, file.kids, 3);
    CleanKid(file.kids, 3);
    var section := file.kids[3];
    if |section.kids| > 2 {
      var q' := KidBuilt(q, section.kids, 2);
      CleanKid(section.kids, 2);
      CallsOfShaped(q', section.kids[2]);
    } else {
      NoKidNoCalls();
    }
  }

  lemma NoKidNoCalls()
    ensures CallsOf(End) == []
  {
  }
}
