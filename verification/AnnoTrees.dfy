/** What the actions of the annotation grammar build, as a function of the parse tree. */
module AnnoTrees {
  import opened LrTables
  import opened LrTrees
  import opened LrSoundness
  import opened AnnoTables

  const STRING := 24
  const BLOCK_TYPE := 37
  const BLOCKLIST := 38
  const SEPARATOR := 41
  const OUTPUT := 34
  const OUTPUTLIST := 33

  /** The nonterminals whose semantic value is an AnnoTree: tree, block, group, realgroup, text,
      linked, target, linklist and contents. */
  predicate IsTreeSymbol(x: int) {
    x == 35 || x == 36 || x == 39 || x == 40 || 42 <= x <= 46
  }

  datatype SeparatorTag = SepBreak | SepNewline | SepNever

  /** SeparatorTag, Spaces and NextOffset. */
  datatype Separator = Separator(tag: SeparatorTag, spaces: nat, nextOffset: nat)

  /** What the last element of a block has. */
  const NEVER := Separator(SepNever, 0, 0)

  /** struct AnnoTree: TREE_STRING, TREE_CONCAT, TREE_LABEL, TREE_LINK and TREE_LIST; a list
      holds a chain of struct BlockElement. */
  datatype Anno =
    | Text(content: string, kind: nat)
    | Concat(left: Anno, right: Anno)
    | Label(id: nat, body: Anno)
    | Link(id: nat, kind: nat, body: Anno)
    | Block(consistent: bool, indentation: nat, chain: Chain)

  /** struct BlockElement and its `next` chain. */
  datatype Chain = Null | Element(contents: Anno, separator: Separator, next: Chain)

  // ---- The actions ------------------------------------------------------------------------------

  function Kid(tree: Tree, i: nat): Tree {
    if tree.Node? && i < |tree.kids| then tree.kids[i] else End
  }

  /** A node with as many children as its rule has symbols. */
  predicate IsFull(tree: Tree) {
    tree.Node? && |tree.kids| == LengthAt(tree.rule)
  }

  function NumOf(tree: Tree): nat {
    if tree.Leaf? then tree.token.num else 0
  }

  function TextOf(tree: Tree): string {
    if tree.Leaf? then tree.token.text else ""
  }

  /** alloctree: the empty text. */
  const EMPTY := Text("", 0)

  /** Actions 28-30. */
  function SeparatorOf(tree: Tree): Separator {
    if !tree.Node? then NEVER
    else if tree.rule == 28 then Separator(SepBreak, 1, 0)
    else if tree.rule == 29 then Separator(SepBreak, NumOf(Kid(tree, 2)), NumOf(Kid(tree, 4)))
    else Separator(SepNewline, 1, 0)
  }

  /** Actions 14-19, 24-27 and 31-37. */
  function TreeOf(tree: Tree): Anno
    decreases tree
  {
    if !IsFull(tree) || |tree.kids| == 0 then EMPTY
    else match tree.rule
      case 18 => Block(Kid(tree, 0).Node? && Kid(tree, 0).rule == 20, NumOf(Kid(tree, 1)), ListOf(Kid(tree, 3)))
      case 19 => TreeOf(Kid(tree, 3))
      case 27 => Concat(TreeOf(Kid(tree, 0)), TreeOf(Kid(tree, 1)))
      case 31 => Text(TextOf(Kid(tree, 0)), NumOf(Kid(tree, 1)))
      case 32 => TreeOf(Kid(tree, 2))
      case 33 => Label(NumOf(Kid(tree, 0)), TreeOf(Kid(tree, 2)))
      case 34 => TreeOf(Kid(tree, 1))
      case 35 => Link(NumOf(Kid(tree, 1)), NumOf(Kid(tree, 3)), TreeOf(Kid(tree, 5)))
      case 37 => EMPTY
      case _ => TreeOf(Kid(tree, 0))
  }

  /** Actions 22 and 23. */
  function ListOf(tree: Tree): Chain
    decreases tree
  {
    if !IsFull(tree) || (tree.rule != 22 && tree.rule != 23) then Null
    else if tree.rule == 22 then Element(TreeOf(Kid(tree, 0)), NEVER, Null)
    else Element(TreeOf(Kid(tree, 0)), SeparatorOf(Kid(tree, 1)), ListOf(Kid(tree, 2)))
  }

  /** Actions 12 and 13: the type that an output belongs to, and the calls of AddAnnoTree. */
  function TypeOf(tree: Tree): nat
    decreases tree
  {
    if !IsFull(tree) || |tree.kids| == 0 then 0
    else if tree.rule == 12 then NumOf(Kid(tree, 1))
    else TypeOf(Kid(tree, 0))
  }

  function CallsOf(tree: Tree): seq<(nat, Anno)>
    decreases tree
  {
    if !IsFull(tree) then []
    else match tree.rule
      case 10 => CallsOf(Kid(tree, 0))
      case 11 => CallsOf(Kid(tree, 0)) + CallsOf(Kid(tree, 1))
      case 13 => CallsOf(Kid(tree, 0)) + [(TypeOf(Kid(tree, 0)), TreeOf(Kid(tree, 1)))]
      case _ => []
  }

  // ---- Text ---------------------------------------------------------------------------------------

  function NonEmpty(s: string): seq<string> {
    if s == "" then [] else [s]
  }

  /** The texts that a tree displays, left to right; empty ones show nothing. */
  function Texts(a: Anno): seq<string>
    decreases a
  {
    match a
    case Text(content, _) => NonEmpty(content)
    case Concat(left, right) => Texts(left) + Texts(right)
    case Label(_, body) => Texts(body)
    case Link(_, _, body) => Texts(body)
    case Block(_, _, chain) => ChainTexts(chain)
  }

  function ChainTexts(chain: Chain): seq<string>
    decreases chain
  {
    match chain
    case Null => []
    case Element(contents, _, next) => Texts(contents) + ChainTexts(next)
  }

  function TokenText(token: Token): seq<string> {
    if token.kind == STRING then NonEmpty(token.text) else []
  }

  /** The contents of the STRING tokens of an input, left to right. */
  function StringTokens(input: seq<Token>): seq<string> {
    if input == [] then [] else TokenText(input[0]) + StringTokens(input[1..])
  }

  lemma {:induction false} StringTokensConcat(a: seq<Token>, b: seq<Token>)
    ensures StringTokens(a + b) == StringTokens(a) + StringTokens(b)
  {
    hide TokenText;
    if a == [] {
      assert a + b == b;
    } else {
      StringTokensConcat(a[1..], b);
      assert (a + b)[1..] == a[1..] + b;
      assert StringTokens(a + b) == TokenText(a[0]) + (StringTokens(a[1..]) + StringTokens(b));
    }
  }

  /** The text that a subtree contributes through its semantic value. */
  function Shown(t: Tables, tree: Tree): seq<string> {
    if tree.Leaf? then TokenText(tree.token)
    else if IsTreeSymbol(Root(t, tree)) then Texts(TreeOf(tree))
    else if Root(t, tree) == BLOCKLIST then ChainTexts(ListOf(tree))
    else []
  }

  function ShownAll(t: Tables, trees: seq<Tree>): seq<string> {
    if trees == [] then [] else Shown(t, trees[0]) + ShownAll(t, trees[1..])
  }

  /** The symbols below which every STRING token ends up in an AnnoTree. */
  predicate IsTextual(x: int) {
    IsTreeSymbol(x) || x == BLOCKLIST || x == SEPARATOR || x == BLOCK_TYPE
  }

  predicate IsToken(x: int) {
    1 < x < 26
  }

  lemma SymbolsTextual(r: int, i: int)
    requires 14 <= r < 38 && 0 <= i < LengthAt(r)
    ensures IsToken(SymbolAt(r, i)) || IsTextual(SymbolAt(r, i))
    ensures IsTextual(R1At(r))
  {
  }

  /** The symbols of a node's children, read off the rule table. */
  lemma KidRoots(tree: Tree)
    requires tree.Node? && Derivation(TABLES, tree)
    ensures 1 <= tree.rule < 38 && |tree.kids| == LengthAt(tree.rule)
    ensures Root(TABLES, tree) == R1At(tree.rule)
    ensures forall i | 0 <= i < |tree.kids| :: Root(TABLES, tree.kids[i]) == SymbolAt(tree.rule, i)
  {
    hide LengthAt, SymbolAt, R1At, IsRule;
    RulesAre(tree.rule);
    forall i | 0 <= i < |tree.kids| ensures Root(TABLES, tree.kids[i]) == SymbolAt(tree.rule, i) {
      SymbolsAre(tree.rule, i);
      assert Roots(TABLES, tree.kids)[i] == Root(TABLES, tree.kids[i]);
    }
  }

  lemma Unroll(trees: seq<Tree>, i: nat)
    requires i <= |trees|
    ensures ShownAll(TABLES, trees[i..]) == if i < |trees| then Shown(TABLES, trees[i]) + ShownAll(TABLES, trees[i + 1..]) else []
  {
  }

  /** Tokens are leaves and nonterminals are nodes. */
  ghost predicate TokensAreLeaves(t: Tables, trees: seq<Tree>) {
    forall i | 0 <= i < |trees| ::
      && (IsToken(Root(t, trees[i])) ==> trees[i].Leaf?)
      && (26 <= Root(t, trees[i]) < 47 ==> trees[i].Node?)
  }

  /** What the children of a node show, one by one. */
  lemma KidsShow(tree: Tree)
    requires tree.Node? && |tree.kids| <= 6
    ensures ShownAll(TABLES, tree.kids) ==
            ShownKid(TABLES, tree, 0) + (ShownKid(TABLES, tree, 1) + (ShownKid(TABLES, tree, 2) +
            (ShownKid(TABLES, tree, 3) + (ShownKid(TABLES, tree, 4) + ShownKid(TABLES, tree, 5)))))
  {
    hide ShownFrom, ShownKid, ShownAll;
    ShowNext(tree, 0);
    ShowNext(tree, 1);
    ShowNext(tree, 2);
    ShowNext(tree, 3);
    ShowNext(tree, 4);
    ShowNext(tree, 5);
    ShowEnds(tree);
  }

  function ShownFrom(t: Tables, tree: Tree, i: nat): seq<string> {
    if tree.Node? && i < |tree.kids| then ShownAll(t, tree.kids[i..]) else []
  }

  lemma ShowNext(tree: Tree, i: nat)
    ensures ShownFrom(TABLES, tree, i) == ShownKid(TABLES, tree, i) + ShownFrom(TABLES, tree, i + 1)
  {
    if tree.Node? && i < |tree.kids| {
      Unroll(tree.kids, i);
      if i + 1 == |tree.kids| {
        Unroll(tree.kids, i + 1);
      }
    }
  }

  lemma ShowEnds(tree: Tree)
    requires tree.Node? && |tree.kids| <= 6
    ensures ShownAll(TABLES, tree.kids) == ShownFrom(TABLES, tree, 0)
    ensures ShownKid(TABLES, tree, 5) + ShownFrom(TABLES, tree, 6) == ShownKid(TABLES, tree, 5)
  {
    assert tree.kids[0..] == tree.kids;
  }

  function ShownKid(t: Tables, tree: Tree, i: nat): seq<string> {
    if tree.Node? && i < |tree.kids| then Shown(t, tree.kids[i]) else []
  }

  /** What child `i` shows, given that it stands for symbol `x`. */
  ghost predicate KidFits(t: Tables, tree: Tree, i: nat, x: int) {
    && (x == STRING ==> ShownKid(t, tree, i) == NonEmpty(TextOf(Kid(tree, i))))
    && ((IsToken(x) && x != STRING) || x == SEPARATOR || x == BLOCK_TYPE ==> ShownKid(t, tree, i) == [])
    && (IsTreeSymbol(x) ==> ShownKid(t, tree, i) == Texts(TreeOf(Kid(tree, i))))
    && (x == BLOCKLIST ==> ShownKid(t, tree, i) == ChainTexts(ListOf(Kid(tree, i))))
  }

  lemma KidsFit(tree: Tree)
    requires tree.Node? && Derivation(TABLES, tree) && TokensAreLeaves(TABLES, tree.kids)
    ensures IsFull(tree) && Root(TABLES, tree) == R1At(tree.rule)
    ensures forall i: nat | i < LengthAt(tree.rule) :: KidFits(TABLES, tree, i, SymbolAt(tree.rule, i))
    ensures forall i: nat | i >= LengthAt(tree.rule) :: ShownKid(TABLES, tree, i) == []
  {
    hide SymbolAt, LengthAt, R1At, Derivation, TreeOf, ListOf, Texts, ChainTexts, NonEmpty;
    KidRoots(tree);
    forall i: nat | i < LengthAt(tree.rule) ensures KidFits(TABLES, tree, i, SymbolAt(tree.rule, i)) {
      assert Root(TABLES, tree.kids[i]) == SymbolAt(tree.rule, i);
    }
  }

  /** The facts that the actions' cases rest on. */
  ghost predicate Prepared(t: Tables, tree: Tree) {
    && IsFull(tree) && Root(t, tree) == R1At(tree.rule)
    && (forall i: nat | i < LengthAt(tree.rule) :: KidFits(t, tree, i, SymbolAt(tree.rule, i)))
    && (forall i: nat | i >= LengthAt(tree.rule) :: ShownKid(t, tree, i) == [])
  }

  /** Which children the value of a node shows: actions that build a tree around one child, */
  lemma WrapperShows(t: Tables, tree: Tree)
    requires Prepared(t, tree)
    ensures tree.rule == 18 || tree.rule == 19 ==> Shown(t, tree) == ShownKid(t, tree, 3)
    ensures tree.rule == 32 || tree.rule == 33 ==> Shown(t, tree) == ShownKid(t, tree, 2)
    ensures tree.rule == 34 ==> Shown(t, tree) == ShownKid(t, tree, 1)
    ensures tree.rule == 35 ==> Shown(t, tree) == ShownKid(t, tree, 5)
  {
    hide ShownKid, Root;
    var r := tree.rule;
    if r == 18 || r == 19 { assert KidFits(t, tree, 3, SymbolAt(r, 3)); }
    if r == 32 || r == 33 { assert KidFits(t, tree, 2, SymbolAt(r, 2)); }
    if r == 34 { assert KidFits(t, tree, 1, SymbolAt(r, 1)); }
    if r == 35 { assert KidFits(t, tree, 5, SymbolAt(r, 5)); }
  }

  /** actions that join two, */
  lemma JoinShows(t: Tables, tree: Tree)
    requires Prepared(t, tree)
    ensures tree.rule == 23 ==> Shown(t, tree) == ShownKid(t, tree, 0) + ShownKid(t, tree, 2)
    ensures tree.rule == 27 ==> Shown(t, tree) == ShownKid(t, tree, 0) + ShownKid(t, tree, 1)
  {
    hide ShownKid, Root;
    var r := tree.rule;
    if r == 23 || r == 27 {
      assert KidFits(t, tree, 0, SymbolAt(r, 0));
      assert KidFits(t, tree, 1, SymbolAt(r, 1));
    }
    if r == 23 { assert KidFits(t, tree, 2, SymbolAt(r, 2)); }
  }

  predicate IsSimple(r: int) {
    14 <= r < 38 && r != 18 && r != 19 && r != 23 && r != 27 && !(32 <= r <= 35)
  }

  /** and all others, whose first child is all there is to show. */
  lemma SimpleShows(t: Tables, tree: Tree)
    requires Prepared(t, tree) && IsSimple(tree.rule)
    ensures Shown(t, tree) == ShownKid(t, tree, 0)
  {
    hide ShownKid, Root, ListOf, ChainTexts;
    var r := tree.rule;
    if r == 22 {
      LastShows(t, tree);
    } else if r != 24 {
      assert KidFits(t, tree, 0, SymbolAt(r, 0));
    }
  }

  lemma LastShows(t: Tables, tree: Tree)
    requires Prepared(t, tree) && tree.rule == 22
    ensures Shown(t, tree) == ShownKid(t, tree, 0)
  {
    hide ShownKid, Root, TreeOf, Texts;
    assert KidFits(t, tree, 0, SymbolAt(22, 0));
    Squeeze(Texts(TreeOf(Kid(tree, 0))));
    assert ChainTexts(Null) == [];
    assert ChainTexts(ListOf(tree)) == Texts(TreeOf(Kid(tree, 0))) + ChainTexts(Null);
  }

  /** The children that a value leaves out show nothing. */
  lemma OthersSilent(t: Tables, tree: Tree, i: nat)
    requires Prepared(t, tree) && 14 <= tree.rule < 38
    requires i < LengthAt(tree.rule) ==>
               var x := SymbolAt(tree.rule, i);
               (IsToken(x) && x != STRING) || x == SEPARATOR || x == BLOCK_TYPE
    ensures ShownKid(t, tree, i) == []
  {
    hide ShownKid, LengthAt, SymbolAt;
    if i < LengthAt(tree.rule) {
      assert KidFits(t, tree, i, SymbolAt(tree.rule, i));
    }
  }

  lemma Squeeze(a: seq<string>)
    ensures [] + a == a && a + [] == a
  {
  }

  /** All six children in a row, when all but some are silent. */
  lemma Shrink(k0: seq<string>, k1: seq<string>, k2: seq<string>, k3: seq<string>, k4: seq<string>, k5: seq<string>)
    ensures var all := k0 + (k1 + (k2 + (k3 + (k4 + k5))));
            && (k1 == k2 == k3 == k4 == k5 == [] ==> all == k0)
            && (k2 == k3 == k4 == k5 == [] ==> all == k0 + k1)
            && (k1 == k3 == k4 == k5 == [] ==> all == k0 + k2)
            && (k0 == k2 == k3 == k4 == k5 == [] ==> all == k1)
            && (k0 == k1 == k3 == k4 == k5 == [] ==> all == k2)
            && (k0 == k1 == k2 == k4 == k5 == [] ==> all == k3)
            && (k0 == k1 == k2 == k3 == k4 == [] ==> all == k5)
  {
  }

  /** The children that a rule's value shows. */
  predicate IsSilentAt(r: int, i: int) {
    var x := if i < LengthAt(r) then SymbolAt(r, i) else SEPARATOR;
    (IsToken(x) && x != STRING) || x == SEPARATOR || x == BLOCK_TYPE
  }

  lemma SilentKids(r: int)
    requires 14 <= r < 38
    ensures IsSimple(r) ==> IsSilentAt(r, 1) && IsSilentAt(r, 2) && IsSilentAt(r, 3) && IsSilentAt(r, 4) && IsSilentAt(r, 5)
    ensures r == 18 || r == 19 ==> IsSilentAt(r, 0) && IsSilentAt(r, 1) && IsSilentAt(r, 2) && IsSilentAt(r, 4) && IsSilentAt(r, 5)
    ensures r == 23 ==> IsSilentAt(r, 1) && IsSilentAt(r, 3) && IsSilentAt(r, 4) && IsSilentAt(r, 5)
    ensures r == 27 ==> IsSilentAt(r, 2) && IsSilentAt(r, 3) && IsSilentAt(r, 4) && IsSilentAt(r, 5)
    ensures r == 32 || r == 33 ==> IsSilentAt(r, 0) && IsSilentAt(r, 1) && IsSilentAt(r, 3) && IsSilentAt(r, 4) && IsSilentAt(r, 5)
    ensures r == 34 ==> IsSilentAt(r, 0) && IsSilentAt(r, 2) && IsSilentAt(r, 3) && IsSilentAt(r, 4) && IsSilentAt(r, 5)
    ensures r == 35 ==> IsSilentAt(r, 0) && IsSilentAt(r, 1) && IsSilentAt(r, 2) && IsSilentAt(r, 3) && IsSilentAt(r, 4)
  {
  }

  /** Every action keeps all the text of its right-hand side, in order, and adds none. */
  lemma ActionKeepsText(tree: Tree)
    requires tree.Node? && Derivation(TABLES, tree) && 14 <= tree.rule < 38
    requires TokensAreLeaves(TABLES, tree.kids)
    ensures Shown(TABLES, tree) == ShownAll(TABLES, tree.kids)
  {
    hide Derivation, ShownAll, Root, TokensAreLeaves, ShownKid, Shown, LengthAt, SymbolAt, R1At, IsSilentAt;
    KidsFit(tree);
    RulesShort(tree.rule);
    KidsShow(tree);
    SilentKids(tree.rule);
    forall i: nat | IsSilentAt(tree.rule, i) ensures ShownKid(TABLES, tree, i) == [] {
      SilentIs(tree.rule, i);
      OthersSilent(TABLES, tree, i);
    }
    Shrink(ShownKid(TABLES, tree, 0), ShownKid(TABLES, tree, 1), ShownKid(TABLES, tree, 2),
           ShownKid(TABLES, tree, 3), ShownKid(TABLES, tree, 4), ShownKid(TABLES, tree, 5));
    WrapperShows(TABLES, tree);
    JoinShows(TABLES, tree);
    if IsSimple(tree.rule) {
      SimpleShows(TABLES, tree);
    }
  }

  lemma RulesShort(r: int)
    requires 14 <= r < 38
    ensures LengthAt(r) <= 6
  {
  }

  lemma SilentIs(r: int, i: int)
    requires IsSilentAt(r, i)
    ensures i < LengthAt(r) ==>
              var x := SymbolAt(r, i);
              (IsToken(x) && x != STRING) || x == SEPARATOR || x == BLOCK_TYPE
  {
    hide LengthAt, SymbolAt;
  }

  // ---- Text conservation --------------------------------------------------------------------------

  lemma {:induction false} ProperKids(trees: seq<Tree>, i: nat)
    requires AllProper(TABLES, trees) && i < |trees|
    ensures Proper(TABLES, trees[i])
  {
    if i > 0 {
      ProperKids(trees[1..], i - 1);
    }
  }

  lemma ProperLeaves(trees: seq<Tree>)
    requires AllProper(TABLES, trees)
    ensures TokensAreLeaves(TABLES, trees)
  {
    hide R1At;
    forall i | 0 <= i < |trees|
      ensures IsToken(Root(TABLES, trees[i])) ==> trees[i].Leaf?
      ensures 26 <= Root(TABLES, trees[i]) < 47 ==> trees[i].Node?
    {
      ProperKids(trees, i);
      StatesAre(Root(TABLES, trees[i]));
    }
  }

  /** Every STRING token below a tree is shown exactly once, in input order, and nothing else is. */
  lemma {:induction false} TextConserved(tree: Tree)
    requires Derivation(TABLES, tree) && Proper(TABLES, tree)
    requires tree.Node? ==> 14 <= tree.rule
    ensures Shown(TABLES, tree) == StringTokens(Yield(tree))
    decreases tree
  {
    hide R1At, LengthAt, SymbolAt, TokensAreLeaves, ShownAll, TreeOf, ListOf;
    match tree
    case Leaf(token) =>
      assert [token][1..] == [] && TokenText(token) + [] == TokenText(token);
    case End =>
    case Skipped(_) =>
    case Node(r, kids) =>
      RulesAre(r);
      ProperLeaves(kids);
      ActionKeepsText(tree);
      KidRoots(tree);
      forall i | 0 <= i < |kids| && kids[i].Node? ensures 14 <= kids[i].rule {
        SymbolsTextual(r, i);
        DerivationKids(kids, i);
        KidRule(kids[i]);
      }
      AllTextConserved(kids);
  }

  lemma {:induction false} AllTextConserved(trees: seq<Tree>)
    requires Derivations(TABLES, trees) && AllProper(TABLES, trees)
    requires forall i | 0 <= i < |trees| :: trees[i].Node? ==> 14 <= trees[i].rule
    ensures ShownAll(TABLES, trees) == StringTokens(Yields(trees))
    decreases trees
  {
    if trees != [] {
      TextConserved(trees[0]);
      AllTextConserved(trees[1..]);
      StringTokensConcat(Yield(trees[0]), Yields(trees[1..]));
    }
  }

  lemma {:induction false} DerivationKids(trees: seq<Tree>, i: nat)
    requires Derivations(TABLES, trees) && i < |trees|
    ensures Derivation(TABLES, trees[i])
  {
    hide Derivation;
    if i > 0 {
      DerivationKids(trees[1..], i - 1);
    }
  }

  lemma KidRule(tree: Tree)
    requires tree.Node? && Derivation(TABLES, tree)
    requires IsToken(Root(TABLES, tree)) || IsTextual(Root(TABLES, tree))
    ensures 14 <= tree.rule
  {
    hide LengthAt, SymbolAt;
    RulesAre(tree.rule);
    RuleSymbols(tree.rule);
  }

  lemma RuleSymbols(r: int)
    requires 1 <= r < 38
    ensures 26 <= R1At(r) < 47 && (IsTextual(R1At(r)) ==> 14 <= r)
  {
  }

  // ---- Nodes and their children ---------------------------------------------------------------------

  lemma KidsProper(kids: seq<Tree>, i: nat)
    requires AllProper(TABLES, kids) && Derivations(TABLES, kids) && i < |kids|
    ensures Proper(TABLES, kids[i]) && Derivation(TABLES, kids[i])
    ensures IsToken(Root(TABLES, kids[i])) ==> kids[i].Leaf?
    ensures 26 <= Root(TABLES, kids[i]) < 47 ==> kids[i].Node? && 1 <= kids[i].rule < 38
    ensures kids[i].Node? ==> Root(TABLES, kids[i]) == R1At(kids[i].rule)
  {
    hide R1At, IsRule, Derivation;
    ProperKids(kids, i);
    DerivationKids(kids, i);
    ProperLeaves(kids);
    NodeRule(kids[i]);
  }

  lemma NodeRule(tree: Tree)
    requires Derivation(TABLES, tree)
    ensures tree.Node? ==> 1 <= tree.rule < 38 && Root(TABLES, tree) == R1At(tree.rule)
  {
    hide R1At, IsRule;
    if tree.Node? {
      RulesAre(tree.rule);
    }
  }

  lemma NodeParts(tree: Tree)
    requires Derivation(TABLES, tree) && Proper(TABLES, tree) && tree.Node?
    ensures Derivations(TABLES, tree.kids) && AllProper(TABLES, tree.kids)
  {
  }

  lemma OutputSymbols(r: int)
    requires 1 <= r < 38
    ensures R1At(r) == OUTPUT <==> r == 12 || r == 13
    ensures R1At(r) == OUTPUTLIST <==> r == 10 || r == 11
    ensures r == 10 ==> LengthAt(r) == 1 && SymbolAt(r, 0) == OUTPUT
    ensures r == 11 ==> LengthAt(r) == 2 && SymbolAt(r, 0) == OUTPUT && SymbolAt(r, 1) == OUTPUTLIST
    ensures r == 12 ==> LengthAt(r) == 2 && SymbolAt(r, 0) == 22 && SymbolAt(r, 1) == 25
    ensures r == 13 ==> LengthAt(r) == 2 && SymbolAt(r, 0) == OUTPUT && SymbolAt(r, 1) == 35
    ensures R1At(r) == 26 <==> r == 2
    ensures R1At(r) == 32 <==> r == 9
    ensures r == 2 ==> LengthAt(r) == 4 && SymbolAt(r, 3) == 32
    ensures r == 9 ==> LengthAt(r) == 3 && SymbolAt(r, 0) == 6 && SymbolAt(r, 1) == 23 && SymbolAt(r, 2) == OUTPUTLIST
    ensures IsTreeSymbol(R1At(r)) ==> 14 <= r
  {
  }

  lemma BlocklistRules(r: int)
    requires 1 <= r < 38
    ensures R1At(r) == BLOCKLIST <==> r == 22 || r == 23
    ensures R1At(r) == SEPARATOR <==> 28 <= r <= 30
    ensures IsTreeSymbol(R1At(r)) ==> 14 <= r && r != 22 && r != 23 && !(28 <= r <= 30)
  {
  }
}
