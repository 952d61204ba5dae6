/** Error recovery of the directive parser, src/analyzer/direc-tab.cc: which stacks its tables can
    build, what an error in a file leads to, and when the parser gives up. */
module DirecRecovery {
  import opened LrTables
  import opened LrTrees
  import opened LrEngine
  import opened LrSoundness
  import opened LrTermination
  import opened LrCompleteness
  import opened DirecTables

  const SEMICOLON := 39

  /** The state at the start of a file, the one after a semicolon, and the one after the file. */
  const IN_FILE := 1
  const NEXT_DIRECTIVE := 26
  const FILE_READ := 124

  // ---- Stacks ---------------------------------------------------------------------------------------

  /** State `n` can be entered from `p` on the symbol of `tree`. */
  ghost predicate Link(t: Tables, p: int, tree: Tree, n: int) {
    0 < n < 126 && Below(n, p) == true && EntryAt(n) == Root(t, tree)
  }

  /** Each state of a stack can be entered from the one below it, on the symbol between them. */
  ghost predicate Linked(t: Tables, states: seq<int>, trees: seq<Tree>) {
    && |states| == |trees| + 1 && states[0] == 0
    && forall i | 0 <= i < |trees| :: Link(t, states[i], trees[i], states[i + 1])
  }

  lemma MoveEnters(p: int, tree: Tree)
    requires Built(TABLES, CERT, p, tree) && IsState(TABLES, Move(TABLES, p, tree))
    ensures EnteredAt(p, Root(TABLES, tree), Move(TABLES, p, tree)) == true
  {
    hide ActionAt, ErrorActionAt, GotoAt, ItemAt, Item, Lookup, ErrorLookup, Goto, R1At, EnteredAt;
    StatesAre(p);
    StatesAre(Move(TABLES, p, tree));
    match tree
    case Leaf(token) =>
      StatesAre(token.kind);
      LookupIs(p, token.kind);
      ActionsFit(p, token.kind);
    case End =>
      StatesAre(YYEOF);
      LookupIs(p, YYEOF);
      ActionsFit(p, YYEOF);
    case Skipped(_) =>
      LookupIs(p, 0);
      Errors(p);
    case Node(r, _) =>
      RulesAre(r);
      ItemIs(p, r, 0);
      GotoIs(p, r);
      GotosFit(p, r);
  }

  lemma StackLinked(states: seq<int>, trees: seq<Tree>)
    requires StackOk(TABLES, CERT, states, trees)
    ensures Linked(TABLES, states, trees)
  {
    hide Below, EntryAt, Built, Move, Root;
    forall i | 0 <= i < |trees| ensures Link(TABLES, states[i], trees[i], states[i + 1]) {
      assert Built(TABLES, CERT, states[i], trees[i]) && Move(TABLES, states[i], trees[i]) == states[i + 1];
      StatesAre(states[i + 1]);
      MoveEnters(states[i], trees[i]);
    }
  }

  /** States that stand between directives, on the way from an `error` or a semicolon to the next
      directive or to the end of the file. */
  predicate IsOuter(s: int) {
    s == 2 || s == 23 || s == 24 || s == 25 || s == 27 || s == 56 || s == 57
  }

  lemma EnteredFrom(n: int, p: int)
    requires 0 < n < 126 && Below(n, p) == true
    ensures n == IN_FILE || n == FILE_READ ==> p == 0
    ensures n == 24 || n == 25 || n == 27 || n == NEXT_DIRECTIVE ==> p == IN_FILE
    ensures n == 57 ==> p == NEXT_DIRECTIVE
    ensures n == 2 ==> p == IN_FILE || p == NEXT_DIRECTIVE
    ensures n == 125 ==> p == FILE_READ
  {
    hide Below;
    FileEnteredFrom(p);
    DirectiveEnteredFrom(p);
  }

  lemma FileEnteredFrom(p: int)
    ensures Below(IN_FILE, p) || Below(FILE_READ, p) ==> p == 0
    ensures Below(125, p) ==> p == FILE_READ
  {
  }

  lemma DirectiveEnteredFrom(p: int)
    ensures Below(27, p) || Below(NEXT_DIRECTIVE, p) || Below(24, p) || Below(25, p) ==> p == IN_FILE
    ensures Below(57, p) ==> p == NEXT_DIRECTIVE
    ensures Below(2, p) ==> p == IN_FILE || p == NEXT_DIRECTIVE
  {
  }

  lemma AboveBottom(n: int)
    requires 0 < n < 126 && Below(n, 0) == true
    ensures n == IN_FILE || n == FILE_READ
  {
  }

  lemma AboveFileRead(n: int)
    requires 0 < n < 126 && Below(n, FILE_READ) == true
    ensures n == 125
  {
  }

  lemma AboveFileSoFar(n: int)
    requires 0 < n < 126 && Below(n, 25) == true
    ensures n == 56
  {
  }

  lemma NothingAbove(n: int, p: int)
    requires 0 < n < 126 && IsOuter(p) && p != 25
    ensures Below(n, p) == false
  {
    hide Below;
    match p
    case 2 => NothingAbove2(n);
    case 23 => NothingAbove23(n);
    case 24 => NothingAbove24(n);
    case 27 => NothingAbove27(n);
    case 56 => NothingAbove56(n);
    case 57 => NothingAbove57(n);
    case _ =>
  }

  lemma NothingAbove2(n: int)
    requires 0 < n < 126
    ensures Below(n, 2) == false
  {
  }

  lemma NothingAbove23(n: int)
    requires 0 < n < 126
    ensures Below(n, 23) == false
  {
  }

  lemma NothingAbove24(n: int)
    requires 0 < n < 126
    ensures Below(n, 24) == false
  {
  }

  lemma NothingAbove27(n: int)
    requires 0 < n < 126
    ensures Below(n, 27) == false
  {
  }

  lemma NothingAbove56(n: int)
    requires 0 < n < 126
    ensures Below(n, 56) == false
  {
  }

  lemma NothingAbove57(n: int)
    requires 0 < n < 126
    ensures Below(n, 57) == false
  {
  }

  lemma OuterActs(s: int, k: int)
    requires IsOuter(s)
    ensures ActionAt(s, k) != 0 && DefactAt(s) != 0
  {
  }

  /** An error never meets a state between directives, anywhere on the stack. */
  lemma {:induction false} NotOuterBelow(states: seq<int>, trees: seq<Tree>, i: nat)
    requires Linked(TABLES, states, trees) && i <= |trees| && !IsOuter(states[|trees|])
    ensures !IsOuter(states[i])
    decreases |trees| - i
  {
    hide Below, EntryAt;
    if i < |trees| {
      NotOuterBelow(states, trees, i + 1);
      assert Link(TABLES, states[i], trees[i], states[i + 1]);
      if states[i] == 25 {
        AboveFileSoFar(states[i + 1]);
      } else if IsOuter(states[i]) {
        NothingAbove(states[i + 1], states[i]);
      }
    }
  }

  lemma HandlersAre(s: int)
    requires 0 <= s < 126
    ensures ErrorActionAt(s) == if s == IN_FILE || s == NEXT_DIRECTIVE then 2 else 0
  {
  }

  lemma HandledBy(s: int)
    requires IsState(TABLES, s)
    ensures ErrorLookup(TABLES, s) == if s == IN_FILE || s == NEXT_DIRECTIVE then Shift(2) else Error
  {
    hide ErrorActionAt, ErrorLookup, Lookup;
    StatesAre(s);
    LookupIs(s, 0);
    HandlersAre(s);
  }

  /** Where the two states that take `error` can stand: the start of the file just above the bottom,
      the state after a semicolon just above that. */
  lemma PlaceOf(states: seq<int>, trees: seq<Tree>, i: nat)
    requires Linked(TABLES, states, trees) && i < |states|
    ensures states[i] == IN_FILE ==> i == 1
    ensures states[i] == NEXT_DIRECTIVE ==> i == 2 && states[1] == IN_FILE
  {
    hide Below, EntryAt;
    if i > 0 {
      assert Link(TABLES, states[i - 1], trees[i - 1], states[i - 1 + 1]);
      EnteredFrom(states[i], states[i - 1]);
      if i > 1 {
        assert Link(TABLES, states[i - 2], trees[i - 2], states[i - 2 + 1]);
        EnteredFrom(states[i - 1], states[i - 2]);
        if i > 2 {
          assert Link(TABLES, states[i - 3], trees[i - 3], states[i - 3 + 1]);
        }
      }
    }
  }

  /** Recovery in a file goes back to its start, or to the last semicolon. */
  lemma HandlerIs(states: seq<int>, trees: seq<Tree>)
    requires StackOk(TABLES, CERT, states, trees) && |trees| > 0 && states[1] == IN_FILE
    ensures var h := Handler(TABLES, states, |trees|);
      && (h == 1 || (h == 2 && states[2] == NEXT_DIRECTIVE))
      && forall i | h < i < |states| :: states[i] != IN_FILE && states[i] != NEXT_DIRECTIVE
  {
    hide ErrorLookup, Built, Move, Linked;
    StackLinked(states, trees);
    var h := Handler(TABLES, states, |trees|);
    forall i | 0 <= i < |states|
      ensures ErrorLookup(TABLES, states[i]) ==
        if states[i] == IN_FILE || states[i] == NEXT_DIRECTIVE then Shift(2) else Error
    {
      HandledBy(states[i]);
    }
    assert h >= 1;
    PlaceOf(states, trees, h);
  }

  // ---- What lies above the place of recovery ------------------------------------------------------------

  /** The symbols of which directives consist. */
  predicate IsInner(x: int) {
    (1 < x < 45 && x != SEMICOLON) || 51 <= x < 72
  }

  ghost predicate NoSemicolon(tokens: seq<Token>) {
    forall i | 0 <= i < |tokens| :: tokens[i].kind != SEMICOLON
  }

  lemma EntryInner(n: int)
    requires 0 < n < 126 && !IsOuter(n)
    requires n != IN_FILE && n != NEXT_DIRECTIVE && n != FILE_READ && n != 125
    ensures IsInner(EntryAt(n))
  {
  }

  lemma InnerRules(r: int, k: int)
    requires 1 <= r < 79 && 51 <= R1At(r) && 0 <= k < LengthAt(r)
    ensures IsInner(SymbolAt(r, k))
  {
  }

  lemma NodeSymbols(tree: Tree)
    requires Derivation(TABLES, tree) && tree.Node?
    ensures 1 <= tree.rule < 79 && Root(TABLES, tree) == R1At(tree.rule)
    ensures |tree.kids| == LengthAt(tree.rule) && Derivations(TABLES, tree.kids)
    ensures forall i | 0 <= i < |tree.kids| :: Root(TABLES, tree.kids[i]) == SymbolAt(tree.rule, i)
  {
    hide R1At, LengthAt, SymbolAt, IsRule;
    RulesAre(tree.rule);
    forall i | 0 <= i < |tree.kids| ensures Root(TABLES, tree.kids[i]) == SymbolAt(tree.rule, i) {
      SymbolsAre(tree.rule, i);
      assert Roots(TABLES, tree.kids)[i] == Root(TABLES, tree.kids[i]);
    }
  }

  /** What is read of a directive has no semicolon, and nothing in it was skipped. */
  lemma {:induction false} InnerTree(tree: Tree)
    requires Derivation(TABLES, tree) && IsInner(Root(TABLES, tree))
    ensures Clean(tree) && NoSemicolon(Yield(tree))
    decreases tree
  {
    hide R1At, LengthAt, SymbolAt;
    if tree.Node? {
      NodeSymbols(tree);
      forall i | 0 <= i < |tree.kids| ensures IsInner(Root(TABLES, tree.kids[i])) {
        InnerRules(tree.rule, i);
      }
      InnerTrees(tree.kids);
    }
  }

  lemma {:induction false} InnerTrees(trees: seq<Tree>)
    requires Derivations(TABLES, trees) && forall i | 0 <= i < |trees| :: IsInner(Root(TABLES, trees[i]))
    ensures AllClean(trees) && NoSemicolon(Yields(trees))
    decreases trees
  {
    hide Root;
    if trees != [] {
      InnerTree(trees[0]);
      InnerTrees(trees[1..]);
    }
  }

  // ---- What every run keeps -----------------------------------------------------------------------------

  /** Whatever was skipped has no semicolon. */
  ghost predicate SkipsPieces(tree: Tree) {
    match tree
    case Skipped(input) => NoSemicolon(input)
    case Node(_, kids) => AllSkipPieces(kids)
    case _ => true
  }

  ghost predicate AllSkipPieces(trees: seq<Tree>) {
    trees == [] || (SkipsPieces(trees[0]) && AllSkipPieces(trees[1..]))
  }

  lemma {:induction false} SkipPiecesParts(a: seq<Tree>, b: seq<Tree>)
    ensures AllSkipPieces(a + b) <==> AllSkipPieces(a) && AllSkipPieces(b)
  {
    if a == [] {
      assert a + b == b;
    } else {
      SkipPiecesParts(a[1..], b);
      assert (a + b)[1..] == a[1..] + b;
    }
  }

  /** The states between an error and the first token shifted after it. */
  predicate IsRecovering(s: int) {
    s == 2 || s == 24 || s == 25 || s == 27 || s == 57 || s == FILE_READ
  }

  ghost predicate SkipsWell(c: Config) {
    && AllSkipPieces(c.trees)
    && (c.status.Running? && c.errStatus == 3 && |c.states| > 0 ==> IsRecovering(c.states[|c.states| - 1]))
  }

  /** An error inside a file: it meets a token that was not skipped before, and recovery keeps it. */
  lemma ErrorInFile(input: seq<Token>, c: Config)
    requires Inv(TABLES, CERT, input, c) && c.status.Running? && SkipsWell(c)
    requires |c.trees| > 0 && c.states[1] == IN_FILE && Choose(TABLES, c).1.Error?
    ensures !IsOuter(c.states[|c.trees|]) && c.errStatus != 3
    ensures forall i | 1 < i < |c.states| :: c.states[i] != FILE_READ && c.states[i] != 125
  {
    hide LrTables.Valid, Inv, Lookup, Default, ActionAt, DefactAt, Linked, Below, EntryAt;
    InvStack(input, c);
    StackLinked(c.states, c.trees);
    var s := c.states[|c.trees|];
    StatesAre(s);
    var k := Kind(Read(c).look);
    LookupIs(s, k);
    if IsOuter(s) {
      OuterActs(s, k);
      OuterChooses(s, k);
    }
    forall i | 1 < i < |c.states| ensures c.states[i] != FILE_READ && c.states[i] != 125 {
      NoFileReadAbove(c.states, c.trees, i);
    }
  }

  lemma InvStack(input: seq<Token>, c: Config)
    requires Inv(TABLES, CERT, input, c)
    ensures StackOk(TABLES, CERT, c.states, c.trees)
  {
  }

  lemma OuterChooses(s: int, k: int)
    requires 0 <= s < 126 && ActionAt(s, k) != 0 && DefactAt(s) != 0
    ensures !Lookup(TABLES, s, k).Error? && !Default(TABLES, s).Error?
  {
    hide ActionAt, Lookup, Default;
    StatesAre(s);
    LookupIs(s, k);
    NeverFlag(s, k);
    DefaultIs(s);
  }

  lemma DefaultIs(s: int)
    requires 0 <= s < 126 && IsState(TABLES, s)
    ensures Default(TABLES, s) == if DefactAt(s) == 0 then Error else Reduce(DefactAt(s))
  {
    LookupIs(s, 0);
  }

  lemma NeverFlag(s: int, k: int)
    ensures ActionAt(s, k) != YYFLAG
  {
  }

  lemma NoFileReadAbove(states: seq<int>, trees: seq<Tree>, i: nat)
    requires Linked(TABLES, states, trees) && 1 < i < |states| && states[1] == IN_FILE
    ensures states[i] != FILE_READ && states[i] != 125
  {
    hide Below, EntryAt;
    assert Link(TABLES, states[i - 1], trees[i - 1], states[i - 1 + 1]);
    EnteredFrom(states[i], states[i - 1]);
    assert Link(TABLES, states[i - 2], trees[i - 2], states[i - 2 + 1]);
    Positive(states, trees, i - 1);
    if i > 2 {
      Positive(states, trees, i - 2);
    }
    EnteredFrom(states[i - 1], states[i - 2]);
  }

  lemma Positive(states: seq<int>, trees: seq<Tree>, i: nat)
    requires Linked(TABLES, states, trees) && 0 < i < |states|
    ensures states[i] > 0
  {
    hide Below, EntryAt;
    assert Link(TABLES, states[i - 1], trees[i - 1], states[i - 1 + 1]);
  }

  /** What recovery throws away inside a file: part of one directive. */
  lemma PoppedInner(c: Config, h: nat)
    requires StackOk(TABLES, CERT, c.states, c.trees) && h < |c.states| && !IsOuter(c.states[|c.trees|])
    requires forall i | h < i < |c.states| :: c.states[i] != IN_FILE && c.states[i] != NEXT_DIRECTIVE
                                              && c.states[i] != FILE_READ && c.states[i] != 125
    ensures NoSemicolon(Yields(c.trees[h..]))
  {
    hide LrTables.Valid, Inv, Below, EntryAt, Root, Built, Move;
    StackLinked(c.states, c.trees);
    var popped := c.trees[h..];
    forall i | 0 <= i < |popped| ensures IsInner(Root(TABLES, popped[i])) {
      assert Link(TABLES, c.states[h + i], c.trees[h + i], c.states[h + i + 1]);
      NotOuterBelow(c.states, c.trees, h + i + 1);
      EntryInner(c.states[h + i + 1]);
    }
    SegmentBuilt(TABLES, CERT, c.states, c.trees, h);
    BuiltAllIsDerivation(TABLES, CERT, c.states[h], popped);
    InnerTrees(popped);
  }

  /** The reductions on the way from an `error` to the end of its directive. */
  lemma RecoveringRules(s: int, k: int)
    requires IsRecovering(s)
    ensures var r := -ActionAt(s, k);
      r > 0 ==> r == DefactAt(s) && r == (if s == 2 then 11 else if s == 27 then 6 else if s == 57 then 7
                                          else if s == 25 then 3 else 2) && s != FILE_READ
    ensures DefactAt(FILE_READ) == 0
  {
  }

  lemma RecoveringDefaults(s: int)
    requires IsRecovering(s)
    ensures DefactAt(s) == if s == 2 then 11 else if s == 27 then 6 else if s == 57 then 7
                           else if s == 25 then 3 else if s == 24 then 2 else 0
  {
  }

  lemma RecoveringGotos()
    ensures R1At(11) == 50 && R1At(6) == 48 && R1At(7) == 48 && R1At(3) == 47 && R1At(2) == 45
    ensures LengthAt(11) == 1 && LengthAt(6) == 1 && LengthAt(7) == 2 && LengthAt(3) == 1 && LengthAt(2) == 2
    ensures GotoAt(1, 50) == 27 && GotoAt(NEXT_DIRECTIVE, 50) == 57 && GotoAt(1, 48) == 25
    ensures GotoAt(1, 47) == 24 && GotoAt(0, 45) == FILE_READ
  {
  }

  /** A reduction in such a state leads to another. */
  lemma RecoveringReduces(states: seq<int>, trees: seq<Tree>, r: int)
    requires StackOk(TABLES, CERT, states, trees) && IsRecovering(states[|trees|]) && r == DefactAt(states[|trees|]) > 0
    requires LengthAt(r) <= |trees|
    ensures 1 <= r < 79 && IsRule(TABLES, r)
    ensures IsRecovering(Goto(TABLES, states[|trees| - LengthAt(r)], TABLES.r1[r]))
  {
    hide Below, EntryAt, DefactAt, LengthAt, R1At, Goto, GotoAt, Root, Built, Move;
    StackLinked(states, trees);
    RecoveringDefaults(states[|trees|]);
    RecoveringGotos();
    RulesAre(r);
    var n := |trees|;
    assert Link(TABLES, states[n - 1], trees[n - 1], states[n - 1 + 1]);
    EnteredFrom(states[n], states[n - 1]);
    if LengthAt(r) == 2 {
      assert Link(TABLES, states[n - 2], trees[n - 2], states[n - 2 + 1]);
      EnteredFrom(states[n - 1], states[n - 2]);
    }
    StatesAre(states[n - LengthAt(r)]);
    GotoIs(states[n - LengthAt(r)], r);
  }

  lemma ShiftSkipsWell(c: Config, n: int)
    requires |c.states| == |c.trees| + 1 && SkipsWell(c) && 0 <= c.errStatus <= 3
    ensures SkipsWell(ShiftToken(c, n))
  {
    var leaf := if c.look.Tok? then Leaf(c.look.token) else End;
    SkipPiecesParts(c.trees, [leaf]);
  }

  lemma ReduceSkipsWell(c: Config, r: int)
    requires StackOk(TABLES, CERT, c.states, c.trees) && c.status.Running? && SkipsWell(c)
    requires ReduceBy(TABLES, c, r).status != Crashed
    requires c.errStatus == 3 ==> r == DefactAt(c.states[|c.trees|])
    ensures SkipsWell(ReduceBy(TABLES, c, r))
  {
    hide DefactAt, LengthAt, R1At, Goto, Root, Built, Move, SkipsPieces, ReduceBy;
    ReduceLeaves(c, r);
    RulesAre(r);
    var m := |c.trees| - LengthAt(r);
    assert c.trees == c.trees[..m] + c.trees[m..];
    SkipPiecesParts(c.trees[..m], c.trees[m..]);
    SkipPiecesParts(c.trees[..m], [Node(r, c.trees[m..])]);
    NodeSkipsPieces(r, c.trees[m..]);
    if c.errStatus == 3 {
      RecoveringReduces(c.states, c.trees, r);
    }
  }

  lemma ReduceLeaves(c: Config, r: int)
    requires c.status.Running? && ReduceBy(TABLES, c, r).status != Crashed
    ensures IsRule(TABLES, r) && |TABLES.rhs[r]| <= |c.trees| && |c.states| == |c.trees| + 1
    ensures var d := ReduceBy(TABLES, c, r);
      var m := |c.trees| - |TABLES.rhs[r]|;
      && d.trees == c.trees[..m] + [Node(r, c.trees[m..])] && d.errStatus == c.errStatus
      && |d.states| > 0 && d.states[|d.states| - 1] == Goto(TABLES, c.states[m], TABLES.r1[r])
  {
    hide Goto;
  }

  lemma NodeSkipsPieces(r: int, kids: seq<Tree>)
    requires AllSkipPieces(kids)
    ensures AllSkipPieces([Node(r, kids)])
  {
    var trees := [Node(r, kids)];
    assert trees[1..] == [] && AllSkipPieces([]);
    assert trees[0] == Node(r, kids) && SkipsPieces(trees[0]);
  }

  /** The configuration once the `error` token has been shifted inside a file: the tokens ahead are
      still ahead, and all that was read since the last semicolon is one skipped segment. */
  function Resumed(c: Config, h: nat): Config
    requires h < |c.states| == |c.trees| + 1
  {
    Push(c.(nerrs := if c.errStatus == 0 then c.nerrs + 1 else c.nerrs, errors := c.errors + 1, errStatus := 3,
            states := c.states[..h + 1], trees := c.trees[..h]), 2, Skipped(Yields(c.trees[h..])))
  }

  lemma RecoverResumes(c: Config)
    requires StackOk(TABLES, CERT, c.states, c.trees)
    requires |c.trees| > 0 && c.states[1] == IN_FILE && c.errStatus != 3
    ensures var h := Handler(TABLES, c.states, |c.trees|);
      && (h == 1 || (h == 2 && c.states[2] == NEXT_DIRECTIVE))
      && Recover(TABLES, c) == Resumed(c, h)
  {
    hide ErrorLookup, Built, Move, Linked, Push, ReduceBy, Yields;
    HandlerIs(c.states, c.trees);
    var h := Handler(TABLES, c.states, |c.trees|);
    HandledBy(c.states[h]);
    assert Yields(c.trees[h..]) + [] == Yields(c.trees[h..]);
  }

  lemma ResumedSkipsWell(c: Config, h: nat)
    requires h < |c.states| == |c.trees| + 1
    requires AllSkipPieces(c.trees[..h]) && NoSemicolon(Yields(c.trees[h..]))
    ensures SkipsWell(Resumed(c, h))
  {
    hide SkipsPieces, NoSemicolon, Yields;
    SkipPiecesParts(c.trees[..h], [Skipped(Yields(c.trees[h..]))]);
    OneSkipped(Yields(c.trees[h..]));
  }

  lemma RecoverSkipsWell(c: Config)
    requires StackOk(TABLES, CERT, c.states, c.trees) && c.status.Running? && SkipsWell(c)
    requires |c.trees| > 0 && c.states[1] == IN_FILE && !IsOuter(c.states[|c.trees|]) && c.errStatus != 3
    requires forall i | 1 < i < |c.states| :: c.states[i] != FILE_READ && c.states[i] != 125
    ensures SkipsWell(Recover(TABLES, c))
  {
    hide ErrorLookup, Built, Move, Linked, SkipsPieces, NoSemicolon, Recover, Handler, Yields, Resumed;
    HandlerIs(c.states, c.trees);
    RecoverResumes(c);
    var h := Handler(TABLES, c.states, |c.trees|);
    PoppedInner(c, h);
    assert c.trees == c.trees[..h] + c.trees[h..];
    SkipPiecesParts(c.trees[..h], c.trees[h..]);
    ResumedSkipsWell(c, h);
  }

  lemma OneSkipped(tokens: seq<Token>)
    requires NoSemicolon(tokens)
    ensures AllSkipPieces([Skipped(tokens)])
  {
    var trees := [Skipped(tokens)];
    assert trees[1..] == [] && AllSkipPieces([]);
    assert trees[0] == Skipped(tokens) && SkipsPieces(trees[0]);
  }

  // ---- Steps -----------------------------------------------------------------------------------------

  /** At the bottom a rule is reduced, whatever follows. */
  lemma BottomReduces(k: int)
    ensures ActionAt(0, k) == -1 && DefactAt(0) == 1 && TABLES.pact[0] == YYFLAG
  {
  }

  lemma FileReadActions(k: int)
    ensures KindAt(k) && k != 0 ==> ActionAt(FILE_READ, k) == 0
    ensures ActionAt(FILE_READ, 0) == 125
    ensures TABLES.pact[FILE_READ] != YYFLAG
  {
  }

  lemma LinkAt(states: seq<int>, trees: seq<Tree>, i: nat)
    requires Linked(TABLES, states, trees) && i < |trees|
    ensures |states| == |trees| + 1 && states[0] == 0 && Link(TABLES, states[i], trees[i], states[i + 1])
  {
    hide Link;
  }

  /** Where an error can be met: inside a file, or at a token after a whole file. */
  lemma ErrorsMet(input: seq<Token>, c: Config)
    requires Inv(TABLES, CERT, input, c) && c.status.Running? && EndOnTop(c) && Choose(TABLES, c).1.Error?
    ensures |c.states| == |c.trees| + 1 > 1
    ensures c.states[1] == IN_FILE || (c.states == [0, FILE_READ] && Choose(TABLES, c).0.look.Tok?)
  {
    hide LrTables.Valid, Inv, Lookup, Default, ActionAt, DefactAt, Linked, Below, EntryAt;
    InvStack(input, c);
    StackLinked(c.states, c.trees);
    StatesAre(0);
    BottomReduces(0);
    DefaultIs(0);
    StatesAre(FILE_READ);
    LookupIs(FILE_READ, 0);
    FileReadActions(0);
    ReadsSomething(c);
    if |c.trees| > 0 {
      LinkAt(c.states, c.trees, 0);
      AboveBottom(c.states[1]);
      if |c.trees| > 1 && c.states[1] == FILE_READ {
        LinkAt(c.states, c.trees, 1);
        AboveFileRead(c.states[2]);
        EndEntry();
        EndIsRoot(c.states[1], c.trees[1]);
        assert AtEnd(c);
        TablesValid();
        AtEndChooses(TABLES, CERT, input, c);
      }
    }
  }

  lemma EndIsRoot(p: int, tree: Tree)
    requires Built(TABLES, CERT, p, tree) && Root(TABLES, tree) == YYEOF
    ensures tree == End
  {
    hide R1At;
    match tree
    case Node(r, _) =>
      RulesAre(r);
      NodesAreNonterminals(r);
    case _ =>
  }

  lemma NodesAreNonterminals(r: int)
    requires 1 <= r < 79
    ensures R1At(r) >= 45
  {
  }

  lemma ReadsSomething(c: Config)
    ensures !Read(c).look.Empty?
  {
  }

  lemma EndEntry()
    ensures EntryAt(125) == 0
  {
  }

  /** After a whole file, recovery has nowhere to go. */
  lemma NowhereToGo(c: Config)
    requires c.states == [0, FILE_READ] && |c.trees| == 1 && c.look.Tok?
    ensures Recover(TABLES, c).status.Aborted? && Recover(TABLES, c).trees == []
  {
    hide ErrorLookup;
    StatesAre(0);
    StatesAre(FILE_READ);
    HandledBy(0);
    HandledBy(FILE_READ);
    assert forall i | 0 <= i < 2 :: ErrorLookup(TABLES, c.states[i]).Error?;
  }

  /** In such a state only a default rule is reduced. */
  lemma RecoveringChooses(c: Config)
    requires |c.states| > 0 && 0 <= c.states[|c.states| - 1] < 126 && IsRecovering(c.states[|c.states| - 1])
    requires IsState(TABLES, c.states[|c.states| - 1]) && Choose(TABLES, c).1.Reduce?
    ensures Choose(TABLES, c).1.rule == DefactAt(c.states[|c.states| - 1])
  {
    hide Lookup, Default, ActionAt, DefactAt;
    var s := c.states[|c.states| - 1];
    var k := Kind(Read(c).look);
    LookupIs(s, k);
    RecoveringRules(s, k);
    DefaultIs(s);
  }

  lemma ReadSkipsWell(c: Config)
    requires SkipsWell(c)
    ensures SkipsWell(Read(c))
  {
  }

  lemma {:induction false} StepSkipsWell(input: seq<Token>, c: Config)
    requires Inv(TABLES, CERT, input, c) && c.status.Running? && EndOnTop(c) && SkipsWell(c)
    ensures SkipsWell(Step(TABLES, c))
  {
    hide LrTables.Valid, Inv, EndOnTop, SkipsWell, Lookup, Default, Recover, ReduceBy, ShiftToken, DefactAt;
    TablesValid();
    InvStack(input, c);
    StepChooses(TABLES, CERT, input, c);
    ReadSkipsWell(c);
    InvErrStatus(input, c);
    var (c1, a) := Choose(TABLES, c);
    match a
    case Shift(n) => ShiftSkipsWell(c1, n);
    case Reduce(r) =>
      RecoveringOrNot(c, r);
      ReduceSkipsWell(c1, r);
    case Accept => AcceptSkipsWell(c1);
    case Error =>
      ErrorsMet(input, c);
      if c.states[1] == IN_FILE {
        ErrorInFile(input, c);
        RecoverSkipsWell(c1);
      } else {
        NowhereToGo(c1);
        AbortSkipsWell(Recover(TABLES, c1));
      }
  }

  lemma InvErrStatus(input: seq<Token>, c: Config)
    requires Inv(TABLES, CERT, input, c)
    ensures 0 <= c.errStatus <= 3
  {
  }

  lemma RecoveringOrNot(c: Config, r: int)
    requires SkipsWell(c) && c.status.Running? && |c.states| > 0 && IsState(TABLES, c.states[|c.states| - 1])
    requires Choose(TABLES, c).1 == Reduce(r)
    ensures c.errStatus == 3 ==> r == DefactAt(c.states[|c.states| - 1])
  {
    hide Lookup, Default, DefactAt, Choose;
    StatesAre(c.states[|c.states| - 1]);
    if c.errStatus == 3 {
      RecoveringChooses(c);
    }
  }

  lemma AcceptSkipsWell(c: Config)
    requires SkipsWell(c)
    ensures SkipsWell(c.(status := Accepted))
  {
  }

  lemma AbortSkipsWell(c: Config)
    requires c.status.Aborted? && c.trees == []
    ensures SkipsWell(c)
  {
  }

  lemma {:induction false} RunSkipsWell(input: seq<Token>, n: nat)
    requires InputOk(TABLES, input)
    ensures SkipsWell(Run(TABLES, input, n))
  {
    hide LrTables.Valid, Inv, EndOnTop, Step;
    if n > 0 {
      RunSkipsWell(input, n - 1);
      var b := Run(TABLES, input, n - 1);
      if b.status.Running? {
        TablesValid();
        RunSound(TABLES, CERT, input, n - 1);
        RunEndOnTop(TABLES, CERT, input, n - 1);
        StepSkipsWell(input, b);
      } else {
        StepStays(TABLES, b);
      }
    }
  }

  // ---- From an error onwards --------------------------------------------------------------------------

  /** What is followed of a configuration on a stretch of steps: its states, the tokens ahead of it,
      and how many more shifts end the recovery. */
  ghost predicate Stands(c: Config, states: seq<int>, ahead: seq<Token>, errStatus: int) {
    && c.status.Running? && c.errStatus == errStatus && c.states == states && |c.trees| + 1 == |states|
    && Ahead(c) == ahead && (c.look.Eof? ==> c.rest == [])
  }

  lemma Shifts(c: Config, states: seq<int>, ahead: seq<Token>, errStatus: nat, next: seq<int>, ahead': seq<Token>)
    requires Stands(c, states, ahead, errStatus) && 0 < |states| < 10 && ahead != [] && ahead' == ahead[1..]
    requires 0 <= states[|states| - 1] < 126 && TABLES.pact[states[|states| - 1]] != YYFLAG
    requires next == states + [ActionAt(states[|states| - 1], ahead[0].kind)] && 0 < next[|states|] < 126
    ensures Stands(Step(TABLES, c), next, ahead', if errStatus > 0 then errStatus - 1 else 0)
  {
    hide ActionAt, Lookup;
    StatesAre(states[|states| - 1]);
    LookupIs(states[|states| - 1], ahead[0].kind);
  }

  lemma ChoosesReduction(c: Config, states: seq<int>, ahead: seq<Token>, errStatus: int, r: int)
    requires Stands(c, states, ahead, errStatus) && 0 < |states| < 10
    requires 0 <= states[|states| - 1] < 126 && ActionAt(states[|states| - 1], NextKind(ahead)) == -r
    requires 1 <= r < 79
    ensures IsState(TABLES, states[|states| - 1])
    ensures Choose(TABLES, c).1 == Reduce(r) && Stands(Choose(TABLES, c).0, states, ahead, errStatus)
  {
    hide ActionAt, Lookup, Default, DefactAt;
    StatesAre(states[|states| - 1]);
    LookupIs(states[|states| - 1], NextKind(ahead));
    if TABLES.pact[states[|states| - 1]] == YYFLAG {
      FlaggedLookup(states[|states| - 1], NextKind(ahead));
    }
  }

  lemma FlaggedLookup(s: int, k: int)
    requires IsState(TABLES, s) && TABLES.pact[s] == YYFLAG
    ensures Lookup(TABLES, s, k) == Default(TABLES, s)
  {
  }

  lemma Reduces(c: Config, states: seq<int>, ahead: seq<Token>, errStatus: int, r: int, next: seq<int>)
    requires Stands(c, states, ahead, errStatus) && 0 < |states| < 10
    requires 0 <= states[|states| - 1] < 126 && ActionAt(states[|states| - 1], NextKind(ahead)) == -r
    requires 1 <= r < 79 && LengthAt(r) < |states|
    requires 0 <= states[|states| - 1 - LengthAt(r)] < 126
    requires next == states[..|states| - LengthAt(r)] + [GotoAt(states[|states| - 1 - LengthAt(r)], R1At(r))]
    ensures Stands(Step(TABLES, c), next, ahead, errStatus)
  {
    hide ActionAt, Lookup, Default, GotoAt, Goto, LengthAt, R1At, DefactAt, Choose;
    ChoosesReduction(c, states, ahead, errStatus, r);
    RulesAre(r);
    GotoIs(states[|states| - 1 - LengthAt(r)], r);
    assert c.states == states;
  }

  lemma RecoveryActions(k: int)
    ensures ActionAt(2, k) == -11 && ActionAt(27, k) == -6 && ActionAt(57, k) == -7 && ActionAt(24, k) == -2
    ensures ActionAt(56, k) == -9 && ActionAt(25, SEMICOLON) == 56 && (k != SEMICOLON ==> ActionAt(25, k) == -3)
    ensures LengthAt(9) == 2 && R1At(9) == 49 && GotoAt(1, 49) == NEXT_DIRECTIVE && TABLES.pact[25] != YYFLAG
  {
  }

  /** The three steps that make a directive of an `error` token. */
  lemma ErrorReduced(c: Config, ahead: seq<Token>, after: bool)
    requires Stands(c, if after then [0, 1, NEXT_DIRECTIVE, 2] else [0, 1, 2], ahead, 3)
    ensures Stands(Step(TABLES, Step(TABLES, c)), [0, 1, 25], ahead, 3)
  {
    hide ActionAt, LengthAt, R1At, GotoAt, Step, Stands;
    RecoveryActions(NextKind(ahead));
    RecoveringGotos();
    if after {
      Reduces(c, [0, 1, NEXT_DIRECTIVE, 2], ahead, 3, 11, [0, 1, NEXT_DIRECTIVE, 57]);
      Reduces(Step(TABLES, c), [0, 1, NEXT_DIRECTIVE, 57], ahead, 3, 7, [0, 1, 25]);
    } else {
      Reduces(c, [0, 1, 2], ahead, 3, 11, [0, 1, 27]);
      Reduces(Step(TABLES, c), [0, 1, 27], ahead, 3, 6, [0, 1, 25]);
    }
  }

  /** After that, a semicolon starts the next directive. */
  lemma SemicolonGoesOn(c: Config, ahead: seq<Token>)
    requires Stands(c, [0, 1, 25], ahead, 3) && ahead != [] && ahead[0].kind == SEMICOLON
    ensures Stands(Step(TABLES, Step(TABLES, c)), [0, 1, NEXT_DIRECTIVE], ahead[1..], 2)
  {
    hide ActionAt, LengthAt, R1At, GotoAt, Step, Stands;
    RecoveryActions(NextKind(ahead[1..]));
    Shifts(c, [0, 1, 25], ahead, 3, [0, 1, 25, 56], ahead[1..]);
    Reduces(Step(TABLES, c), [0, 1, 25, 56], ahead[1..], 2, 9, [0, 1, NEXT_DIRECTIVE]);
  }

  /** Anything else ends the file there. */
  lemma OtherEndsFile(c: Config, ahead: seq<Token>, errStatus: int)
    requires Stands(c, [0, 1, 25], ahead, errStatus) && NextKind(ahead) != SEMICOLON
    ensures Stands(Step(TABLES, Step(TABLES, c)), [0, FILE_READ], ahead, errStatus)
  {
    hide ActionAt, LengthAt, R1At, GotoAt, Step, Stands;
    RecoveryActions(NextKind(ahead));
    RecoveringGotos();
    Reduces(c, [0, 1, 25], ahead, errStatus, 3, [0, 1, 24]);
    Reduces(Step(TABLES, c), [0, 1, 24], ahead, errStatus, 2, [0, FILE_READ]);
  }

  /** Then a token is one too many. */
  lemma TokenRefused(c: Config, ahead: seq<Token>, errStatus: int)
    requires Stands(c, [0, FILE_READ], ahead, errStatus) && ahead != [] && KindAt(ahead[0].kind) && ahead[0].kind != 0
    ensures Step(TABLES, c).status.Aborted?
  {
    hide ActionAt, Lookup, Recover, Default;
    StatesAre(FILE_READ);
    LookupIs(FILE_READ, ahead[0].kind);
    FileReadActions(ahead[0].kind);
    NowhereToGo(Read(c));
  }

  /** And the end of input is what is wanted. */
  lemma EndAccepted(c: Config, errStatus: int)
    requires Stands(c, [0, FILE_READ], [], errStatus)
    ensures Step(TABLES, Step(TABLES, c)).status.Accepted?
  {
    hide ActionAt, Lookup, Default;
    StatesAre(FILE_READ);
    LookupIs(FILE_READ, 0);
    FileReadActions(0);
    StatesAre(125);
    LookupIs(125, 0);
    LastActions();
  }

  lemma LastActions()
    ensures ActionAt(125, 0) == 126 && TABLES.pact[125] != YYFLAG && TABLES.final == 126
  {
  }

  /** The configuration right after an error inside a file. */
  lemma ErrorStands(input: seq<Token>, c: Config) returns (after: bool)
    requires Inv(TABLES, CERT, input, c) && c.status.Running? && EndOnTop(c) && SkipsWell(c)
    requires |c.trees| > 0 && c.states[1] == IN_FILE && Choose(TABLES, c).1.Error?
    ensures Stands(Step(TABLES, c), if after then [0, 1, NEXT_DIRECTIVE, 2] else [0, 1, 2], Ahead(c), 3)
  {
    hide LrTables.Valid, Inv, Lookup, Default, Recover, Resumed, SkipsWell, Handler, IsOuter;
    TablesValid();
    InvStack(input, c);
    InvFlow(input, c);
    ErrorInFile(input, c);
    var c1 := Choose(TABLES, c).0;
    RecoverResumes(c1);
    var h := Handler(TABLES, c1.states, |c1.trees|);
    ResumedStands(c1, h);
    after := h == 2;
  }

  lemma InvFlow(input: seq<Token>, c: Config)
    requires Inv(TABLES, CERT, input, c)
    ensures (c.look.Eof? ==> c.rest == []) && InputOk(TABLES, Ahead(c))
  {
  }

  lemma ResumedStands(c: Config, h: nat)
    requires h < |c.states| == |c.trees| + 1 && c.status.Running? && (c.look.Eof? ==> c.rest == [])
    requires c.states[0] == 0 && (h == 1 || (h == 2 && c.states[2] == NEXT_DIRECTIVE)) && c.states[1] == IN_FILE
    ensures Stands(Resumed(c, h), if h == 2 then [0, 1, NEXT_DIRECTIVE, 2] else [0, 1, 2], Ahead(c), 3)
  {
    hide Yields;
  }

  /** An error inside a file is survived exactly if the token that it is met at is a semicolon, or if
      the input ends there. A semicolon then ends the skipped directive and the next one begins; the
      end of the input makes the file complete; and at any other token the parser gives up. */
  lemma {:induction false} ErrorSurvived(input: seq<Token>, n: nat)
    requires InputOk(TABLES, input) && InFileError(TABLES, Run(TABLES, input, n))
    ensures var ahead := Ahead(Run(TABLES, input, n));
      && (ahead == [] ==> Run(TABLES, input, n + 7).status.Accepted?)
      && (ahead != [] && ahead[0].kind == SEMICOLON ==>
            Stands(Run(TABLES, input, n + 5), [0, 1, NEXT_DIRECTIVE], ahead[1..], 2))
      && (ahead != [] && ahead[0].kind != SEMICOLON ==> Run(TABLES, input, n + 6).status.Aborted?)
  {
    hide LrTables.Valid, Inv, EndOnTop, SkipsWell, Step, Stands;
    TablesValid();
    RunSound(TABLES, CERT, input, n);
    RunEndOnTop(TABLES, CERT, input, n);
    RunSkipsWell(input, n);
    var c := Run(TABLES, input, n);
    var ahead := Ahead(c);
    InvFlow(input, c);
    var after := ErrorStands(input, c);
    hide Run;
    NextStep(input, n);
    TwoSteps(input, n + 1);
    TwoSteps(input, n + 3);
    TwoSteps(input, n + 5);
    ErrorReduced(Run(TABLES, input, n + 1), ahead, after);
    if ahead != [] && ahead[0].kind == SEMICOLON {
      SemicolonGoesOn(Run(TABLES, input, n + 3), ahead);
    } else {
      OtherEndsFile(Run(TABLES, input, n + 3), ahead, 3);
      if ahead == [] {
        EndAccepted(Run(TABLES, input, n + 5), 3);
      } else {
        StatesAre(ahead[0].kind);
        TokenRefused(Run(TABLES, input, n + 5), ahead, 3);
      }
    }
  }

  lemma NextStep(input: seq<Token>, n: nat)
    ensures Run(TABLES, input, n + 1) == Step(TABLES, Run(TABLES, input, n))
  {
    hide Step;
  }

  lemma TwoSteps(input: seq<Token>, n: nat)
    ensures Run(TABLES, input, n + 1) == Step(TABLES, Run(TABLES, input, n))
    ensures Run(TABLES, input, n + 2) == Step(TABLES, Step(TABLES, Run(TABLES, input, n)))
  {
    hide Step;
    NextStep(input, n);
    NextStep(input, n + 1);
  }

  /** The next step meets an error inside a file. */
  ghost predicate InFileError(t: Tables, c: Config) {
    && c.status.Running? && |c.states| == |c.trees| + 1 > 1 && c.states[1] == IN_FILE
    && IsState(t, c.states[|c.trees|]) && Choose(t, c).1.Error?
  }

  /** The next step meets a token after a whole file. */
  ghost predicate FileGoesOn(c: Config) {
    c.status.Running? && c.states == [0, FILE_READ] && |c.trees| == 1 && Ahead(c) != []
  }

  lemma FileGoesOnAborts(input: seq<Token>, c: Config)
    requires Inv(TABLES, CERT, input, c) && FileGoesOn(c)
    ensures Step(TABLES, c).status.Aborted?
  {
    hide LrTables.Valid, Inv, Step;
    InvFlow(input, c);
    StatesAre(Ahead(c)[0].kind);
    TokenRefused(c, Ahead(c), c.errStatus);
  }

  /** The one way in which a step gives up. */
  lemma {:induction false} AbortsWhen(input: seq<Token>, c: Config)
    requires Inv(TABLES, CERT, input, c) && c.status.Running? && EndOnTop(c) && SkipsWell(c)
    ensures Step(TABLES, c).status.Aborted? <==> FileGoesOn(c)
  {
    hide LrTables.Valid, Inv, EndOnTop, SkipsWell, Lookup, Default, Recover, Perform, Stands;
    TablesValid();
    InvStack(input, c);
    InvFlow(input, c);
    StepChooses(TABLES, CERT, input, c);
    var (c1, a) := Choose(TABLES, c);
    if FileGoesOn(c) {
      FileGoesOnAborts(input, c);
    } else if a.Error? {
      ErrorsMet(input, c);
      if c.states[1] == IN_FILE {
        var after := ErrorStands(input, c);
        StandsRunning(Step(TABLES, c), if after then [0, 1, NEXT_DIRECTIVE, 2] else [0, 1, 2], Ahead(c), 3);
      } else {
        TokenAhead(c);
      }
    } else {
      PerformGoesOn(c1, a);
    }
  }

  lemma TokenAhead(c: Config)
    requires |c.states| > 0 && IsState(TABLES, c.states[|c.states| - 1]) && Choose(TABLES, c).0.look.Tok?
    ensures Ahead(c) != []
  {
    hide Lookup, Default;
  }

  lemma StandsRunning(c: Config, states: seq<int>, ahead: seq<Token>, errStatus: int)
    requires Stands(c, states, ahead, errStatus)
    ensures c.status.Running?
  {
  }

  lemma PerformGoesOn(c: Config, a: Action)
    requires c.status.Running? && |c.states| == |c.trees| + 1 && !a.Error?
    ensures !Perform(TABLES, c, a).status.Aborted?
  {
    hide Recover;
  }

  /** A run gives up if and only if it meets an error at a token that is not a semicolon, inside a
      file, or at any token after a whole file. */
  lemma {:induction false} GivesUpIff(input: seq<Token>)
    requires InputOk(TABLES, input)
    ensures LastConfig(TABLES, WEIGHTS, input).status.Aborted? <==>
            exists n: nat :: Refuses(TABLES, Run(TABLES, input, n))
  {
    hide Run, LastConfig, LrTables.Valid, Weighted, Refuses, StepBound;
    TablesValid();
    TablesWeighted();
    var last := StepBound(WEIGHTS, input);
    LastIs(input);
    Terminates(TABLES, CERT, WEIGHTS, input);
    if Run(TABLES, input, last).status.Aborted? {
      var n := AbortedAt(input, last);
      assert Refuses(TABLES, Run(TABLES, input, n));
    }
    if n: nat :| Refuses(TABLES, Run(TABLES, input, n)) {
      var m := RefusalAborts(input, n);
      if m <= last {
        RunStays(TABLES, input, m, last);
      } else {
        RunStays(TABLES, input, last, m);
      }
    }
  }

  ghost predicate Refuses(t: Tables, c: Config) {
    FileGoesOn(c) || (InFileError(t, c) && Ahead(c) != [] && Ahead(c)[0].kind != SEMICOLON)
  }

  lemma LastIs(input: seq<Token>)
    ensures LastConfig(TABLES, WEIGHTS, input) == Run(TABLES, input, StepBound(WEIGHTS, input))
  {
    hide Run, StepBound;
  }

  lemma {:induction false} AbortedAt(input: seq<Token>, n: nat) returns (m: nat)
    requires InputOk(TABLES, input) && Run(TABLES, input, n).status.Aborted?
    ensures m < n && FileGoesOn(Run(TABLES, input, m)) && Refuses(TABLES, Run(TABLES, input, m))
  {
    hide Step, LrTables.Valid, Inv, EndOnTop, SkipsWell, FileGoesOn, InFileError;
    TablesValid();
    m := n - 1;
    var c := Run(TABLES, input, m);
    if c.status.Running? {
      RunSound(TABLES, CERT, input, m);
      RunEndOnTop(TABLES, CERT, input, m);
      RunSkipsWell(input, m);
      AbortsWhen(input, c);
    } else {
      StepStays(TABLES, c);
      m := AbortedAt(input, n - 1);
    }
  }

  lemma RefusalAborts(input: seq<Token>, n: nat) returns (m: nat)
    requires InputOk(TABLES, input) && Refuses(TABLES, Run(TABLES, input, n))
    ensures Run(TABLES, input, m).status.Aborted?
  {
    hide Step, LrTables.Valid, Inv, FileGoesOn, InFileError;
    if FileGoesOn(Run(TABLES, input, n)) {
      TablesValid();
      RunSound(TABLES, CERT, input, n);
      FileGoesOnAborts(input, Run(TABLES, input, n));
      m := n + 1;
    } else {
      ErrorSurvived(input, n);
      m := n + 6;
    }
  }
}
