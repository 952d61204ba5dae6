/** Whole-run soundness of the LR engine, with error recovery, for any tables that pass the
    local check `LrTables.Valid`. */
module LrSoundness {
  import opened LrTables
  import opened LrTrees
  import opened LrEngine

  /** The state reached from `p` by pushing `tree`, or -1. */
  function Move(t: Tables, p: int, tree: Tree): int {
    if !IsState(t, p) then -1
    else match tree
      case Leaf(token) => Target(Lookup(t, p, token.kind))
      case End => Target(Lookup(t, p, YYEOF))
      case Skipped(_) => Target(ErrorLookup(t, p))
      case Node(r, _) => if IsRule(t, r) then Goto(t, p, t.r1[r]) else -1
  }

  function Target(a: Action): int {
    if a.Shift? then a.state else -1
  }

  /** `tree` could have been built by the automaton above state `p`: its inner nodes spell
      their rules, and each rule was wanted in the state its children were pushed on. */
  ghost predicate Built(t: Tables, c: Cert, p: int, tree: Tree)
    decreases tree
  {
    && IsState(t, p)
    && match tree
       case Leaf(token) => IsKind(t, token.kind) && token.kind != YYEOF
       case Node(r, kids) =>
         IsRule(t, r) && Item(c, p, r, 0) && Roots(t, kids) == t.rhs[r] && BuiltAll(t, c, p, kids)
       case _ => true
  }

  ghost predicate BuiltAll(t: Tables, c: Cert, p: int, trees: seq<Tree>)
    decreases trees
  {
    trees == [] || (Built(t, c, p, trees[0]) && BuiltAll(t, c, Move(t, p, trees[0]), trees[1..]))
  }

  /** The stack from position `i` up: each tree is built above its state and leads to the next. */
  ghost predicate StackOk(t: Tables, c: Cert, states: seq<int>, trees: seq<Tree>) {
    && |states| == |trees| + 1
    && states[0] == 0
    && (forall i | 0 <= i < |states| :: IsState(t, states[i]))
    && (forall i | 0 <= i < |trees| ::
          Built(t, c, states[i], trees[i]) && Move(t, states[i], trees[i]) == states[i + 1])
  }

  ghost predicate InputOk(t: Tables, input: seq<Token>) {
    forall i | 0 <= i < |input| :: IsKind(t, input[i].kind) && input[i].kind != YYEOF
  }

  /** What every reachable configuration satisfies. Stack contents, read-ahead and unread
      tokens together are the input; the counters pay for each other. */
  ghost predicate Inv(t: Tables, cert: Cert, input: seq<Token>, c: Config) {
    && c.status != Crashed
    && StackOk(t, cert, c.states, c.trees)
    && FlowOk(t, input, c)
    && ErrorsCounted(c)
  }

  /** Leaves and skipped segments, the token read ahead, and the unread tokens are the input. */
  ghost predicate FlowOk(t: Tables, input: seq<Token>, c: Config) {
    && (c.status != Aborted ==> Yields(c.trees) + Ahead(c) == input)
    && InputOk(t, Ahead(c))
    && (c.look.Eof? ==> c.rest == [])
  }

  function Ahead(c: Config): seq<Token> {
    Pending(c.look) + c.rest
  }

  /** Each report is paid for by three shifts, each entry to the error handler but the first
      by a shifted or a discarded token, unless it ended the run. */
  ghost predicate ErrorsCounted(c: Config) {
    && 0 <= c.errStatus <= 3 && 0 <= c.nerrs
    && (c.errors == 0 <==> c.nerrs == 0)
    && (c.errors == 0 ==> c.errStatus == 0 && AllClean(c.trees) && c.trace == Postorders(c.trees))
    && 3 * c.nerrs <= c.shifted + c.errStatus
    && c.errors <= c.shifted + c.discarded + (if c.errStatus == 3 then 1 else 0)
                   + (if c.status.Aborted? then 1 else 0)
  }

  // ---- Transitions keep the certificate -------------------------------------------------

  lemma MoveEntered(t: Tables, c: Cert, p: int, tree: Tree)
    requires Valid(t, c) && Built(t, c, p, tree) && IsState(t, Move(t, p, tree))
    ensures Entered(t, c, p, Root(t, tree), Move(t, p, tree))
  {
    match tree
    case Leaf(token) => assert ActionOk(t, c, p, token.kind, Lookup(t, p, token.kind));
    case End => assert ActionOk(t, c, p, YYEOF, Lookup(t, p, YYEOF));
    case Skipped(_) => assert ErrorOk(t, c, p, ErrorLookup(t, p));
    case Node(r, _) => assert Item(c, p, r, 0);
  }

  lemma NotAtBottom(t: Tables, c: Cert, r: int, k: nat)
    requires Valid(t, c) && k > 0
    ensures !Item(c, 0, r, k)
  {
    assert BottomOk(t, c);
  }

  lemma PopOk(t: Tables, c: Cert, states: seq<int>, trees: seq<Tree>, m: nat)
    requires StackOk(t, c, states, trees) && m <= |trees|
    ensures StackOk(t, c, states[..m + 1], trees[..m])
  {
    forall i | 0 <= i < m
      ensures Built(t, c, states[..m + 1][i], trees[..m][i])
      ensures Move(t, states[..m + 1][i], trees[..m][i]) == states[..m + 1][i + 1]
    {
      assert Built(t, c, states[i], trees[i]) && Move(t, states[i], trees[i]) == states[i + 1];
    }
  }

  /** One step down the stack: the last symbol of a dotted prefix is on top. */
  lemma TopSymbol(t: Tables, c: Cert, states: seq<int>, trees: seq<Tree>, r: int, k: nat)
    requires Valid(t, c) && StackOk(t, c, states, trees) && 0 < k
    requires Item(c, states[|trees|], r, k) && 0 <= r < |t.rhs| && k <= |t.rhs[r]|
    ensures |states| - 1 == |trees| > 0
    ensures Root(t, trees[|trees| - 1]) == t.rhs[r][k - 1] && Item(c, states[|trees| - 1], r, k - 1)
  {
    hide Valid, Built, Move, Item;
    var n := |trees|;
    NotAtBottom(t, c, r, k);
    assert n > 0;
    MoveEntered(t, c, states[n - 1], trees[n - 1]);
  }

  lemma RootsGrow(t: Tables, trees: seq<Tree>, k: nat, xs: seq<int>)
    requires 0 < k <= |trees| && 0 < |xs|
    requires Roots(t, trees[..|trees| - 1][|trees| - k..]) == xs[..|xs| - 1]
    requires Root(t, trees[|trees| - 1]) == xs[|xs| - 1]
    ensures Roots(t, trees[|trees| - k..]) == xs
  {
    var n := |trees|;
    var below := trees[..n - 1][n - k..];
    assert trees[n - k..] == below + [trees[n - 1]];
    assert xs == xs[..|xs| - 1] + [xs[|xs| - 1]];
  }

  /** The dotted rules of the top state describe the top of the stack. */
  lemma {:induction false} TopSpells(t: Tables, c: Cert, states: seq<int>, trees: seq<Tree>, r: int, k: nat)
    requires Valid(t, c) && StackOk(t, c, states, trees)
    requires Item(c, states[|trees|], r, k) && 0 <= r < |t.rhs| && k <= |t.rhs[r]|
    ensures k <= |trees|
    ensures Item(c, states[|trees| - k], r, 0)
    ensures Roots(t, trees[|trees| - k..]) == t.rhs[r][..k]
    decreases k
  {
    hide Valid, StackOk, Item, Root, Roots;
    var n := |trees|;
    if k > 0 {
      TopSymbol(t, c, states, trees, r, k);
      PopOk(t, c, states, trees, n - 1);
      TopSpells(t, c, states[..n], trees[..n - 1], r, k - 1);
      assert t.rhs[r][..k][..k - 1] == t.rhs[r][..k - 1];
      RootsGrow(t, trees, k, t.rhs[r][..k]);
    }
  }

  /** A stretch of the stack is built above the state below it. */
  lemma {:induction false} SegmentBuilt(t: Tables, c: Cert, states: seq<int>, trees: seq<Tree>, m: nat)
    requires StackOk(t, c, states, trees) && m <= |trees|
    ensures BuiltAll(t, c, states[m], trees[m..])
    decreases |trees| - m
  {
    if m < |trees| {
      SegmentBuilt(t, c, states, trees, m + 1);
      assert trees[m..][1..] == trees[m + 1..];
    }
  }

  // ---- Each kind of step keeps the invariant ----------------------------------------------

  lemma PushOk(t: Tables, c: Cert, states: seq<int>, trees: seq<Tree>, n: int, tree: Tree)
    requires StackOk(t, c, states, trees) && IsState(t, n)
    requires Built(t, c, states[|trees|], tree) && Move(t, states[|trees|], tree) == n
    ensures StackOk(t, c, states + [n], trees + [tree])
    ensures Yields(trees + [tree]) == Yields(trees) + Yield(tree)
    ensures Postorders(trees + [tree]) == Postorders(trees) + Postorder(tree)
    ensures AllClean(trees + [tree]) == (AllClean(trees) && Clean(tree))
  {
    YieldsConcat(trees, [tree]);
    PostordersConcat(trees, [tree]);
    AllCleanConcat(trees, [tree]);
    assert Yields([tree]) == Yield(tree) && Postorders([tree]) == Postorder(tree);
  }

  lemma SplitAt(trees: seq<Tree>, m: nat)
    requires m <= |trees|
    ensures Yields(trees) == Yields(trees[..m]) + Yields(trees[m..])
    ensures Postorders(trees) == Postorders(trees[..m]) + Postorders(trees[m..])
    ensures AllClean(trees) == (AllClean(trees[..m]) && AllClean(trees[m..]))
  {
    assert trees == trees[..m] + trees[m..];
    YieldsConcat(trees[..m], trees[m..]);
    PostordersConcat(trees[..m], trees[m..]);
    AllCleanConcat(trees[..m], trees[m..]);
  }

  lemma Regroup(a: seq<Token>, b: seq<Token>, c: seq<Token>)
    ensures a + (b + c) == (a + b) + c
  {
  }

  lemma ReadKeepsInv(t: Tables, cert: Cert, input: seq<Token>, c: Config)
    requires Inv(t, cert, input, c) && IsKind(t, YYEOF)
    ensures Inv(t, cert, input, Read(c)) && !Read(c).look.Empty?
    ensures IsKind(t, Kind(Read(c).look)) && (Kind(Read(c).look) == YYEOF <==> Read(c).look.Eof?)
  {
    assert Ahead(Read(c)) == Ahead(c);
    if Read(c).look.Tok? {
      assert Ahead(c)[0] == Read(c).look.token;
    }
  }

  /** Consuming the lookahead moves it from ahead of the parser onto the stack. */
  lemma TakeLook(t: Tables, input: seq<Token>, c: Config, onStack: seq<Token>)
    requires InputOk(t, Ahead(c)) && onStack + Ahead(c) == input
    ensures (onStack + Pending(c.look)) + c.rest == input && InputOk(t, c.rest)
  {
    Regroup(onStack, Pending(c.look), c.rest);
    assert c.rest == Ahead(c)[|Pending(c.look)|..];
  }

  lemma ShiftKeepsInv(t: Tables, cert: Cert, input: seq<Token>, c: Config, n: int)
    requires Valid(t, cert) && Inv(t, cert, input, c) && c.status.Running? && !c.look.Empty?
    requires IsKind(t, Kind(c.look)) && (Kind(c.look) == YYEOF <==> c.look.Eof?)
    requires Lookup(t, c.states[|c.trees|], Kind(c.look)) == Shift(n)
    ensures Inv(t, cert, input, ShiftToken(c, n))
  {
    var leaf := if c.look.Tok? then Leaf(c.look.token) else End;
    assert ActionOk(t, cert, c.states[|c.trees|], Kind(c.look), Shift(n));
    PushOk(t, cert, c.states, c.trees, n, leaf);
    TakeLook(t, input, c, Yields(c.trees));
    var d := ShiftToken(c, n);
    assert Yield(leaf) == Pending(c.look) && Ahead(d) == c.rest;
  }

  lemma ReduceKeepsInv(t: Tables, cert: Cert, input: seq<Token>, c: Config, r: int)
    requires Valid(t, cert) && Inv(t, cert, input, c) && c.status.Running?
    requires IsRule(t, r) && Item(cert, c.states[|c.trees|], r, |t.rhs[r]|)
    ensures Inv(t, cert, input, ReduceBy(t, c, r))
  {
    var k := |t.rhs[r]|;
    TopSpells(t, cert, c.states, c.trees, r, k);
    var m := |c.trees| - k;
    assert t.rhs[r][..k] == t.rhs[r];
    SegmentBuilt(t, cert, c.states, c.trees, m);
    PopOk(t, cert, c.states, c.trees, m);
    SplitAt(c.trees, m);
    var tree := Node(r, c.trees[m..]);
    assert Entered(t, cert, c.states[m], t.r1[r], Goto(t, c.states[m], t.r1[r]));
    PushOk(t, cert, c.states[..m + 1], c.trees[..m], Goto(t, c.states[m], t.r1[r]), tree);
    assert Postorders(c.trees) + [r] ==
           Postorders(c.trees[..m]) + (Postorders(c.trees[m..]) + [r]);
  }

  lemma RecoverCounts(t: Tables, c: Config)
    requires ErrorsCounted(c) && |c.states| == |c.trees| + 1 && !c.look.Empty? && c.status.Running?
    requires Recover(t, c).trace == c.trace && Recover(t, c).status != Crashed
    ensures ErrorsCounted(Recover(t, c))
  {
    var h := Handler(t, c.states, |c.trees|);
  }

  /** What recovery pushes: the popped input and the discarded token, as one segment. */
  lemma RecoverShifts(t: Tables, cert: Cert, c: Config, h: nat, dropped: seq<Token>)
    requires Valid(t, cert) && StackOk(t, cert, c.states, c.trees) && h <= |c.trees|
    requires ErrorLookup(t, c.states[h]).Shift?
    ensures var n := ErrorLookup(t, c.states[h]).state;
            var trees := c.trees[..h] + [Skipped(Yields(c.trees[h..]) + dropped)];
            StackOk(t, cert, c.states[..h + 1] + [n], trees) && Yields(trees) == Yields(c.trees) + dropped
  {
    var n := ErrorLookup(t, c.states[h]).state;
    assert ErrorOk(t, cert, c.states[h], ErrorLookup(t, c.states[h]));
    PopOk(t, cert, c.states, c.trees, h);
    PushOk(t, cert, c.states[..h + 1], c.trees[..h], n, Skipped(Yields(c.trees[h..]) + dropped));
    SplitAt(c.trees, h);
    Regroup(Yields(c.trees[..h]), Yields(c.trees[h..]), dropped);
  }

  /** Recovery leaves either a well-built stack or an aborted run. */
  lemma RecoverStack(t: Tables, cert: Cert, c: Config)
    requires Valid(t, cert) && StackOk(t, cert, c.states, c.trees) && c.status.Running? && !c.look.Empty?
    ensures |c.states| == |c.trees| + 1
    ensures var d := Recover(t, c);
            && StackOk(t, cert, d.states, d.trees) && d.status != Crashed && d.trace == c.trace
            && (d.status != Aborted ==>
                  Yields(d.trees) == Yields(c.trees) + (if c.errStatus == 3 then Pending(c.look) else []))
  {
    hide Built, Entered, Move;
    var h := Handler(t, c.states, |c.trees|);
    if !(c.errStatus == 3 && c.look.Eof?) && h >= 0 {
      assert ErrorOk(t, cert, c.states[h], ErrorLookup(t, c.states[h]));
      RecoverShifts(t, cert, c, h, if c.errStatus == 3 then Pending(c.look) else []);
    }
  }

  lemma RecoverFlow(t: Tables, input: seq<Token>, c: Config)
    requires FlowOk(t, input, c) && |c.states| == |c.trees| + 1 && c.status.Running?
    requires var d := Recover(t, c);
             d.status != Aborted && d.status != Crashed && d.trace == c.trace ==>
               Yields(d.trees) == Yields(c.trees) + (if c.errStatus == 3 then Pending(c.look) else [])
    requires Recover(t, c).trace == c.trace && Recover(t, c).status != Crashed
    ensures FlowOk(t, input, Recover(t, c))
  {
    TakeLook(t, input, c, Yields(c.trees));
    var d := Recover(t, c);
    if d.status != Aborted && c.errStatus == 3 {
      assert Ahead(d) == c.rest;
    } else if d.look == c.look {
      assert Ahead(d) == Ahead(c);
    } else {
      assert Ahead(d) == c.rest;
    }
  }

  lemma RecoverKeepsInv(t: Tables, cert: Cert, input: seq<Token>, c: Config)
    requires Valid(t, cert) && Inv(t, cert, input, c) && c.status.Running? && !c.look.Empty?
    ensures Inv(t, cert, input, Recover(t, c))
  {
    hide Recover, StackOk, Valid, FlowOk, ErrorsCounted;
    RecoverStack(t, cert, c);
    RecoverCounts(t, c);
    RecoverFlow(t, input, c);
  }

  lemma {:induction false} StepKeepsInv(t: Tables, cert: Cert, input: seq<Token>, c: Config)
    requires Valid(t, cert) && Inv(t, cert, input, c)
    ensures Inv(t, cert, input, Step(t, c))
  {
    if c.status.Running? {
      var s := c.states[|c.trees|];
      assert BottomOk(t, cert) && IsState(t, s);
      assert ActionsOk(t, cert);
      if t.pact[s] == YYFLAG {
        assert Lookup(t, s, 0) == Default(t, s);
        assert ActionOk(t, cert, s, 0, Default(t, s));
        ReduceKeepsInv(t, cert, input, c, Default(t, s).rule);
      } else {
        ReadKeepsInv(t, cert, input, c);
        var c1 := Read(c);
        var a := Lookup(t, s, Kind(c1.look));
        assert ActionOk(t, cert, s, Kind(c1.look), a);
        match a
        case Shift(n) => ShiftKeepsInv(t, cert, input, c1, n);
        case Reduce(r) => ReduceKeepsInv(t, cert, input, c1, r);
        case Accept =>
        case Error => RecoverKeepsInv(t, cert, input, c1);
      }
    }
  }

  /** Every configuration of every run, with or without syntax errors: no table access is out
      of range, no pop underflows, every reduction replaced symbols that spell its rule, and
      leaves and skipped segments in stack order are exactly the input consumed so far. */
  lemma {:induction false} RunSound(t: Tables, cert: Cert, input: seq<Token>, n: nat)
    requires Valid(t, cert) && InputOk(t, input)
    ensures Inv(t, cert, input, Run(t, input, n))
  {
    if n == 0 {
      assert BottomOk(t, cert);
      assert [] + ([] + input) == input;
    } else {
      RunSound(t, cert, input, n - 1);
      StepKeepsInv(t, cert, input, Run(t, input, n - 1));
    }
  }

  lemma {:induction false} NeverCrashes(t: Tables, cert: Cert, input: seq<Token>, n: nat)
    requires Valid(t, cert) && InputOk(t, input)
    ensures Run(t, input, n).status != Crashed
  {
    RunSound(t, cert, input, n);
  }

  /** What a step of a reachable configuration starts from. */
  lemma StepChooses(t: Tables, cert: Cert, input: seq<Token>, c: Config)
    requires Valid(t, cert) && Inv(t, cert, input, c) && c.status.Running?
    ensures |c.states| == |c.trees| + 1 && IsState(t, c.states[|c.trees|])
    ensures var (c1, a) := Choose(t, c);
            && Step(t, c) == Perform(t, c1, a) && Perform(t, c1, a).status != Crashed
            && StackOk(t, cert, c1.states, c1.trees) && ErrorsOk(t, cert)
            && (!a.Reduce? ==> !c1.look.Empty?)
  {
    assert DefaultsOk(t);
    StepKeepsInv(t, cert, input, c);
  }

  // ---- What acceptance means --------------------------------------------------------------

  /** `Accept` is performed only with exactly "start symbol, end of input" on the stack. */
  lemma AcceptShape(t: Tables, cert: Cert, input: seq<Token>, c: Config)
    requires Valid(t, cert) && Inv(t, cert, input, c) && Item(cert, c.states[|c.trees|], 0, 2)
    ensures |c.trees| == 2 && Root(t, c.trees[0]) == Start(t) && Root(t, c.trees[1]) == YYEOF
  {
    assert BottomOk(t, cert);
    TopSpells(t, cert, c.states, c.trees, 0, 2);
    var n := |c.trees|;
    assert c.states[n - 2] == 0;
    if n > 2 {
      MoveEntered(t, cert, c.states[n - 3], c.trees[n - 3]);
    }
    assert Roots(t, c.trees[n - 2..])[0] == Start(t);
    assert Roots(t, c.trees[n - 2..])[1] == YYEOF;
  }

  lemma {:induction false} BuiltIsDerivation(t: Tables, c: Cert, p: int, tree: Tree)
    requires Built(t, c, p, tree)
    ensures Derivation(t, tree)
    decreases tree
  {
    if tree.Node? {
      BuiltAllIsDerivation(t, c, p, tree.kids);
    }
  }

  lemma {:induction false} BuiltAllIsDerivation(t: Tables, c: Cert, p: int, trees: seq<Tree>)
    requires BuiltAll(t, c, p, trees)
    ensures Derivations(t, trees)
    decreases trees
  {
    if trees != [] {
      BuiltIsDerivation(t, c, p, trees[0]);
      BuiltAllIsDerivation(t, c, Move(t, p, trees[0]), trees[1..]);
    }
  }

  /** The result of an accepting run: its one tree derives the start symbol, its yield is all
      of the input, and without a syntax error it has no skipped part and the rules were
      reduced by in its postorder. */
  ghost predicate Parsed(t: Tables, cert: Cert, input: seq<Token>, c: Config) {
    && |c.trees| == 2 && c.trees[1] == End
    && Root(t, c.trees[0]) == Start(t)
    && Built(t, cert, 0, c.trees[0]) && Derivation(t, c.trees[0])
    && Yield(c.trees[0]) == input
    && (c.nerrs == 0 ==> Clean(c.trees[0]) && c.trace == Postorder(c.trees[0]))
  }

  lemma TreeAndEnd(tree: Tree)
    ensures Yields([tree, End]) == Yield(tree)
    ensures Postorders([tree, End]) == Postorder(tree)
    ensures AllClean([tree, End]) == Clean(tree)
  {
    assert [tree, End][1..] == [End] && [End][1..] == [];
    assert Yields([End]) == [] && Postorders([End]) == [];
  }

  lemma StepAccepts(t: Tables, cert: Cert, input: seq<Token>, c: Config)
    requires Valid(t, cert) && Inv(t, cert, input, c) && c.status.Running?
    requires Step(t, c).status.Accepted?
    ensures Parsed(t, cert, input, Step(t, c))
  {
    var s := c.states[|c.trees|];
    var c1 := Read(c);
    assert BottomOk(t, cert) && ActionsOk(t, cert) && t.pact[s] != YYFLAG;
    ReadKeepsInv(t, cert, input, c);
    assert ActionOk(t, cert, s, Kind(c1.look), Lookup(t, s, Kind(c1.look)));
    assert c1.look.Eof?;
    AcceptShape(t, cert, input, c1);
    assert Built(t, cert, c1.states[1], c1.trees[1]) && IsRule(t, -1) == false;
    assert c1.trees[1] == End;
    BuiltIsDerivation(t, cert, 0, c1.trees[0]);
    assert c1.trees == [c1.trees[0], End];
    TreeAndEnd(c1.trees[0]);
    assert Ahead(c1) == [];
  }

  /** LR soundness: acceptance proves that the input is a sentence, up to skipped segments. */
  lemma {:induction false} AcceptSound(t: Tables, cert: Cert, input: seq<Token>, n: nat)
    requires Valid(t, cert) && InputOk(t, input) && Run(t, input, n).status.Accepted?
    ensures Parsed(t, cert, input, Run(t, input, n))
  {
    var c := Run(t, input, n - 1);
    RunSound(t, cert, input, n - 1);
    if c.status.Running? {
      StepAccepts(t, cert, input, c);
    } else {
      AcceptSound(t, cert, input, n - 1);
    }
  }

  /** Syntax errors are counted at most once per three shifted tokens after the first, and every
      entry to the error handler but the first consumes a token or ends the run. */
  lemma {:induction false} ErrorAccounting(t: Tables, cert: Cert, input: seq<Token>, n: nat)
    requires Valid(t, cert) && InputOk(t, input)
    ensures var c := Run(t, input, n);
            && 3 * (c.nerrs - 1) <= c.shifted
            && (c.status != Aborted ==> c.errors - 1 <= c.shifted + c.discarded)
            && c.errors - 2 <= c.shifted + c.discarded
  {
    RunSound(t, cert, input, n);
  }

  lemma StepWithoutRecovery(t: Tables, cert: Cert, input: seq<Token>, c: Config)
    requires forall s :: IsState(t, s) ==> ErrorLookup(t, s).Error?
    requires |c.states| == |c.trees| + 1
    ensures Step(t, c).status != Aborted ==> c.status != Aborted && Step(t, c).errors == c.errors
  {
    var h := Handler(t, c.states, |c.trees|);
    assert h < 0;
  }

  /** In tables where no state takes the `error` token, a syntax error always ends the run. */
  lemma {:induction false} NoRecovery(t: Tables, cert: Cert, input: seq<Token>, n: nat)
    requires Valid(t, cert) && InputOk(t, input)
    requires forall s :: IsState(t, s) ==> ErrorLookup(t, s).Error?
    ensures var c := Run(t, input, n); c.status != Aborted ==> c.errors == 0
  {
    hide Valid, Step;
    if n > 0 {
      RunSound(t, cert, input, n - 1);
      NoRecovery(t, cert, input, n - 1);
      StepWithoutRecovery(t, cert, input, Run(t, input, n - 1));
    }
  }

  /** A tree that the parser can have built without recovering: leaves are tokens. */
  ghost predicate Proper(t: Tables, tree: Tree)
    decreases tree
  {
    match tree
    case Leaf(token) => IsKind(t, token.kind) && token.kind != YYEOF
    case End => true
    case Skipped(_) => false
    case Node(_, kids) => AllProper(t, kids)
  }

  ghost predicate AllProper(t: Tables, trees: seq<Tree>)
    decreases trees
  {
    trees == [] || (Proper(t, trees[0]) && AllProper(t, trees[1..]))
  }

  lemma {:induction false} BuiltIsProper(t: Tables, c: Cert, p: int, tree: Tree)
    requires Built(t, c, p, tree) && Clean(tree)
    ensures Proper(t, tree)
    decreases tree
  {
    if tree.Node? {
      AllBuiltIsProper(t, c, p, tree.kids);
    }
  }

  lemma {:induction false} AllBuiltIsProper(t: Tables, c: Cert, p: int, trees: seq<Tree>)
    requires BuiltAll(t, c, p, trees) && AllClean(trees)
    ensures AllProper(t, trees)
    decreases trees
  {
    if trees != [] {
      BuiltIsProper(t, c, p, trees[0]);
      AllBuiltIsProper(t, c, Move(t, p, trees[0]), trees[1..]);
    }
  }
}
