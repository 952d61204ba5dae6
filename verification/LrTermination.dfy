/** yyparse always returns: a bound on its steps for any valid tables whose grammar has
    symbol weights that rule out idle reductions. */
module LrTermination {
  import opened LrTables
  import opened LrTrees
  import opened LrEngine
  import opened LrSoundness

  /** Weights that every reduction pays into: a rule's left side weighs less than its right
      side, a token weighs at most `token`, and nothing weighs less than `-debt`. */
  datatype Weights = Weights(of: int -> int, token: nat, debt: nat)

  function Weight(w: Weights, x: int): int {
    w.of(x)
  }

  function Sum(w: Weights, xs: seq<int>): int {
    if xs == [] then 0 else Weight(w, xs[0]) + Sum(w, xs[1..])
  }

  ghost predicate Weighted(t: Tables, w: Weights) {
    && (forall x :: 0 <= Weight(w, x) + w.debt)
    && (forall x :: IsKind(t, x) ==> Weight(w, x) <= w.token)
    && Weight(w, YYEOF) <= 0 && Weight(w, YYTERROR) <= 0
    && (forall r :: IsRule(t, r) ==> Weight(w, t.r1[r]) + 1 <= Sum(w, t.rhs[r]))
  }

  /** The number of reductions that built a tree. */
  function Size(tree: Tree): nat {
    match tree
    case Node(_, kids) => 1 + Sizes(kids)
    case _ => 0
  }

  function Sizes(trees: seq<Tree>): nat {
    if trees == [] then 0 else Size(trees[0]) + Sizes(trees[1..])
  }

  lemma {:induction false} SizesConcat(a: seq<Tree>, b: seq<Tree>)
    ensures Sizes(a + b) == Sizes(a) + Sizes(b)
  {
    if a == [] {
      assert a + b == b;
    } else {
      SizesConcat(a[1..], b);
      assert (a + b)[1..] == a[1..] + b;
    }
  }

  /** Tokens pay for the reductions above them. */
  lemma {:induction false} SizeBound(t: Tables, cert: Cert, w: Weights, p: int, tree: Tree)
    requires Weighted(t, w) && Built(t, cert, p, tree)
    ensures Size(tree) + Weight(w, Root(t, tree)) <= w.token * |Yield(tree)|
    decreases tree
  {
    match tree
    case Leaf(_) =>
    case End =>
    case Skipped(_) =>
    case Node(r, kids) => SizesBound(t, cert, w, p, kids);
  }

  lemma {:induction false} SizesBound(t: Tables, cert: Cert, w: Weights, p: int, trees: seq<Tree>)
    requires Weighted(t, w) && BuiltAll(t, cert, p, trees)
    ensures Sizes(trees) + Sum(w, Roots(t, trees)) <= w.token * |Yields(trees)|
    decreases trees
  {
    if trees != [] {
      SizeBound(t, cert, w, p, trees[0]);
      SizesBound(t, cert, w, Move(t, p, trees[0]), trees[1..]);
      assert |Yields(trees)| == |Yield(trees[0])| + |Yields(trees[1..])|;
      Distribute(w.token, |Yield(trees[0])|, |Yields(trees[1..])|);
      assert Roots(t, trees)[1..] == Roots(t, trees[1..]);
    }
  }

  lemma Distribute(k: nat, a: nat, b: nat)
    ensures k * (a + b) == k * a + k * b
  {
  }

  lemma Monotone(k: nat, a: nat, b: nat)
    requires a <= b
    ensures k * a <= k * b
  {
    Distribute(k, a, b - a);
  }

  lemma {:induction false} SumBound(w: Weights, xs: seq<int>)
    requires forall x :: 0 <= Weight(w, x) + w.debt
    ensures 0 <= Sum(w, xs) + w.debt * |xs|
  {
    if xs != [] {
      SumBound(w, xs[1..]);
      Distribute(w.debt, 1, |xs| - 1);
    }
  }

  /** More reductions than this cannot be on the stack: it holds fewer than YYMAXDEPTH trees. */
  function Cap(w: Weights, input: seq<Token>): nat {
    w.token * |input| + w.debt * YYMAXDEPTH
  }

  lemma StackBound(t: Tables, cert: Cert, w: Weights, input: seq<Token>, c: Config)
    requires Valid(t, cert) && Weighted(t, w) && Inv(t, cert, input, c)
    requires c.status.Running? && |c.trees| <= YYMAXDEPTH
    ensures Sizes(c.trees) <= Cap(w, input)
  {
    SegmentBuilt(t, cert, c.states, c.trees, 0);
    assert c.trees[0..] == c.trees;
    SizesBound(t, cert, w, 0, c.trees);
    SumBound(w, Roots(t, c.trees));
    Monotone(w.token, |Yields(c.trees)|, |input|);
    Monotone(w.debt, |c.trees|, YYMAXDEPTH);
  }

  /** End of input sits only on top of the stack, and the next step then accepts. */
  ghost predicate EndOnTop(c: Config) {
    && (c.status.Running? ==> |c.states| < YYMAXDEPTH)
    && forall i | 0 <= i < |c.trees| && c.trees[i] == End :: i == |c.trees| - 1 && c.look.Eof?
  }

  predicate AtEnd(c: Config) {
    |c.trees| > 0 && c.trees[|c.trees| - 1] == End
  }

  lemma EndAccepts(t: Tables, cert: Cert, input: seq<Token>, c: Config)
    requires Valid(t, cert) && Inv(t, cert, input, c) && EndOnTop(c) && AtEnd(c) && c.status.Running?
    ensures Step(t, c).status.Accepted?
  {
    var p := c.states[|c.trees| - 1];
    assert Move(t, p, End) == c.states[|c.trees|];
    assert EndOk(t);
  }

  /** Decreases when a token is consumed, when end of input is shifted, and when recovery
      starts; reductions leave it alone. */
  function Phase(c: Config): nat {
    4 * |Ahead(c)| + (if AtEnd(c) then 0 else 2) + (if c.errStatus == 3 then 0 else 1)
  }

  lemma ReducePhase(t: Tables, c: Config, r: int)
    requires |c.states| == |c.trees| + 1 && !AtEnd(c) && EndOnTop(c)
    requires ReduceBy(t, c, r).status.Running?
    ensures Phase(ReduceBy(t, c, r)) == Phase(c)
    ensures Sizes(ReduceBy(t, c, r).trees) == Sizes(c.trees) + 1
    ensures EndOnTop(ReduceBy(t, c, r))
  {
    var m := |c.trees| - |t.rhs[r]|;
    var node := Node(r, c.trees[m..]);
    assert c.trees == c.trees[..m] + c.trees[m..];
    SizesConcat(c.trees[..m], c.trees[m..]);
    SizesConcat(c.trees[..m], [node]);
  }

  lemma ShiftPhase(c: Config, n: int)
    requires !c.look.Empty? && !AtEnd(c) && EndOnTop(c) && 0 <= c.errStatus <= 3
    ensures Phase(ShiftToken(c, n)) < Phase(c) && EndOnTop(ShiftToken(c, n))
  {
    var d := ShiftToken(c, n);
    assert |Ahead(d)| == |Ahead(c)| - (if c.look.Tok? then 1 else 0);
  }

  lemma RecoverPhase(t: Tables, cert: Cert, c: Config)
    requires Valid(t, cert) && StackOk(t, cert, c.states, c.trees) && !AtEnd(c) && EndOnTop(c)
    requires !c.look.Empty? && Recover(t, c).status.Running?
    ensures Phase(Recover(t, c)) < Phase(c) && EndOnTop(Recover(t, c))
  {
    var h := Handler(t, c.states, |c.trees|);
    assert ErrorOk(t, cert, c.states[h], ErrorLookup(t, c.states[h]));
    var d := Recover(t, c);
    assert |Ahead(d)| == |Ahead(c)| - (if c.errStatus == 3 then 1 else 0);
  }

  lemma ReadPhase(t: Tables, cert: Cert, input: seq<Token>, c: Config)
    requires Valid(t, cert) && Inv(t, cert, input, c) && EndOnTop(c)
    ensures var d := Read(c); Phase(d) == Phase(c) && EndOnTop(d) && !d.look.Empty? && d.trees == c.trees
    ensures StackOk(t, cert, Read(c).states, Read(c).trees)
  {
    assert Ahead(Read(c)) == Ahead(c);
  }

  lemma StepProgress(t: Tables, cert: Cert, input: seq<Token>, c: Config)
    requires Valid(t, cert) && Inv(t, cert, input, c) && EndOnTop(c)
    requires c.status.Running? && Step(t, c).status.Running?
    ensures EndOnTop(Step(t, c))
    ensures Phase(Step(t, c)) < Phase(c) ||
            (Phase(Step(t, c)) == Phase(c) && Sizes(Step(t, c).trees) == Sizes(c.trees) + 1)
  {
    if AtEnd(c) {
      EndAccepts(t, cert, input, c);
    }
    var s := c.states[|c.trees|];
    assert DefaultsOk(t);
    if t.pact[s] == YYFLAG {
      ReducePhase(t, c, Default(t, s).rule);
    } else {
      ReadPhase(t, cert, input, c);
      PerformPhase(t, cert, Read(c), Lookup(t, s, Kind(Read(c).look)));
    }
  }

  lemma PerformPhase(t: Tables, cert: Cert, c: Config, a: Action)
    requires Valid(t, cert) && StackOk(t, cert, c.states, c.trees) && !AtEnd(c) && EndOnTop(c)
    requires !c.look.Empty? && 0 <= c.errStatus <= 3 && Perform(t, c, a).status.Running?
    requires a != Accept
    ensures var d := Perform(t, c, a);
            && EndOnTop(d)
            && (Phase(d) < Phase(c) || (Phase(d) == Phase(c) && Sizes(d.trees) == Sizes(c.trees) + 1))
  {
    match a
    case Shift(n) => ShiftPhase(c, n);
    case Reduce(r) => ReducePhase(t, c, r);
    case Error => RecoverPhase(t, cert, c);
  }

  /** `n` times `k`, by addition only. */
  function Times(n: nat, k: nat): nat {
    if n == 0 then 0 else k + Times(n - 1, k)
  }

  lemma {:induction false} TimesMonotone(m: nat, n: nat, k: nat)
    requires m < n
    ensures Times(m, k) + k <= Times(n, k)
  {
    if m + 1 < n {
      TimesMonotone(m, n - 1, k);
    }
  }

  /** An upper bound on the steps still to come, if no more than `cap` reductions fit the stack. */
  function Fuel(cap: nat, c: Config): int {
    Times(Phase(c), cap + 1) + cap - Sizes(c.trees)
  }

  lemma {:induction false} StepFuel(t: Tables, cert: Cert, input: seq<Token>, cap: nat, c: Config)
    requires Valid(t, cert) && Inv(t, cert, input, c) && EndOnTop(c)
    requires c.status.Running? && Step(t, c).status.Running?
    requires Sizes(c.trees) <= cap && Sizes(Step(t, c).trees) <= cap
    ensures EndOnTop(Step(t, c))
    ensures 0 <= Fuel(cap, Step(t, c)) < Fuel(cap, c)
  {
    StepProgress(t, cert, input, c);
    if Phase(Step(t, c)) < Phase(c) {
      TimesMonotone(Phase(Step(t, c)), Phase(c), cap + 1);
    }
  }

  lemma WasRunning(t: Tables, c: Config)
    requires Step(t, c).status.Running?
    ensures c.status.Running?
  {
  }

  /** The stack bound holds all along a run. */
  lemma {:induction false} RunBound(t: Tables, cert: Cert, w: Weights, input: seq<Token>, n: nat)
    requires Valid(t, cert) && Weighted(t, w) && InputOk(t, input)
    requires Run(t, input, n).status.Running?
    ensures EndOnTop(Run(t, input, n)) && |Run(t, input, n).trees| <= YYMAXDEPTH
    ensures Sizes(Run(t, input, n).trees) <= Cap(w, input)
  {
    hide Step, Valid, Weighted, Cap;
    RunSound(t, cert, input, n);
    if n > 0 {
      var b := Run(t, input, n - 1);
      WasRunning(t, b);
      RunSound(t, cert, input, n - 1);
      RunBound(t, cert, w, input, n - 1);
      StepProgress(t, cert, input, b);
    }
    StackBound(t, cert, w, input, Run(t, input, n));
  }

  lemma {:induction false} RunFuel(t: Tables, cert: Cert, w: Weights, input: seq<Token>, n: nat)
    requires Valid(t, cert) && Weighted(t, w) && InputOk(t, input)
    requires Run(t, input, n).status.Running?
    ensures Fuel(Cap(w, input), Run(t, input, n)) <= Fuel(Cap(w, input), Init(input)) - n
  {
    hide Step, Inv, Valid, Weighted, Cap, Fuel, EndOnTop;
    if n > 0 {
      var b := Run(t, input, n - 1);
      WasRunning(t, b);
      RunSound(t, cert, input, n - 1);
      RunBound(t, cert, w, input, n - 1);
      RunBound(t, cert, w, input, n);
      RunFuel(t, cert, w, input, n - 1);
      StepFuel(t, cert, input, Cap(w, input), b);
    }
  }

  /** The bound: about four passes over the input, each with as many reductions as fit the stack. */
  function StepBound(w: Weights, input: seq<Token>): nat {
    Times(4 * |input| + 4, Cap(w, input) + 1)
  }

  /** yyparse returns within `StepBound` steps, whatever the input and however many errors. */
  lemma {:induction false} Terminates(t: Tables, cert: Cert, w: Weights, input: seq<Token>)
    requires Valid(t, cert) && Weighted(t, w) && InputOk(t, input)
    ensures !Run(t, input, StepBound(w, input)).status.Running?
  {
    hide Run, Inv, Valid, Weighted, Cap, EndOnTop;
    var n, cap := StepBound(w, input), Cap(w, input);
    assert Ahead(Init(input)) == input && Phase(Init(input)) == 4 * |input| + 3;
    if Run(t, input, n).status.Running? {
      RunFuel(t, cert, w, input, n);
      RunBound(t, cert, w, input, n);
      assert false;
    }
  }

  /** How a run ends. */
  function LastConfig(t: Tables, w: Weights, input: seq<Token>): Config {
    Run(t, input, StepBound(w, input))
  }

  lemma StepStays(t: Tables, c: Config)
    requires !c.status.Running?
    ensures Step(t, c) == c
  {
    hide Choose, Perform, IsState;
  }

  /** Once a run has ended it stays as it is. */
  lemma {:induction false} RunStays(t: Tables, input: seq<Token>, m: nat, n: nat)
    requires m <= n && !Run(t, input, m).status.Running?
    ensures Run(t, input, n) == Run(t, input, m)
  {
    hide Step;
    if m < n {
      RunStays(t, input, m, n - 1);
      StepStays(t, Run(t, input, m));
    }
  }

  // ---- Errors against the input ---------------------------------------------------------------

  /** Every token is shifted, discarded or still ahead; the end of input may be shifted as well. */
  ghost predicate TokensCounted(input: seq<Token>, c: Config) {
    c.shifted + c.discarded + |Ahead(c)| == |input| + if AtEnd(c) then 1 else 0
  }

  lemma {:induction false} RunEndOnTop(t: Tables, cert: Cert, input: seq<Token>, n: nat)
    requires Valid(t, cert) && InputOk(t, input) && Run(t, input, n).status.Running?
    ensures EndOnTop(Run(t, input, n))
  {
    hide Step, Valid, Inv;
    if n > 0 {
      var b := Run(t, input, n - 1);
      WasRunning(t, b);
      RunSound(t, cert, input, n - 1);
      RunEndOnTop(t, cert, input, n - 1);
      StepProgress(t, cert, input, b);
    }
  }

  lemma RecoverCountsTokens(t: Tables, cert: Cert, input: seq<Token>, c: Config)
    requires |c.states| == |c.trees| + 1 && EndOnTop(c) && !AtEnd(c) && TokensCounted(input, c) && !c.look.Empty?
    requires ErrorsOk(t, cert)
    ensures TokensCounted(input, Recover(t, c))
  {
    hide ErrorLookup, Yields;
    var h := Handler(t, c.states, |c.states| - 1);
    if h >= 0 {
      assert ErrorOk(t, cert, c.states[h], ErrorLookup(t, c.states[h]));
    }
  }

  lemma ReadCountsTokens(input: seq<Token>, c: Config)
    requires TokensCounted(input, c)
    ensures TokensCounted(input, Read(c))
  {
  }

  lemma PerformCountsTokens(t: Tables, cert: Cert, input: seq<Token>, c: Config, a: Action)
    requires |c.states| == |c.trees| + 1 && EndOnTop(c) && !AtEnd(c) && TokensCounted(input, c)
    requires ErrorsOk(t, cert) && (!a.Reduce? ==> !c.look.Empty?) && Perform(t, c, a).status != Crashed
    ensures TokensCounted(input, Perform(t, c, a))
  {
    hide Recover, Goto;
    match a
    case Error => RecoverCountsTokens(t, cert, input, c);
    case _ =>
  }

  lemma StepCountsTokens(t: Tables, cert: Cert, input: seq<Token>, c: Config)
    requires Valid(t, cert) && Inv(t, cert, input, c) && EndOnTop(c) && c.status.Running? && TokensCounted(input, c)
    ensures TokensCounted(input, Step(t, c))
  {
    hide Valid, Inv, Perform, Lookup, Default;
    ReadCountsTokens(input, c);
    StepChooses(t, cert, input, c);
    var (c1, a) := Choose(t, c);
    if AtEnd(c) {
      AtEndChooses(t, cert, input, c);
      AcceptCountsTokens(t, input, c1);
    } else {
      PerformCountsTokens(t, cert, input, c1, a);
    }
  }

  lemma AtEndChooses(t: Tables, cert: Cert, input: seq<Token>, c: Config)
    requires Valid(t, cert) && Inv(t, cert, input, c) && EndOnTop(c) && c.status.Running? && AtEnd(c)
    requires IsState(t, c.states[|c.trees|])
    ensures Choose(t, c).1 == Accept
  {
    var p := c.states[|c.trees| - 1];
    assert Move(t, p, End) == c.states[|c.trees|];
    assert EndOk(t);
  }

  lemma AcceptCountsTokens(t: Tables, input: seq<Token>, c: Config)
    requires |c.states| == |c.trees| + 1 && TokensCounted(input, c)
    ensures TokensCounted(input, Perform(t, c, Accept))
  {
  }

  lemma {:induction false} RunCountsTokens(t: Tables, cert: Cert, input: seq<Token>, n: nat)
    requires Valid(t, cert) && InputOk(t, input)
    ensures TokensCounted(input, Run(t, input, n))
  {
    hide Step, Valid, Inv, EndOnTop;
    if n > 0 {
      RunCountsTokens(t, cert, input, n - 1);
      var b := Run(t, input, n - 1);
      if b.status.Running? {
        RunSound(t, cert, input, n - 1);
        RunEndOnTop(t, cert, input, n - 1);
        StepCountsTokens(t, cert, input, b);
      } else {
        StepStays(t, b);
      }
    }
  }

  /** How many syntax errors an input can be blamed for: one, and one more for every three tokens,
      the end of input included. */
  lemma {:induction false} ErrorsBounded(t: Tables, cert: Cert, input: seq<Token>, n: nat)
    requires Valid(t, cert) && InputOk(t, input)
    ensures 3 * (Run(t, input, n).nerrs - 1) <= |input| + 1
    ensures Run(t, input, n).errors - 2 <= |input| + 1
  {
    hide Run, Valid;
    RunCountsTokens(t, cert, input, n);
    ErrorAccounting(t, cert, input, n);
  }
}
