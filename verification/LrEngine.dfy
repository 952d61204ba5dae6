/** yyparse as a step machine: one step runs from label yynewstate to the next push, or to a
    return. The stacks are unbounded here; the class in LrParser.dfy keeps them in arrays. */
module LrEngine {
  import opened LrTables
  import opened LrTrees

  const YYMAXDEPTH := 10000

  /** yychar: not read yet, end of input, or a token. */
  datatype Look = Empty | Eof | Tok(token: Token)

  /** `Accepted`, `Aborted` and `Overflowed` are the returns 0, 1 and 2. `Crashed` is no
      return of yyparse: it marks a table access or a pop that is out of range. */
  datatype Status = Running | Accepted | Aborted | Overflowed | Crashed

  /** `states` is yyss and `trees` is yyvs without its unused bottom slot. The last five fields
      only observe the run: tokens shifted and discarded, entries to the error handler, and
      the rules reduced by. */
  datatype Config = Config(
    states: seq<int>, trees: seq<Tree>, look: Look, rest: seq<Token>,
    errStatus: int, nerrs: int, status: Status,
    shifted: nat, discarded: nat, errors: nat, trace: seq<int>)

  function Init(input: seq<Token>): Config {
    Config([0], [], Empty, input, 0, 0, Running, 0, 0, 0, [])
  }

  function Kind(look: Look): int {
    if look.Tok? then look.token.kind else YYEOF
  }

  function Pending(look: Look): seq<Token> {
    if look.Tok? then [look.token] else []
  }

  /** Calls yylex if there is no lookahead. */
  function Read(c: Config): Config {
    if !c.look.Empty? then c
    else if c.rest == [] then c.(look := Eof)
    else c.(look := Tok(c.rest[0]), rest := c.rest[1..])
  }

  /** Pushes a state and its value; the stack may not reach YYMAXDEPTH states. */
  function Push(c: Config, state: int, tree: Tree): Config {
    c.(states := c.states + [state], trees := c.trees + [tree],
       status := if |c.states| + 1 >= YYMAXDEPTH then Overflowed else Running)
  }

  function ShiftToken(c: Config, state: int): Config {
    var leaf := if c.look.Tok? then Leaf(c.look.token) else End;
    var c1 := Push(c, state, leaf);
    c1.(look := if c.look.Tok? then Empty else c.look,
        errStatus := if c.errStatus != 0 then c.errStatus - 1 else 0,
        shifted := c.shifted + 1)
  }

  function ReduceBy(t: Tables, c: Config, r: int): Config {
    if !IsRule(t, r) || |t.rhs[r]| > |c.trees| || |c.states| != |c.trees| + 1 then
      c.(status := Crashed)
    else
      var m := |c.trees| - |t.rhs[r]|;
      var c1 := c.(states := c.states[..m + 1], trees := c.trees[..m], trace := c.trace + [r]);
      Push(c1, Goto(t, c.states[m], t.r1[r]), Node(r, c.trees[m..]))
  }

  /** The topmost position at or below `j` whose state handles the `error` token, or -1. */
  function Handler(t: Tables, states: seq<int>, j: int): (h: int)
    requires -1 <= j < |states|
    ensures -1 <= h <= j
    ensures h >= 0 ==> IsState(t, states[h]) && !ErrorLookup(t, states[h]).Error?
    ensures forall i | h < i <= j :: IsState(t, states[i]) ==> ErrorLookup(t, states[i]).Error?
  {
    if j < 0 then -1
    else if IsState(t, states[j]) && !ErrorLookup(t, states[j]).Error? then j
    else Handler(t, states, j - 1)
  }

  /** yyerrlab: report, perhaps discard the lookahead, pop to a state that takes `error`. */
  function Recover(t: Tables, c: Config): Config
    requires |c.states| == |c.trees| + 1
  {
    var c1 := c.(nerrs := if c.errStatus == 0 then c.nerrs + 1 else c.nerrs, errors := c.errors + 1);
    if c.errStatus == 3 && c.look.Eof? then c1.(status := Aborted)
    else
      var dropped := if c.errStatus == 3 then Pending(c.look) else [];
      var c2 := c1.(look := if c.errStatus == 3 then Empty else c.look,
                    discarded := c.discarded + |dropped|, errStatus := 3);
      var h := Handler(t, c.states, |c.states| - 1);
      if h < 0 then c2.(states := c.states[..1], trees := [], status := Aborted)
      else
        var c3 := c2.(states := c.states[..h + 1], trees := c.trees[..h]);
        match ErrorLookup(t, c.states[h])
        case Shift(n) => Push(c3, n, Skipped(Yields(c.trees[h..]) + dropped))
        case Reduce(r) => ReduceBy(t, c3, r)
        case Accept => c3.(status := Accepted)
        case Error => c3.(status := Crashed)
  }

  function Perform(t: Tables, c: Config, a: Action): Config
    requires |c.states| == |c.trees| + 1
  {
    match a
    case Shift(n) => ShiftToken(c, n)
    case Reduce(r) => ReduceBy(t, c, r)
    case Accept => c.(status := Accepted)
    case Error => Recover(t, c)
  }

  /** The action of the top state, after reading a lookahead if the state looks at one. */
  function Choose(t: Tables, c: Config): (Config, Action)
    requires |c.states| > 0 && IsState(t, c.states[|c.states| - 1])
  {
    var s := c.states[|c.states| - 1];
    if t.pact[s] == YYFLAG then (c, Default(t, s))
    else (Read(c), Lookup(t, s, Kind(Read(c).look)))
  }

  function Step(t: Tables, c: Config): Config {
    if !c.status.Running? then c
    else if |c.states| != |c.trees| + 1 || !IsState(t, c.states[|c.states| - 1]) then
      c.(status := Crashed)
    else
      var (c1, a) := Choose(t, c);
      Perform(t, c1, a)
  }

  function Run(t: Tables, input: seq<Token>, n: nat): Config {
    if n == 0 then Init(input) else Step(t, Run(t, input, n - 1))
  }

  ghost predicate DepthOk(c: Config) {
    |c.states| <= YYMAXDEPTH && (c.status.Overflowed? <==> |c.states| == YYMAXDEPTH)
  }

  lemma PushDepth(c: Config, state: int, tree: Tree)
    requires DepthOk(c) && c.status.Running?
    ensures DepthOk(Push(c, state, tree))
  {
  }

  lemma ReduceDepth(t: Tables, c: Config, r: int)
    requires DepthOk(c) && c.status.Running?
    ensures DepthOk(ReduceBy(t, c, r))
  {
    hide Push, Goto, IsRule;
    forall c1: Config, s, tree | DepthOk(c1) && c1.status.Running? ensures DepthOk(Push(c1, s, tree)) {
      PushDepth(c1, s, tree);
    }
  }

  lemma RecoverDepth(t: Tables, c: Config)
    requires DepthOk(c) && c.status.Running? && |c.states| == |c.trees| + 1
    ensures DepthOk(Recover(t, c))
  {
    hide Push, ReduceBy, ErrorLookup, Yields;
    var h := Handler(t, c.states, |c.states| - 1);
    if !(c.errStatus == 3 && c.look.Eof?) && h >= 0 {
      forall c1: Config, s, tree | DepthOk(c1) && c1.status.Running? ensures DepthOk(Push(c1, s, tree)) {
        PushDepth(c1, s, tree);
      }
      forall c1: Config, r | DepthOk(c1) && c1.status.Running? ensures DepthOk(ReduceBy(t, c1, r)) {
        ReduceDepth(t, c1, r);
      }
    }
  }

  lemma StepDepth(t: Tables, c: Config)
    requires DepthOk(c)
    ensures DepthOk(Step(t, c))
  {
    hide Recover, ReduceBy, Lookup, Default, Push;
    if c.status.Running? && |c.states| == |c.trees| + 1 && IsState(t, c.states[|c.states| - 1]) {
      var (c1, a) := Choose(t, c);
      match a
      case Shift(n) => PushDepth(c1, n, if c1.look.Tok? then Leaf(c1.look.token) else End);
      case Reduce(r) => ReduceDepth(t, c1, r);
      case Accept =>
      case Error => RecoverDepth(t, c1);
    }
  }

  /** yyparse returns 2 exactly when the state stack has reached YYMAXDEPTH. */
  lemma {:induction false} OverflowsAtDepth(t: Tables, input: seq<Token>, n: nat)
    ensures DepthOk(Run(t, input, n))
  {
    hide Step;
    if n > 0 {
      OverflowsAtDepth(t, input, n - 1);
      StepDepth(t, Run(t, input, n - 1));
    }
  }
}
