/** yyparse itself: the state and value stacks as arrays that grow by doubling, refining the
    unbounded stacks of LrEngine. */
module LrParser {
  import opened LrTables
  import opened LrTrees
  import opened LrEngine
  import opened LrSoundness
  import opened LrTermination

  const YYINITDEPTH := 200

  /** __yy_memcpy */
  method CopyElements<T>(to: array<T>, from: array<T>, count: nat)
    requires count <= from.Length && count <= to.Length && to != from
    modifies to
    ensures to[..count] == from[..count]
  {
    var i := 0;
    while i < count
      invariant 0 <= i <= count
      invariant to[..i] == from[..i]
    {
      to[i] := from[i];
      i := i + 1;
    }
  }

  lemma ReduceIsPush(t: Tables, c: Config, r: int)
    requires c.status.Running? && ReduceBy(t, c, r).status != Crashed
    ensures IsRule(t, r) && |t.rhs[r]| <= |c.trees| && |c.states| == |c.trees| + 1
    ensures var m := |c.trees| - |t.rhs[r]|;
            ReduceBy(t, c, r) == Push(c.(states := c.states[..m + 1], trees := c.trees[..m], trace := c.trace + [r]),
                                      Goto(t, c.states[m], t.r1[r]), Node(r, c.trees[m..]))
  {
    hide Goto;
  }

  lemma RunStarts(t: Tables, input: seq<Token>)
    ensures Run(t, input, 0) == Init(input)
  {
  }

  /** The configuration once an error is reported and recovery goes on. */
  function Reported(c: Config): Config {
    var dropped := if c.errStatus == 3 then Pending(c.look) else [];
    c.(nerrs := if c.errStatus == 0 then c.nerrs + 1 else c.nerrs, errors := c.errors + 1, errStatus := 3,
       look := if c.errStatus == 3 then Empty else c.look, discarded := c.discarded + |dropped|)
  }

  lemma ShiftIsPush(c: Config, state: int)
    ensures ShiftToken(c, state) ==
            Push(c.(look := if c.look.Tok? then Empty else c.look,
                    errStatus := if c.errStatus != 0 then c.errStatus - 1 else 0, shifted := c.shifted + 1),
                 state, if c.look.Tok? then Leaf(c.look.token) else End)
  {
  }

  /** The configuration once the `error` token is shifted in the state at `h`. */
  function ErrorPushed(t: Tables, c: Config, h: int, dropped: seq<Token>): Config
    requires 0 <= h < |c.states| == |c.trees| + 1 && IsState(t, c.states[h])
  {
    Push(c.(states := c.states[..h + 1], trees := c.trees[..h]), Target(ErrorLookup(t, c.states[h])),
         Skipped(Yields(c.trees[h..]) + dropped))
  }

  /** Recovery in two parts: the report, and the shift of the `error` token. */
  lemma RecoverIs(t: Tables, cert: Cert, c: Config)
    requires |c.states| == |c.trees| + 1
    requires forall i | 0 <= i < |c.states| ::
               IsState(t, c.states[i]) && ErrorOk(t, cert, c.states[i], ErrorLookup(t, c.states[i]))
    ensures var h := Handler(t, c.states, |c.states| - 1);
            && (h >= 0 ==> ErrorLookup(t, c.states[h]).Shift?)
            && Recover(t, c) ==
               if c.errStatus == 3 && c.look.Eof? then
                 c.(nerrs := if c.errStatus == 0 then c.nerrs + 1 else c.nerrs, errors := c.errors + 1,
                    status := Aborted)
               else if h < 0 then Reported(c).(states := c.states[..1], trees := [], status := Aborted)
               else ErrorPushed(t, Reported(c), h, if c.errStatus == 3 then Pending(c.look) else [])
  {
    hide ErrorLookup, Push, ReduceBy, Yields;
    var h := Handler(t, c.states, |c.states| - 1);
    if h >= 0 {
      assert ErrorOk(t, cert, c.states[h], ErrorLookup(t, c.states[h]));
    }
  }

  class Parser {
    const t: Tables
    ghost const cert: Cert
    ghost const weights: Weights
    ghost const input: seq<Token>

    var yyss: array<int>
    var yyvs: array<Tree>
    var yystacksize: int
    var yyssp: int
    var yyvsp: int
    var yychar: Look
    var unread: seq<Token>
    var yyerrstatus: int
    var yynerrs: int
    var status: Status
    ghost var shifted: nat
    ghost var discarded: nat
    ghost var errors: nat
    ghost var trace: seq<int>
    ghost var steps: nat

    /** The stacks are level, and while parsing goes on there is room to push. */
    ghost predicate Room()
      reads this, yyss, yyvs
    {
      && yyss.Length == yyvs.Length == yystacksize <= YYMAXDEPTH
      && 0 <= yyssp == yyvsp < yystacksize
      && (status.Running? ==> yyssp + 1 < yystacksize)
    }

    /** On the way to yynewstate: a value has been pushed, and its state has not. */
    ghost predicate Raised()
      reads this, yyss, yyvs
    {
      && yyss.Length == yyvs.Length == yystacksize <= YYMAXDEPTH
      && 0 <= yyssp + 1 == yyvsp < yystacksize
    }

    /** The unbounded stacks: slot 0 of yyvs is never used. */
    ghost function Abs(): Config
      requires Room()
      reads this, yyss, yyvs
    {
      Config(yyss[..yyssp + 1], yyvs[1..yyssp + 1], yychar, unread, yyerrstatus, yynerrs, status,
             shifted, discarded, errors, trace)
    }

    ghost predicate Valid()
      reads this, yyss, yyvs
    {
      && LrTables.Valid(t, cert) && Weighted(t, weights) && InputOk(t, input)
      && Room() && Abs() == Run(t, input, steps)
    }

    constructor (tables: Tables, tokens: seq<Token>, ghost c: Cert, ghost w: Weights)
      requires LrTables.Valid(tables, c) && Weighted(tables, w) && InputOk(tables, tokens)
      ensures Valid() && t == tables && input == tokens && cert == c && weights == w && steps == 0
      ensures fresh(yyss) && fresh(yyvs)
    {
      t, cert, weights, input := tables, c, w, tokens;
      yystacksize := YYINITDEPTH;
      yyss := new int[YYINITDEPTH];
      yyvs := new Tree[YYINITDEPTH];
      yyssp, yyvsp, yychar, unread, yyerrstatus, yynerrs, status := -1, 0, Empty, tokens, 0, 0, Running;
      shifted, discarded, errors, trace, steps := 0, 0, 0, [], 0;
      new;
      hide LrTables.Valid, Weighted, InputOk, Run;
      RunStarts(t, input);
      NewState(0);
      assert yyss[..1] == [0];
    }

    /** yynewstate: pushes a state over a value that was just pushed, so that the stacks are level,
        and makes room again. */
    method NewState(state: int)
      requires Raised() && status.Running?
      modifies this`yyss, this`yyvs, this`yystacksize, this`yyssp, this`yyvsp, this`status, yyss
      ensures Room() && yyssp == old(yyssp) + 1 && yyvsp == old(yyvsp)
      ensures yyss[..yyssp + 1] == old(yyss[..yyssp + 1]) + [state]
      ensures yyvs[..yyvsp + 1] == old(yyvs[..yyvsp + 1])
      ensures status == if yyssp + 1 >= YYMAXDEPTH then Overflowed else Running
      ensures yyss == old(yyss) || fresh(yyss)
      ensures yyvs == old(yyvs) || fresh(yyvs)
    {
      yyssp := yyssp + 1;
      yyss[yyssp] := state;
      assert yyss[..yyssp + 1] == old(yyss[..yyssp + 1]) + [state];
      if yyssp >= yystacksize - 1 {
        if yystacksize >= YYMAXDEPTH {
          status := Overflowed;
          return;
        }
        Grow();
        status := if yyssp >= yystacksize - 1 then Aborted else status;
      }
    }

    /** Doubles the capacity of both stacks, up to the limit, and sets the stack pointers anew. */
    method Grow()
      requires yyss.Length == yyvs.Length == yystacksize < YYMAXDEPTH && 0 <= yyssp == yyvsp == yystacksize - 1
      modifies this`yyss, this`yyvs, this`yystacksize, this`yyssp, this`yyvsp
      ensures yyss.Length == yyvs.Length == yystacksize
      ensures yystacksize == if 2 * old(yystacksize) < YYMAXDEPTH then 2 * old(yystacksize) else YYMAXDEPTH
      ensures yyssp == old(yyssp) && yyvsp == old(yyvsp)
      ensures yyss[..yyssp + 1] == old(yyss[..yyssp + 1]) && yyvs[..yyvsp + 1] == old(yyvs[..yyvsp + 1])
      ensures fresh(yyss) && fresh(yyvs)
    {
      var size := yyssp + 1;
      yystacksize := yystacksize * 2;
      if yystacksize > YYMAXDEPTH {
        yystacksize := YYMAXDEPTH;
      }
      var newss := new int[yystacksize];
      CopyElements(newss, yyss, size);
      var newvs := new Tree[yystacksize];
      CopyElements(newvs, yyvs, size);
      yyss, yyvs := newss, newvs;
      yyssp := size - 1;
      yyvsp := size - 1;
    }

    /** Pushes a value and then its state. */
    method PushBoth(state: int, value: Tree)
      requires Room() && status.Running?
      modifies this`yyss, this`yyvs, this`yystacksize, this`yyssp, this`yyvsp, this`status, yyss, yyvs
      ensures Room() && Abs() == Push(old(Abs()), state, value)
      ensures yyss == old(yyss) || fresh(yyss)
      ensures yyvs == old(yyvs) || fresh(yyvs)
    {
      ghost var values := yyvs[..yyvsp + 1];
      yyvsp := yyvsp + 1;
      yyvs[yyvsp] := value;
      assert yyvs[..yyvsp + 1] == values + [value];
      NewState(state);
      assert yyvs[1..yyvsp + 1] == values[1..] + [value];
    }

    method Shift(state: int)
      requires Room() && status.Running? && !yychar.Empty?
      modifies this, yyss, yyvs
      ensures Room() && Abs() == ShiftToken(old(Abs()), state) && steps == old(steps)
      ensures yyss == old(yyss) || fresh(yyss)
      ensures yyvs == old(yyvs) || fresh(yyvs)
    {
      hide Push, ShiftToken;
      ghost var c := Abs();
      var value := if yychar.Tok? then Leaf(yychar.token) else End;
      if !yychar.Eof? {
        yychar := Empty;
      }
      if yyerrstatus != 0 {
        yyerrstatus := yyerrstatus - 1;
      }
      shifted := shifted + 1;
      ShiftIsPush(c, state);
      assert Abs() == c.(look := yychar, errStatus := yyerrstatus, shifted := shifted);
      PushBoth(state, value);
    }

    /** Pops the same number of values and of states. */
    method Pop(count: nat)
      requires Room() && count <= yyssp
      modifies this`yyssp, this`yyvsp
      ensures Room() && yyssp == old(yyssp) - count
      ensures Abs() == old(Abs()).(states := old(Abs()).states[..yyssp + 1], trees := old(Abs()).trees[..yyssp])
    {
      ghost var c := Abs();
      yyvsp := yyvsp - count;
      yyssp := yyssp - count;
      assert yyss[..yyssp + 1] == c.states[..yyssp + 1] && yyvs[1..yyvsp + 1] == c.trees[..yyssp];
    }

    method Reduce(rule: int)
      requires Room() && status.Running? && ReduceBy(t, Abs(), rule).status != Crashed
      modifies this, yyss, yyvs
      ensures Room() && Abs() == ReduceBy(t, old(Abs()), rule) && steps == old(steps)
      ensures yyss == old(yyss) || fresh(yyss)
      ensures yyvs == old(yyvs) || fresh(yyvs)
    {
      hide Push, Goto, ReduceBy;
      ghost var c := Abs();
      ReduceIsPush(t, c, rule);
      var yylen := |t.rhs[rule]|;
      var value := Node(rule, yyvs[yyvsp + 1 - yylen..yyvsp + 1]);
      assert value.kids == c.trees[yyssp - yylen..] && yyss[yyssp - yylen] == c.states[yyssp - yylen];
      Pop(yylen);
      trace := trace + [rule];
      PushBoth(Goto(t, yyss[yyssp], t.r1[rule]), value);
    }

    /** yyerrhandle and yyerrpop: pops until a state takes the `error` token, and tells whether
        there was one. */
    method PopToHandler() returns (found: bool)
      requires Room() && forall i | 0 <= i <= yyssp :: IsState(t, yyss[i])
      modifies this`yyssp, this`yyvsp
      ensures Room() && yyssp <= old(yyssp)
      ensures var h := Handler(t, old(Abs()).states, old(yyssp));
              found == (h >= 0) && yyssp == if found then h else 0
      ensures Abs() == old(Abs()).(states := old(Abs()).states[..yyssp + 1], trees := old(Abs()).trees[..yyssp])
    {
      ghost var c := Abs();
      while ErrorLookup(t, yyss[yyssp]).Error?
        invariant Room() && yyssp <= old(yyssp)
        invariant Handler(t, c.states, old(yyssp)) == Handler(t, c.states, yyssp)
        invariant Abs() == c.(states := c.states[..yyssp + 1], trees := c.trees[..yyssp])
        decreases yyssp
      {
        if yyssp == 0 {
          return false;
        }
        Pop(1);
      }
      found := true;
    }

    /** yyerrlab and yyerrlab1: reports the error unless recovering already, and discards a
        lookahead that could not be reused; gives up at end of input. */
    method ReportError() returns (goOn: bool, dropped: seq<Token>)
      requires Room() && status.Running? && !yychar.Empty?
      modifies this`yynerrs, this`errors, this`status, this`discarded, this`yychar, this`yyerrstatus
      ensures var c := old(Abs());
              var nerrs := if c.errStatus == 0 then c.nerrs + 1 else c.nerrs;
              && goOn == !(c.errStatus == 3 && c.look.Eof?)
              && dropped == (if c.errStatus == 3 then Pending(c.look) else [])
              && Room()
              && Abs() == if !goOn then c.(nerrs := nerrs, errors := c.errors + 1, status := Aborted)
                          else c.(nerrs := nerrs, errors := c.errors + 1, errStatus := 3,
                                  look := if c.errStatus == 3 then Empty else c.look,
                                  discarded := c.discarded + |dropped|)
    {
      if yyerrstatus == 0 {
        yynerrs := yynerrs + 1;
      }
      errors := errors + 1;
      goOn, dropped := true, [];
      if yyerrstatus == 3 {
        if yychar.Eof? {
          status := Aborted;
          goOn := false;
          return;
        }
        dropped := [yychar.token];
        discarded := discarded + 1;
        yychar := Empty;
      }
      yyerrstatus := 3;
    }

    /** yyerrhandle: pops to a state that takes the `error` token and shifts the token there, or
        gives up. */
    method ShiftError(dropped: seq<Token>)
      requires Room() && status.Running?
      requires forall i | 0 <= i <= yyssp :: IsState(t, yyss[i]) && ErrorOk(t, cert, yyss[i], ErrorLookup(t, yyss[i]))
      modifies this`yyss, this`yyvs, this`yystacksize, this`yyssp, this`yyvsp, this`status, yyss, yyvs
      ensures Room()
      ensures var c := old(Abs());
              var h := Handler(t, c.states, |c.states| - 1);
              Abs() == if h < 0 then c.(states := c.states[..1], trees := [], status := Aborted)
                       else ErrorPushed(t, c, h, dropped)
      ensures yyss == old(yyss) || fresh(yyss)
      ensures yyvs == old(yyvs) || fresh(yyvs)
    {
      hide ErrorLookup, Yields, Push, Handler;
      ghost var c := Abs();
      var values := yyvs[1..yyvsp + 1];
      var found := PopToHandler();
      if found {
        ghost var h := yyssp;
        assert ErrorOk(t, cert, yyss[h], ErrorLookup(t, yyss[h])) && c.states[h] == yyss[h];
        PushBoth(ErrorLookup(t, yyss[yyssp]).state, Skipped(Yields(values[yyssp..]) + dropped));
      } else {
        status := Aborted;
        assert yyss[..yyssp + 1] == c.states[..1];
      }
    }

    /** The whole of error handling, up to the next push or the return. */
    method RecoverFromError()
      requires Room() && status.Running? && !yychar.Empty?
      requires forall i | 0 <= i <= yyssp :: IsState(t, yyss[i]) && ErrorOk(t, cert, yyss[i], ErrorLookup(t, yyss[i]))
      modifies this, yyss, yyvs
      ensures Room() && Abs() == Recover(t, old(Abs())) && steps == old(steps)
      ensures yyss == old(yyss) || fresh(yyss)
      ensures yyvs == old(yyvs) || fresh(yyvs)
    {
      hide ErrorLookup, ErrorOk, Recover, Handler, ErrorPushed;
      ghost var c := Abs();
      assert forall i | 0 <= i < |c.states| :: c.states[i] == yyss[i];
      RecoverIs(t, cert, c);
      var goOn, dropped := ReportError();
      if goOn {
        ShiftError(dropped);
      }
    }

    /** Carries out one action of the table. */
    method Execute(action: Action)
      requires Room() && status.Running? && StackOk(t, cert, Abs().states, Abs().trees) && ErrorsOk(t, cert)
      requires !action.Reduce? ==> !yychar.Empty?
      requires Perform(t, Abs(), action).status != Crashed
      modifies this, yyss, yyvs
      ensures Room() && Abs() == Perform(t, old(Abs()), action) && steps == old(steps)
      ensures yyss == old(yyss) || fresh(yyss)
      ensures yyvs == old(yyvs) || fresh(yyvs)
    {
      match action
      case Shift(state) => Shift(state);
      case Reduce(rule) => Reduce(rule);
      case Accept => status := Accepted;
      case Error =>
        assert forall i | 0 <= i <= yyssp :: yyss[i] == Abs().states[i];
        RecoverFromError();
    }

    /** yybackup: picks the action of the top state, calling yylex only if the state needs it. */
    method ChooseAction() returns (action: Action)
      requires Room() && status.Running? && IsState(t, yyss[yyssp])
      modifies this`yychar, this`unread
      ensures Room() && (Abs(), action) == Choose(t, old(Abs()))
    {
      if t.pact[yyss[yyssp]] == YYFLAG {
        action := Default(t, yyss[yyssp]);
      } else {
        if yychar.Empty? {
          if unread == [] {
            yychar := Eof;
          } else {
            yychar, unread := Tok(unread[0]), unread[1..];
          }
        }
        action := Lookup(t, yyss[yyssp], Kind(yychar));
      }
    }

    /** yybackup to the next yynewstate or return: one step of the machine. */
    method Advance()
      requires Valid() && status.Running?
      modifies this, yyss, yyvs
      ensures Valid() && steps == old(steps) + 1
      ensures Abs() == Step(t, old(Abs()))
      ensures yyss == old(yyss) || fresh(yyss)
      ensures yyvs == old(yyvs) || fresh(yyvs)
    {
      hide LrTables.Valid, Weighted, Inv, StackOk, Step, Perform, Choose, Lookup;
      RunSound(t, cert, input, steps);
      StepChooses(t, cert, input, Abs());
      var action := ChooseAction();
      Execute(action);
      steps := steps + 1;
    }

    /** yyparse: 0 with the tree of the whole input, 1 on a syntax error that recovery gives up
        on, or 2 exactly when the state stack has reached YYMAXDEPTH. It always returns. */
    method Parse() returns (code: int)
      requires Valid() && steps == 0
      modifies this, yyss, yyvs
      ensures Valid() && steps <= StepBound(weights, input)
      ensures Abs() == LastConfig(t, weights, input) && !status.Running? && status != Crashed
      ensures code == match status case Accepted => 0 case Overflowed => 2 case _ => 1
      ensures code == 0 ==> Parsed(t, cert, input, Abs())
      ensures code == 2 <==> yyssp + 1 == YYMAXDEPTH
    {
      hide LrTables.Valid, Weighted, Inv, Run, Step, StepBound, Parsed;
      while status.Running?
        invariant Valid() && steps <= StepBound(weights, input)
        invariant yyss == old(yyss) || fresh(yyss)
        invariant yyvs == old(yyvs) || fresh(yyvs)
        decreases StepBound(weights, input) - steps
      {
        if steps == StepBound(weights, input) {
          Terminates(t, cert, weights, input);
        }
        Advance();
      }
      RunStays(t, input, steps, StepBound(weights, input));
      NeverCrashes(t, cert, input, steps);
      OverflowsAtDepth(t, input, steps);
      if status.Accepted? {
        AcceptSound(t, cert, input, steps);
        code := 0;
      } else {
        code := if status.Overflowed? then 2 else 1;
      }
    }
  }
}
