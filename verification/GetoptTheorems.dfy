/** What getopt promises of a whole scan, for any option syntax and any argument list. */
module GetoptTheorems {
  import opened GetoptExchange
  import opened GetoptSpec
  import opened GetoptMachine
  import opened GetoptRuns
  import G = Getopt

  lemma InitParts(argv: seq<string>)
    requires |argv| >= 1
    ensures StateOk(Init(argv)) && InPlace(Init(argv)) && RestOf(Init(argv)) == argv[1..]
    ensures OptionsOf(Init(argv)) == [] && OperandsOf(Init(argv)) == [] && argv[..1] == [argv[0]]
    ensures Unread(Init(argv)) == Cost(argv[1..])
  {
  }

  lemma FinalPermuted(s: State, scan: Scan)
    requires StateOk(s) && s.last <= s.optind && OptionsOf(s) == [] == OperandsOf(s)
    ensures Final(s, scan) == s.argv[..1] + Permuted(scan)
  {
    hide OptionsOf, OperandsOf;
  }

  /** In PERMUTE order, when -1 is first returned, argv[0] is where it was; then come the options
      with the arguments they took, then `--` if there was one, then the operands, then what
      followed `--`, each in original order; and optind is the index of the first of those that
      the caller is to read. The results are the options, in order. */
  lemma PermuteSorts(syntax: Syntax, argv: seq<string>)
    requires |argv| >= 1
    ensures var (events, t) := Run(syntax, Permute, Init(argv));
            var scan := ScanArgs(syntax, argv[1..]);
            && events == Options(scan.events)
            && t.argv == [argv[0]] + Permuted(scan)
            && t.optind == 1 + |scan.options| + (if scan.dashes then 1 else 0)
            && t.argv[t.optind..] == scan.operands + scan.tail
            && multiset(t.argv) == multiset(argv)
  {
    hide Run, ScanArgs, Permuted;
    InitParts(argv);
    PermuteRun(syntax, Init(argv));
    var scan := ScanArgs(syntax, argv[1..]);
    FinalPermuted(Init(argv), scan);
    var t := Run(syntax, Permute, Init(argv)).1;
    assert t.argv == [argv[0]] + Permuted(scan);
    PermutedEnd(argv[0], scan);
    PermutedSame(syntax, argv[1..]);
    assert argv == [argv[0]] + argv[1..];
    assert multiset([argv[0]] + Permuted(scan)) == multiset([argv[0]]) + multiset(Permuted(scan));
  }

  lemma PermutedEnd(program: string, s: Scan)
    ensures ([program] + Permuted(s))[1 + |s.options| + (if s.dashes then 1 else 0)..] == s.operands + s.tail
  {
    var front := [program] + s.options + (if s.dashes then [DASHES] else []);
    assert [program] + Permuted(s) == front + (s.operands + s.tail);
  }

  lemma OperandCounted(args: seq<string>, s: Scan)
    ensures multiset(Permuted(WithOperands(args, s))) == multiset(args) + multiset(Permuted(s))
  {
    var front := s.options + if s.dashes then [DASHES] else [];
    var back := s.operands + s.tail;
    assert Permuted(WithOperands(args, s)) == front + args + back by {
      assert front + (args + s.operands) + s.tail == front + args + back;
    }
    assert Permuted(s) == front + back;
    Counted(front, args, back);
  }

  lemma Counted(a: seq<string>, b: seq<string>, c: seq<string>)
    ensures multiset(a + b + c) == multiset(b) + multiset(a + c)
  {
  }

  lemma OptionCounted(reports: seq<Report>, args: seq<string>, s: Scan)
    ensures multiset(Permuted(WithOptions(reports, args, s))) == multiset(args) + multiset(Permuted(s))
  {
    assert Permuted(WithOptions(reports, args, s)) == args + Permuted(s);
  }

  /** Nothing is lost or invented by the partition. */
  lemma {:induction false} PermutedSame(syntax: Syntax, args: seq<string>)
    ensures multiset(Permuted(ScanArgs(syntax, args))) == multiset(args)
    decreases |args|
  {
    hide ScanArgs, ScanElement, Permuted;
    if args == [] || args[0] == DASHES {
      EndSame(syntax, args);
    } else if IsNonOption(args[0]) {
      ScanOperand(syntax, args);
      PermutedSame(syntax, args[1..]);
      OperandCounted([args[0]], ScanArgs(syntax, args[1..]));
      assert args == [args[0]] + args[1..];
    } else {
      ScanOption(syntax, args);
      ElementTakes(syntax, args);
      var (reports, taken) := ScanElement(syntax, args[0], args[1..]);
      PermutedSame(syntax, args[taken..]);
      OptionCounted(reports, args[..taken], ScanArgs(syntax, args[taken..]));
      assert args == args[..taken] + args[taken..];
    }
  }

  lemma EndSame(syntax: Syntax, args: seq<string>)
    requires args == [] || args[0] == DASHES
    ensures Permuted(ScanArgs(syntax, args)) == args
  {
    ScanEnd(syntax, args);
    assert args == [] || args == [DASHES] + args[1..];
  }

  lemma {:induction false} BeforeOperandPrefix(events: seq<Event>)
    ensures BeforeOperand(events) <= events && BeforeOperand(events) <= Options(events)
  {
    if events != [] && events[0].Option? {
      BeforeOperandPrefix(events[1..]);
      assert events == [events[0]] + events[1..];
    }
  }

  /** The three orderings see the same options: PERMUTE reports those of RETURN_IN_ORDER without
      its reports of operands, REQUIRE_ORDER a prefix of either; the latter two leave argv alone. */
  lemma OrderingsAgree(syntax: Syntax, argv: seq<string>)
    requires |argv| >= 1
    ensures var permuted := Run(syntax, Permute, Init(argv));
            var inOrder := Run(syntax, ReturnInOrder, Init(argv));
            var strict := Run(syntax, RequireOrder, Init(argv));
            && permuted.0 == Options(inOrder.0)
            && strict.0 == BeforeOperand(inOrder.0) && strict.0 <= permuted.0 && strict.0 <= inOrder.0
            && inOrder.1.argv == argv && strict.1.argv == argv
            && inOrder.0 == ScanArgs(syntax, argv[1..]).events
  {
    hide Run, ScanArgs;
    InitParts(argv);
    PermuteRun(syntax, Init(argv));
    InOrderRun(syntax, Init(argv));
    RequireOrderRun(syntax, Init(argv));
    BeforeOperandPrefix(ScanArgs(syntax, argv[1..]).events);
  }

  /** In RETURN_IN_ORDER only `--` leaves arguments unread; in REQUIRE_ORDER the scan stops at the
      first operand, or past `--`. */
  lemma OrderingsStop(syntax: Syntax, argv: seq<string>)
    requires |argv| >= 1
    ensures var t := Run(syntax, ReturnInOrder, Init(argv)).1;
            var scan := ScanArgs(syntax, argv[1..]);
            t.optind == |argv| - |scan.tail| && (t.optind != |argv| ==> scan.dashes)
    ensures Run(syntax, RequireOrder, Init(argv)).1.optind == 1 + Leading(syntax, argv[1..])
  {
    hide Run, ScanArgs, Leading;
    InitParts(argv);
    InOrderRun(syntax, Init(argv));
    RequireOrderRun(syntax, Init(argv));
    TailNeedsDashes(syntax, argv[1..]);
  }

  lemma {:induction false} TailNeedsDashes(syntax: Syntax, args: seq<string>)
    ensures ScanArgs(syntax, args).tail != [] ==> ScanArgs(syntax, args).dashes
    decreases |args|
  {
    hide ScanArgs, ScanElement;
    if args == [] || args[0] == DASHES {
      ScanEnd(syntax, args);
    } else if IsNonOption(args[0]) {
      ScanOperand(syntax, args);
      TailNeedsDashes(syntax, args[1..]);
    } else {
      ScanOption(syntax, args);
      ElementTakes(syntax, args);
      TailNeedsDashes(syntax, args[ScanElement(syntax, args[0], args[1..]).1..]);
    }
  }

  /** However the arguments are ordered, getopt returns -1 after at most as many calls as there are
      characters and ends of elements in argv[1..]. */
  lemma CallsBounded(syntax: Syntax, ord: Ordering, argv: seq<string>)
    requires |argv| >= 1
    ensures |Run(syntax, ord, Init(argv)).0| <= Cost(argv[1..])
  {
    hide Run;
    InitParts(argv);
    RunEnds(syntax, ord, Init(argv));
  }

  /** The results of a run, whatever the ordering, depend only on the events of the scan. */
  lemma {:induction false} EventsDecideResults(syntax: Syntax, ord: Ordering, a: seq<string>, b: seq<string>)
    requires |a| >= 1 && |b| >= 1 && ScanArgs(syntax, a[1..]).events == ScanArgs(syntax, b[1..]).events
    ensures Run(syntax, ord, Init(a)).0 == Run(syntax, ord, Init(b)).0
  {
    hide Run, ScanArgs;
    OrderingsAgree(syntax, a);
    OrderingsAgree(syntax, b);
  }

  // ---- A caller's loop ------------------------------------------------------------------------------

  /** What the caller sees of the results of a run: return values and optarg. */
  function ResultOf(event: Event): (int, Maybe<string>) {
    (G.CodeOf(Got(event)), G.ArgOf(Got(event)))
  }

  function Results(events: seq<Event>): (results: seq<(int, Maybe<string>)>)
    ensures |results| == |events|
  {
    seq(|events|, i requires 0 <= i < |events| => ResultOf(events[i]))
  }

  lemma ResultsAppend(events: seq<Event>, event: Event)
    ensures Results(events + [event]) == Results(events) + [ResultOf(event)]
  {
  }

  /** No long option uses the value that means the end. */
  predicate EndIsUnique(syntax: Syntax) {
    forall i | 0 <= i < |syntax.long| :: syntax.long[i].flag || syntax.long[i].val != -1
  }

  lemma NeverMinusOne(syntax: Syntax, ord: Ordering, s: State)
    requires StateOk(s) && EndIsUnique(syntax)
    ensures G.CodeOf(Call(syntax, ord, s).1) == -1 <==> Call(syntax, ord, s).1.Done?
  {
    hide Arrange, Resolve;
    if s.nextchar == "" {
      ArrangeOk(ord, s);
    }
  }

  /** Calling getopt until it returns -1, as main programs do. */
  method CollectAll(g: G.Getopt) returns (results: seq<(int, Maybe<string>)>)
    requires g.Valid() && EndIsUnique(g.syntax)
    modifies g, g.argv
    ensures g.Valid()
    ensures var (events, t) := Run(g.syntax, g.ordering, old(g.Abs()));
            results == Results(events) && g.Abs() == t
  {
    hide Call, Run, Results;
    results := [];
    ghost var seen: seq<Event> := [];
    ghost var start := g.Abs();
    var code := 0;
    while code != -1
      invariant g.Valid() && results == Results(seen)
      invariant code != -1 ==> Run(g.syntax, g.ordering, start).0 == seen + Run(g.syntax, g.ordering, g.Abs()).0
                               && Run(g.syntax, g.ordering, start).1 == Run(g.syntax, g.ordering, g.Abs()).1
      invariant code == -1 ==> Run(g.syntax, g.ordering, start) == (seen, g.Abs())
      decreases if code == -1 then 0 else 1, if code == -1 then 0 else Unread(g.Abs())
    {
      ghost var s := g.Abs();
      code := g.Next();
      NeverMinusOne(g.syntax, g.ordering, s);
      if code == -1 {
        RunStops(g.syntax, g.ordering, s);
        assert seen + [] == seen;
      } else {
        ghost var event := Call(g.syntax, g.ordering, s).1.event;
        CallOk(g.syntax, g.ordering, s);
        RunCalls(g.syntax, g.ordering, s);
        results := results + [(code, g.optarg)];
        ResultsAppend(seen, event);
        seen := seen + [event];
      }
    }
  }
}
