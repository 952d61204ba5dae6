/** Whole runs of getopt, call after call until it returns -1, in all three orderings. */
module GetoptRuns {
  import opened GetoptExchange
  import opened GetoptSpec
  import opened GetoptMachine

  // ---- One call ---------------------------------------------------------------------------------

  function Cost(args: seq<string>): nat {
    if args == [] then 0 else |args[0]| + 1 + Cost(args[1..])
  }

  /** The characters that are still to be read, with one more for the end of each element. */
  function Unread(s: State): nat
    requires StateOk(s)
  {
    if s.nextchar != "" then |s.nextchar| + Cost(s.argv[s.optind + 1..]) else Cost(s.argv[s.optind..])
  }

  lemma {:induction false} CostDrops(args: seq<string>, i: nat)
    requires i <= |args|
    ensures Cost(args[i..]) <= Cost(args)
    ensures i > 0 ==> Cost(args[i..]) + |args[0]| < Cost(args)
  {
    if i > 0 {
      CostDrops(args[1..], i - 1);
      assert args[1..][i - 1..] == args[i..];
    } else {
      assert args[0..] == args;
    }
  }

  /** How the arguments lie between two calls: argv[0], the options found, the operands skipped,
      more options found since, and the rest, which no call has touched. */
  function OptionsOf(s: State): seq<string>
    requires StateOk(s) && s.last <= s.optind
  {
    s.argv[1..s.first] + s.argv[s.last..s.optind]
  }

  function OperandsOf(s: State): seq<string>
    requires StateOk(s)
  {
    s.argv[s.first..s.last]
  }

  function RestOf(s: State): seq<string>
    requires StateOk(s)
  {
    s.argv[s.optind..]
  }

  lemma Layout(s: State)
    requires StateOk(s) && s.last <= s.optind
    ensures s.argv == s.argv[..s.first] + (OperandsOf(s) + (s.argv[s.last..s.optind] + RestOf(s)))
    ensures |OptionsOf(s)| + |OperandsOf(s)| == s.optind - 1
  {
  }

  /** Gathering puts all options found before all operands skipped. */
  lemma GatherLayout(s: State)
    requires StateOk(s) && s.last <= s.optind
    ensures var g := Gather(s);
            && g.argv == s.argv[..1] + OptionsOf(s) + OperandsOf(s) + RestOf(s)
            && g.first == 1 + |OptionsOf(s)| && g.optind == s.optind && g.first <= g.optind && g.nextchar == s.nextchar
  {
    assert s.argv[..s.first] == s.argv[..1] + s.argv[1..s.first];
    Layout(s);
    if s.last == s.optind {
      assert OptionsOf(s) == s.argv[1..s.first];
    } else if s.first == s.last {
      assert OperandsOf(s) == [] && OptionsOf(s) == s.argv[1..s.optind];
    } else {
      assert Gather(s).argv == s.argv[..s.first] + s.argv[s.last..s.optind] + OperandsOf(s) + RestOf(s);
    }
  }

  /** The PERMUTE block keeps that order and extends the operands by those it skips. */
  lemma PermuteLayout(s: State)
    requires StateOk(s) && s.last <= s.optind
    ensures var p := PermuteStep(s);
            && s.optind <= p.optind <= |s.argv| && p.last == p.optind && p.first == 1 + |OptionsOf(s)|
            && p.argv == s.argv[..1] + OptionsOf(s) + OperandsOf(s) + RestOf(s)
            && |p.argv| == |s.argv| && p.argv[s.optind..] == RestOf(s) && p.nextchar == s.nextchar
            && p.argv[..p.first] == s.argv[..1] + OptionsOf(s)
            && p.argv[p.first..p.last] == OperandsOf(s) + p.argv[s.optind..p.optind]
            && (forall j | s.optind <= j < p.optind :: IsNonOption(p.argv[j]))
            && (p.optind < |p.argv| ==> !IsNonOption(p.argv[p.optind]))
  {
    hide OptionsOf, OperandsOf, Gather;
    GatherLayout(s);
    Layout(s);
    var front, back := s.argv[..1] + OptionsOf(s), RestOf(s);
    Cuts(PermuteStep(s).argv, front, OperandsOf(s), back, PermuteStep(s).optind);
  }

  lemma Cuts(row: seq<string>, a: seq<string>, b: seq<string>, c: seq<string>, k: int)
    requires row == a + b + c && |a + b| <= k <= |row|
    ensures row[..|a|] == a && row[|a + b|..] == c && row[|a|..k] == b + row[|a + b|..k]
  {
  }

  /** `--` goes between the options and the operands. */
  lemma DashesLayout(p: State)
    requires 1 <= p.first <= p.last == p.optind < |p.argv|
    ensures var d := DashesStep(p);
            && d.argv == p.argv[..p.first] + [p.argv[p.optind]] + p.argv[p.first..p.last] + p.argv[p.optind + 1..]
            && d.first == p.first + 1 && d.last == d.optind == |p.argv| && d.nextchar == p.nextchar
  {
  }

  /** What arranging leaves for the element at optind to be looked at. */
  ghost predicate Arranged(s: State, a: State) {
    && |a.argv| == |s.argv| && 1 <= a.first <= a.last <= |a.argv| && a.first <= a.optind <= |a.argv|
    && a.nextchar == "" && 0 <= s.optind <= a.optind
    && (a.optind < |a.argv| ==> a.last <= a.optind && a.argv[a.optind] != DASHES)
    && (a.optind < |a.argv| ==> a.argv[s.optind..] == s.argv[s.optind..])
  }

  lemma ClampOk(s: State)
    requires StateOk(s)
    ensures StateOk(Clamp(s)) && Clamp(s).last <= s.optind
    ensures Clamp(s) == s.(last := Clamp(s).last, first := Clamp(s).first)
    ensures s.last <= s.optind ==> Clamp(s) == s
  {
  }

  lemma ArrangeOk(ord: Ordering, s: State)
    requires StateOk(s) && s.nextchar == ""
    ensures Arranged(s, Arrange(ord, s))
  {
    hide PermuteStep, DashesStep, Clamp, OptionsOf, OperandsOf, RestOf;
    ClampOk(s);
    var c := Clamp(s);
    var p := c;
    if ord == Permute {
      PermuteLayout(c);
      p := PermuteStep(c);
      RestIs(c);
    }
    if p.optind != |p.argv| && p.argv[p.optind] == DASHES {
      DashesInPlace(p);
    }
  }

  lemma RestIs(s: State)
    requires StateOk(s)
    ensures RestOf(s) == s.argv[s.optind..] && |OptionsOf(Clamp(s))| >= 0
  {
  }

  lemma DashesInPlace(p: State)
    requires 1 <= p.first <= p.last <= p.optind < |p.argv|
    ensures var d := DashesStep(p);
            && |d.argv| == |p.argv| && 1 <= d.first <= d.last == d.optind == |p.argv| && d.nextchar == p.nextchar
  {
  }

  /** Every call keeps the state well formed, and unless it returns -1 it reads something. */
  ghost predicate Progress(s: State, t: State, o: Outcome)
    requires StateOk(s)
  {
    && |t.argv| == |s.argv| && StateOk(t)
    && (o.Got? ==> t.last <= t.optind && Unread(t) < Unread(s))
  }

  /** What is unread at a later place of the same row is less. */
  lemma CostAt(row: seq<string>, i: nat, j: nat)
    requires i <= j < |row|
    ensures Cost(row[j..]) <= Cost(row[i..])
    ensures Cost(row[j..]) == |row[j]| + 1 + Cost(row[j + 1..])
  {
    CostDrops(row[i..], j - i);
    assert row[j..] == row[i..][j - i..];
    assert row[j..][0] == row[j] && row[j..][1..] == row[j + 1..];
  }

  lemma OperandProgress(s: State, a: State)
    requires StateOk(s) && s.nextchar == "" && Arranged(s, a) && a.optind < |a.argv|
    ensures StateOk(a.(optind := a.optind + 1)) && Unread(a.(optind := a.optind + 1)) < Unread(s)
  {
    hide Cost;
    CostAt(a.argv, s.optind, a.optind);
  }

  lemma ElementStart(s: State, a: State, skip: nat)
    requires StateOk(s) && s.nextchar == "" && Arranged(s, a) && a.optind < |a.argv|
    requires !IsNonOption(a.argv[a.optind]) && 1 <= skip < |a.argv[a.optind]|
    ensures var b := a.(nextchar := a.argv[a.optind][skip..]);
            b.nextchar != "" && StateOk(b) && Unread(b) < Unread(s)
  {
    hide Cost;
    CostAt(a.argv, s.optind, a.optind);
  }

  lemma CallOk(syntax: Syntax, ord: Ordering, s: State)
    requires StateOk(s)
    ensures Progress(s, Call(syntax, ord, s).0, Call(syntax, ord, s).1)
  {
    hide Arrange, Exchanged, Unread, Decode;
    if s.nextchar != "" {
      DecodeOk(syntax, s);
    } else {
      ArrangeOk(ord, s);
      var a := Arrange(ord, s);
      if a.optind < |a.argv| {
        OperandProgress(s, a);
        if !IsNonOption(a.argv[a.optind]) {
          var skip := if IsLong(syntax, a.argv[a.optind]) then 2 else 1;
          ElementStart(s, a, skip);
          DecodeOk(syntax, a.(nextchar := a.argv[a.optind][skip..]));
        }
      }
    }
  }

  lemma DecodeOk(syntax: Syntax, s: State)
    requires StateOk(s) && s.nextchar != ""
    ensures var (t, o) := Decode(syntax, s);
            |t.argv| == |s.argv| && StateOk(t) && o.Got? && t.last <= t.optind && Unread(t) < Unread(s)
  {
    hide Cost;
    var t := Decode(syntax, s).0;
    if t.nextchar == "" {
      CostDrops(s.argv[s.optind + 1..], t.optind - (s.optind + 1));
      assert s.argv[s.optind + 1..][t.optind - (s.optind + 1)..] == s.argv[t.optind..];
    }
  }

  // ---- Whole runs ----------------------------------------------------------------------------------

  /** Calls until the first -1: the results in between, and the state then. */
  function Run(syntax: Syntax, ord: Ordering, s: State): (seq<Event>, State)
    requires StateOk(s)
    decreases Unread(s)
  {
    CallOk(syntax, ord, s);
    var (t, o) := Call(syntax, ord, s);
    if o.Done? then ([], t)
    else
      var (events, last) := Run(syntax, ord, t);
      ([o.event] + events, last)
  }

  /** The scan ends: getopt returns something other than -1 at most once per unread character or
      element end, and between calls the indices stay in order. */
  lemma {:induction false} RunEnds(syntax: Syntax, ord: Ordering, s: State)
    requires StateOk(s)
    ensures |Run(syntax, ord, s).0| <= Unread(s)
    ensures StateOk(Run(syntax, ord, s).1)
    decreases Unread(s)
  {
    hide Call;
    CallOk(syntax, ord, s);
    if Call(syntax, ord, s).1.Got? {
      RunEnds(syntax, ord, Call(syntax, ord, s).0);
    }
  }

  // ---- One element -----------------------------------------------------------------------------------

  lemma AsEventsCons(r: Report, reports: seq<Report>)
    ensures AsEvents([r] + reports) == [Option(r)] + AsEvents(reports)
    ensures AsEvents([r]) == [Option(r)]
  {
  }

  /** The state after the element at optind, which uses up `taken` elements. */
  function After(s: State, taken: nat): State {
    s.(optind := s.optind + taken, nextchar := "")
  }

  /** A run that starts inside an element starts by decoding. */
  lemma RunDecodes(syntax: Syntax, ord: Ordering, s: State)
    requires StateOk(s) && s.nextchar != ""
    ensures var (t, o) := Decode(syntax, s);
            && StateOk(t) && o.Got?
            && Run(syntax, ord, s).0 == [o.event] + Run(syntax, ord, t).0
            && Run(syntax, ord, s).1 == Run(syntax, ord, t).1
  {
    hide Decode, Unread;
    CallOk(syntax, ord, s);
    DecodeOk(syntax, s);
  }

  /** Calls that find option characters left over decode exactly those. */
  lemma {:induction false} ClusterRun(syntax: Syntax, ord: Ordering, s: State)
    requires StateOk(s) && s.nextchar != "" && !IsLong(syntax, s.argv[s.optind])
    ensures var (reports, taken) := ScanShort(syntax, s.nextchar, s.argv[s.optind + 1..]);
            && StateOk(After(s, taken))
            && Run(syntax, ord, s).0 == AsEvents(reports) + Run(syntax, ord, After(s, taken)).0
            && Run(syntax, ord, s).1 == Run(syntax, ord, After(s, taken)).1
    decreases |s.nextchar|
  {
    hide Run, DecodeShort, AsEvents, Unread;
    var d := DecodeShort(syntax, s.nextchar, s.argv[s.optind + 1..]);
    var t := Decode(syntax, s).0;
    RunDecodes(syntax, ord, s);
    if d.rest == "" {
      AsEventsCons(d.report, []);
      assert t == After(s, d.taken);
    } else {
      ClusterRun(syntax, ord, t);
      var (reports, taken) := ScanShort(syntax, d.rest, s.argv[s.optind + 1..]);
      AsEventsCons(d.report, reports);
      assert After(t, taken) == After(s, taken);
    }
  }

  /** Decoding from the start of an element reports all that the element says. */
  lemma ElementRun(syntax: Syntax, ord: Ordering, s: State)
    requires StateOk(s) && s.nextchar != ""
    requires s.nextchar == s.argv[s.optind][if IsLong(syntax, s.argv[s.optind]) then 2 else 1..]
    ensures var (reports, taken) := ScanElement(syntax, s.argv[s.optind], s.argv[s.optind + 1..]);
            && StateOk(After(s, taken))
            && Run(syntax, ord, s).0 == AsEvents(reports) + Run(syntax, ord, After(s, taken)).0
            && Run(syntax, ord, s).1 == Run(syntax, ord, After(s, taken)).1
  {
    hide Run, DecodeShort, DecodeLong, AsEvents, Unread;
    if IsLong(syntax, s.argv[s.optind]) {
      RunDecodes(syntax, ord, s);
      var d := DecodeLong(syntax, s.nextchar, s.argv[s.optind + 1..]);
      AsEventsCons(d.report, []);
      assert Decode(syntax, s).0 == After(s, d.taken);
    } else {
      ClusterRun(syntax, ord, s);
    }
  }

  // ---- Scanning -----------------------------------------------------------------------------------------

  function AsOperands(args: seq<string>): (events: seq<Event>)
    ensures |events| == |args|
  {
    seq(|args|, i requires 0 <= i < |args| => Operand(args[i]))
  }

  /** A scan that starts with some operands. */
  function WithOperands(args: seq<string>, s: Scan): Scan {
    s.(events := AsOperands(args) + s.events, operands := args + s.operands)
  }

  lemma ScanOperand(syntax: Syntax, args: seq<string>)
    requires args != [] && IsNonOption(args[0])
    ensures ScanArgs(syntax, args) == WithOperands([args[0]], ScanArgs(syntax, args[1..]))
  {
    assert AsOperands([args[0]]) == [Operand(args[0])];
  }

  lemma WithMoreOperands(a: string, b: seq<string>, s: Scan)
    ensures WithOperands([a], WithOperands(b, s)) == WithOperands([a] + b, s)
  {
    assert AsOperands([a] + b) == AsOperands([a]) + AsOperands(b);
    assert AsOperands([a]) + (AsOperands(b) + s.events) == AsOperands([a] + b) + s.events;
    assert [a] + (b + s.operands) == ([a] + b) + s.operands;
  }

  lemma {:induction false} ScanSkips(syntax: Syntax, args: seq<string>, n: nat)
    requires n <= |args| && forall j | 0 <= j < n :: IsNonOption(args[j])
    ensures ScanArgs(syntax, args) == WithOperands(args[..n], ScanArgs(syntax, args[n..]))
  {
    hide ScanArgs;
    if n == 0 {
      assert args[0..] == args && AsOperands(args[..0]) == [];
      var s := ScanArgs(syntax, args);
      assert [] + s.events == s.events && [] + s.operands == s.operands;
    } else {
      ScanOperand(syntax, args);
      ScanSkips(syntax, args[1..], n - 1);
      assert args[1..][n - 1..] == args[n..];
      assert args[..n] == [args[0]] + args[1..][..n - 1];
      WithMoreOperands(args[0], args[1..][..n - 1], ScanArgs(syntax, args[n..]));
    }
  }

  lemma {:induction false} OptionsConcat(a: seq<Event>, b: seq<Event>)
    ensures Options(a + b) == Options(a) + Options(b)
  {
    if a == [] {
      assert a + b == b;
    } else {
      OptionsConcat(a[1..], b);
      var first := if a[0].Option? then [a[0]] else [];
      assert (a + b)[0] == a[0] && (a + b)[1..] == a[1..] + b;
      assert Options(a + b) == first + (Options(a[1..]) + Options(b)) == (first + Options(a[1..])) + Options(b);
    }
  }

  lemma {:induction false} OptionsOfReports(reports: seq<Report>)
    ensures Options(AsEvents(reports)) == AsEvents(reports)
  {
    if reports != [] {
      OptionsOfReports(reports[1..]);
      assert AsEvents(reports)[1..] == AsEvents(reports[1..]);
      assert AsEvents(reports) == [AsEvents(reports)[0]] + AsEvents(reports[1..]);
    }
  }

  lemma {:induction false} NoOptionsInOperands(args: seq<string>)
    ensures Options(AsOperands(args)) == []
  {
    if args != [] {
      NoOptionsInOperands(args[1..]);
      assert AsOperands(args)[1..] == AsOperands(args[1..]);
    }
  }

  /** A scan that starts with an option element and the argument it took. */
  function WithOptions(reports: seq<Report>, args: seq<string>, s: Scan): Scan {
    s.(events := AsEvents(reports) + s.events, options := args + s.options)
  }

  lemma ScanOption(syntax: Syntax, args: seq<string>)
    requires args != [] && !IsNonOption(args[0]) && args[0] != DASHES
    ensures var (reports, taken) := ScanElement(syntax, args[0], args[1..]);
            ScanArgs(syntax, args) == WithOptions(reports, args[..taken], ScanArgs(syntax, args[taken..]))
  {
  }

  // ---- PERMUTE ---------------------------------------------------------------------------------------

  /** Where everything ends up: all options, `--`, all operands, what followed `--`. */
  function Final(s: State, scan: Scan): seq<string>
    requires StateOk(s) && s.last <= s.optind
  {
    s.argv[..1] + (OptionsOf(s) + scan.options) + (if scan.dashes then [DASHES] else [])
    + (OperandsOf(s) + scan.operands) + scan.tail
  }

  ghost predicate PermuteEnds(s: State, scan: Scan, events: seq<Event>, t: State)
    requires StateOk(s) && s.last <= s.optind
  {
    && events == Options(scan.events)
    && t.argv == Final(s, scan)
    && t.optind == 1 + |OptionsOf(s)| + |scan.options| + (if scan.dashes then 1 else 0)
  }

  /** The operands that the PERMUTE block skips in front of the next element. */
  function Skipped(s: State): seq<string>
    requires StateOk(s) && s.last <= s.optind
  {
    RestOf(s)[..Skip(s.argv, s.optind) - s.optind]
  }

  function Beyond(s: State): seq<string>
    requires StateOk(s) && s.last <= s.optind
  {
    s.argv[Skip(s.argv, s.optind)..]
  }

  lemma {:induction false} SkipSame(a: seq<string>, b: seq<string>, i: int)
    requires 0 <= i <= |a| == |b| && a[i..] == b[i..]
    ensures Skip(a, i) == Skip(b, i)
    decreases |a| - i
  {
    if i < |a| {
      assert a[i] == a[i..][0] == b[i];
      assert a[i + 1..] == a[i..][1..] == b[i..][1..] == b[i + 1..];
      SkipSame(a, b, i + 1);
    }
  }

  /** PermuteLayout, in terms of what is skipped and what lies beyond. */
  lemma PermuteParts(s: State)
    requires StateOk(s) && s.last <= s.optind
    ensures var p := PermuteStep(s);
            && p.optind == p.last == Skip(s.argv, s.optind) && p.first == 1 + |OptionsOf(s)| && p.nextchar == s.nextchar
            && |p.argv| == |s.argv| && p.argv[..p.first] == s.argv[..1] + OptionsOf(s)
            && p.argv[p.first..p.last] == OperandsOf(s) + Skipped(s)
            && p.argv[p.optind..] == Beyond(s)
            && StateOk(p.(nextchar := ""))
    ensures Beyond(s) == [] || !IsNonOption(Beyond(s)[0])
    ensures RestOf(s) == Skipped(s) + Beyond(s) && forall j | 0 <= j < |Skipped(s)| :: IsNonOption(Skipped(s)[j])
  {
    hide PermuteStep, OptionsOf, OperandsOf, Gather, Skip;
    PermuteLayout(s);
    SkipsSame(s);
    RestSkipped(s);
    var p := PermuteStep(s);
    SameTails(p.argv, s.argv, s.optind, p.optind);
  }

  lemma SameTails(a: seq<string>, b: seq<string>, i: int, k: int)
    requires 0 <= i <= k <= |a| == |b| && a[i..] == b[i..]
    ensures a[k..] == b[k..] && a[i..k] == b[i..k]
  {
    assert a[k..] == a[i..][k - i..] == b[i..][k - i..] == b[k..];
    assert a[i..k] == a[i..][..k - i] == b[i..][..k - i] == b[i..k];
  }

  lemma SkipsSame(s: State)
    requires StateOk(s) && s.last <= s.optind
    ensures PermuteStep(s).optind == Skip(s.argv, s.optind)
  {
    hide OptionsOf, OperandsOf;
    PermuteLayout(s);
    assert Gather(s).argv[s.optind..] == RestOf(s);
    SkipSame(Gather(s).argv, s.argv, s.optind);
  }

  lemma RestSkipped(s: State)
    requires StateOk(s) && s.last <= s.optind
    ensures Beyond(s) == [] || !IsNonOption(Beyond(s)[0])
    ensures RestOf(s) == Skipped(s) + Beyond(s) && forall j | 0 <= j < |Skipped(s)| :: IsNonOption(Skipped(s)[j])
  {
    forall j | 0 <= j < |Skipped(s)| ensures IsNonOption(Skipped(s)[j]) {
      assert Skipped(s)[j] == s.argv[s.optind + j];
    }
  }

  /** The scan of the rest, past the skipped operands. */
  lemma ScanRest(syntax: Syntax, s: State)
    requires StateOk(s) && s.last <= s.optind
    ensures ScanArgs(syntax, RestOf(s)) == WithOperands(Skipped(s), ScanArgs(syntax, Beyond(s)))
    ensures Options(ScanArgs(syntax, RestOf(s)).events) == Options(ScanArgs(syntax, Beyond(s)).events)
  {
    hide ScanArgs, Skipped, Beyond, PermuteStep;
    PermuteParts(s);
    var n := |Skipped(s)|;
    ScanSkips(syntax, RestOf(s), n);
    assert RestOf(s)[..n] == Skipped(s) && RestOf(s)[n..] == Beyond(s);
    OptionsConcat(AsOperands(Skipped(s)), ScanArgs(syntax, Beyond(s)).events);
    NoOptionsInOperands(Skipped(s));
  }

  lemma EndScan(syntax: Syntax, s: State)
    requires StateOk(s) && s.last <= s.optind && (Beyond(s) == [] || Beyond(s)[0] == DASHES)
    ensures var scan := ScanArgs(syntax, RestOf(s));
            && Options(scan.events) == [] && scan.options == [] && scan.operands == Skipped(s)
            && scan.dashes == (Beyond(s) != [])
            && scan.tail == if Beyond(s) == [] then [] else Beyond(s)[1..]
  {
    hide Skipped, Beyond, RestOf;
    ScanRest(syntax, s);
    assert Skipped(s) + [] == Skipped(s);
  }

  lemma FinalIs(s: State, scan: Scan)
    requires StateOk(s) && s.last <= s.optind && scan.options == []
    ensures Final(s, scan) == (s.argv[..1] + OptionsOf(s)) + ((if scan.dashes then [DASHES] else []) +
                              ((OperandsOf(s) + scan.operands) + scan.tail))
  {
    hide OptionsOf, OperandsOf;
    assert OptionsOf(s) + [] == OptionsOf(s);
  }

  lemma PermuteStopsAtEnd(syntax: Syntax, s: State)
    requires StateOk(s) && s.last <= s.optind && s.nextchar == "" && Beyond(s) == []
    ensures var (t, o) := Call(syntax, Permute, s);
            o.Done? && PermuteEnds(s, ScanArgs(syntax, RestOf(s)), [], t)
  {
    hide PermuteStep, Skipped, Beyond, OptionsOf, OperandsOf, RestOf, DashesStep, Final, ScanArgs;
    ClampOk(s);
    PermuteParts(s);
    EndScan(syntax, s);
    FinalIs(s, ScanArgs(syntax, RestOf(s)));
    var p := PermuteStep(s);
    assert p.optind == |p.argv|;
    assert p.argv == p.argv[..p.first] + p.argv[p.first..p.last];
    assert [] + ((OperandsOf(s) + Skipped(s)) + []) == OperandsOf(s) + Skipped(s);
  }

  lemma PermuteStopsAtDashes(syntax: Syntax, s: State)
    requires StateOk(s) && s.last <= s.optind && s.nextchar == "" && Beyond(s) != [] && Beyond(s)[0] == DASHES
    ensures var (t, o) := Call(syntax, Permute, s);
            o.Done? && PermuteEnds(s, ScanArgs(syntax, RestOf(s)), [], t)
  {
    hide PermuteStep, Skipped, Beyond, OptionsOf, OperandsOf, RestOf, DashesStep, Final, ScanArgs;
    ClampOk(s);
    PermuteParts(s);
    EndScan(syntax, s);
    FinalIs(s, ScanArgs(syntax, RestOf(s)));
    var p := PermuteStep(s);
    assert p.argv[p.optind] == p.argv[p.optind..][0] == DASHES;
    DashesLayout(p);
    assert p.argv[p.optind + 1..] == p.argv[p.optind..][1..] == Beyond(s)[1..];
    var operands := OperandsOf(s) + Skipped(s);
    assert DashesStep(p).argv == (s.argv[..1] + OptionsOf(s)) + ([DASHES] + (operands + Beyond(s)[1..]));
  }

  /** The scan is over: nothing is left, or the next element is `--`. */
  lemma PermuteStops(syntax: Syntax, s: State)
    requires StateOk(s) && s.last <= s.optind && s.nextchar == ""
    requires Beyond(s) == [] || Beyond(s)[0] == DASHES
    ensures var (t, o) := Call(syntax, Permute, s);
            o.Done? && PermuteEnds(s, ScanArgs(syntax, RestOf(s)), [], t)
  {
    hide Call, PermuteEnds, ScanArgs, RestOf;
    if Beyond(s) == [] {
      PermuteStopsAtEnd(syntax, s);
    } else {
      PermuteStopsAtDashes(syntax, s);
    }
  }

  /** The row after an element was used up. */
  lemma AfterParts(s: State, taken: nat)
    requires StateOk(s) && s.last <= s.optind && taken <= |Beyond(s)|
    ensures var t := After(PermuteStep(s), taken);
            && StateOk(t) && t.last <= t.optind && t.argv[..1] == s.argv[..1]
            && OptionsOf(t) == OptionsOf(s) + Beyond(s)[..taken]
            && OperandsOf(t) == OperandsOf(s) + Skipped(s)
            && RestOf(t) == Beyond(s)[taken..]
  {
    hide PermuteStep, Skipped, Beyond;
    PermuteParts(s);
    var p := PermuteStep(s);
    var t := After(p, taken);
    assert t.argv[..1] == p.argv[..p.first][..1] == s.argv[..1];
    assert t.argv[1..t.first] == p.argv[..p.first][1..] == OptionsOf(s);
    assert t.argv[t.last..t.optind] == p.argv[p.optind..][..taken] == Beyond(s)[..taken];
    assert RestOf(t) == p.argv[p.optind..][taken..];
  }

  /** What holds after the element and the rest of the run holds of the whole. */
  lemma EndsCompose(s: State, t: State, reports: seq<Report>, args: seq<string>, scan: Scan, events: seq<Event>,
      last: State)
    requires StateOk(s) && s.last <= s.optind && StateOk(t) && t.last <= t.optind && t.argv[..1] == s.argv[..1]
    requires OptionsOf(t) == OptionsOf(s) + args && OperandsOf(t) == OperandsOf(s) + Skipped(s)
    requires PermuteEnds(t, scan, events, last)
    ensures PermuteEnds(s, WithOperands(Skipped(s), WithOptions(reports, args, scan)), AsEvents(reports) + events, last)
  {
    hide OptionsOf, OperandsOf, Skipped;
    OptionsConcat(AsOperands(Skipped(s)), AsEvents(reports) + scan.events);
    OptionsConcat(AsEvents(reports), scan.events);
    OptionsOfReports(reports);
    NoOptionsInOperands(Skipped(s));
    assert OptionsOf(t) + scan.options == OptionsOf(s) + (args + scan.options);
    assert OperandsOf(t) + scan.operands == OperandsOf(s) + (Skipped(s) + scan.operands);
  }

  /** One element of a run in PERMUTE order. */
  lemma PermuteElement(syntax: Syntax, s: State) returns (reports: seq<Report>, taken: nat)
    requires StateOk(s) && s.last <= s.optind && s.nextchar == ""
    requires Beyond(s) != [] && Beyond(s)[0] != DASHES
    ensures !IsNonOption(Beyond(s)[0]) && (reports, taken) == ScanElement(syntax, Beyond(s)[0], Beyond(s)[1..])
    ensures var t := After(PermuteStep(s), taken);
            && StateOk(t) && Unread(t) < Unread(s)
            && Run(syntax, Permute, s).0 == AsEvents(reports) + Run(syntax, Permute, t).0
            && Run(syntax, Permute, s).1 == Run(syntax, Permute, t).1
  {
    hide PermuteStep, Skipped, RestOf, Run, Decode, ScanElement, Unread;
    ClampOk(s);
    PermuteParts(s);
    var p := PermuteStep(s);
    assert p.argv[p.optind] == p.argv[p.optind..][0] == Beyond(s)[0];
    assert p.argv[p.optind + 1..] == p.argv[p.optind..][1..] == Beyond(s)[1..];
    var skip := if IsLong(syntax, p.argv[p.optind]) then 2 else 1;
    var b := p.(nextchar := p.argv[p.optind][skip..]);
    DecodeOk(syntax, b);
    assert Call(syntax, Permute, s) == Decode(syntax, b);
    RunCalls(syntax, Permute, s);
    RunDecodes(syntax, Permute, b);
    ElementRun(syntax, Permute, b);
    var scanned := ScanElement(syntax, Beyond(s)[0], Beyond(s)[1..]);
    reports, taken := scanned.0, scanned.1;
    assert After(b, taken) == After(p, taken);
    ElementProgress(s, p, taken);
  }

  lemma RunCalls(syntax: Syntax, ord: Ordering, s: State)
    requires StateOk(s) && Call(syntax, ord, s).1.Got?
    ensures var (t, o) := Call(syntax, ord, s);
            && StateOk(t)
            && Run(syntax, ord, s).0 == [o.event] + Run(syntax, ord, t).0
            && Run(syntax, ord, s).1 == Run(syntax, ord, t).1
  {
    hide Call, Unread;
    CallOk(syntax, ord, s);
  }

  lemma ElementProgress(s: State, p: State, taken: nat)
    requires StateOk(s) && s.nextchar == "" && s.last <= s.optind && p == PermuteStep(s) && p.optind < |p.argv|
    requires 1 <= taken && StateOk(After(p, taken))
    ensures Unread(After(p, taken)) < Unread(s)
  {
    hide PermuteStep, Cost;
    PermuteLayout(s);
    CostAt(p.argv, s.optind, p.optind);
    CostDrops(p.argv[p.optind + 1..], taken - 1);
    assert p.argv[p.optind + 1..][taken - 1..] == p.argv[p.optind + taken..];
  }

  /** PERMUTE, from any state between elements. */
  lemma {:induction false} PermuteRun(syntax: Syntax, s: State)
    requires StateOk(s) && s.last <= s.optind && s.nextchar == ""
    ensures PermuteEnds(s, ScanArgs(syntax, RestOf(s)), Run(syntax, Permute, s).0, Run(syntax, Permute, s).1)
    decreases Unread(s)
  {
    hide Beyond, Skipped, RestOf, OptionsOf, OperandsOf, PermuteStep, PermuteEnds, ScanArgs, Call, Unread, ScanElement;
    if Beyond(s) == [] || Beyond(s)[0] == DASHES {
      PermuteStops(syntax, s);
      RunStops(syntax, Permute, s);
    } else {
      var reports, taken := PermuteElement(syntax, s);
      ElementTakes(syntax, Beyond(s));
      AfterParts(s, taken);
      var t := After(PermuteStep(s), taken);
      PermuteRun(syntax, t);
      ScanRest(syntax, s);
      ScanOption(syntax, Beyond(s));
      EndsCompose(s, t, reports, Beyond(s)[..taken], ScanArgs(syntax, RestOf(t)),
                  Run(syntax, Permute, t).0, Run(syntax, Permute, t).1);
    }
  }

  lemma ElementTakes(syntax: Syntax, args: seq<string>)
    requires args != [] && !IsNonOption(args[0])
    ensures 1 <= ScanElement(syntax, args[0], args[1..]).1 <= |args|
  {
  }

  lemma RunStops(syntax: Syntax, ord: Ordering, s: State)
    requires StateOk(s) && Call(syntax, ord, s).1.Done?
    ensures Run(syntax, ord, s) == ([], Call(syntax, ord, s).0)
  {
    hide Call, Unread;
  }

  // ---- RETURN_IN_ORDER and REQUIRE_ORDER -------------------------------------------------------------

  /** In these orderings nothing is ever recorded as skipped. */
  ghost predicate InPlace(s: State) {
    StateOk(s) && s.first == s.last == 1 && s.nextchar == ""
  }

  lemma PlainArrange(ord: Ordering, s: State)
    requires InPlace(s) && ord != Permute
    ensures RestOf(s) == [] || RestOf(s)[0] != DASHES ==> Arrange(ord, s) == s
    ensures RestOf(s) != [] && RestOf(s)[0] == DASHES ==>
              Arrange(ord, s) == s.(first := s.optind + 1, last := |s.argv|, optind := |s.argv|)
  {
  }

  /** The end of a scan in these orderings: argv is as it was, and optind is past `--`. */
  lemma PlainStops(syntax: Syntax, ord: Ordering, s: State)
    requires InPlace(s) && ord != Permute && (RestOf(s) == [] || RestOf(s)[0] == DASHES)
    ensures var (t, o) := Call(syntax, ord, s);
            o.Done? && t.argv == s.argv && t.optind == s.optind + (if RestOf(s) == [] then 0 else 1)
  {
    PlainArrange(ord, s);
  }

  lemma PlainOperand(syntax: Syntax, ord: Ordering, s: State)
    requires InPlace(s) && ord != Permute && RestOf(s) != [] && IsNonOption(RestOf(s)[0])
    ensures var t := s.(optind := s.optind + 1);
            && InPlace(t) && RestOf(t) == RestOf(s)[1..]
            && Call(syntax, ord, s) == if ord == RequireOrder then (s, Done) else (t, Got(Operand(RestOf(s)[0])))
  {
    PlainArrange(ord, s);
  }

  lemma PlainElement(syntax: Syntax, ord: Ordering, s: State) returns (reports: seq<Report>, taken: nat)
    requires InPlace(s) && ord != Permute && RestOf(s) != [] && !IsNonOption(RestOf(s)[0]) && RestOf(s)[0] != DASHES
    ensures (reports, taken) == ScanElement(syntax, RestOf(s)[0], RestOf(s)[1..])
    ensures var t := After(s, taken);
            && InPlace(t) && Unread(t) < Unread(s) && RestOf(t) == RestOf(s)[taken..]
            && Run(syntax, ord, s).0 == AsEvents(reports) + Run(syntax, ord, t).0
            && Run(syntax, ord, s).1 == Run(syntax, ord, t).1
  {
    hide Run, Decode, ScanElement, Cost, Arrange;
    PlainArrange(ord, s);
    assert s.argv[s.optind] == RestOf(s)[0] && s.argv[s.optind + 1..] == RestOf(s)[1..];
    var skip := if IsLong(syntax, s.argv[s.optind]) then 2 else 1;
    var b := s.(nextchar := s.argv[s.optind][skip..]);
    DecodeOk(syntax, b);
    RunCalls(syntax, ord, s);
    RunDecodes(syntax, ord, b);
    ElementRun(syntax, ord, b);
    var scanned := ScanElement(syntax, RestOf(s)[0], RestOf(s)[1..]);
    reports, taken := scanned.0, scanned.1;
    ElementTakes(syntax, RestOf(s));
    CostAt(s.argv, s.optind, s.optind);
    CostDrops(s.argv[s.optind + 1..], taken - 1);
    assert s.argv[s.optind + 1..][taken - 1..] == s.argv[s.optind + taken..] == RestOf(s)[taken..];
    assert After(b, taken) == After(s, taken);
  }

  /** RETURN_IN_ORDER, from any state between elements: every event of the scan, in order. */
  lemma {:induction false} InOrderRun(syntax: Syntax, s: State)
    requires InPlace(s)
    ensures var (events, t) := Run(syntax, ReturnInOrder, s);
            var scan := ScanArgs(syntax, RestOf(s));
            events == scan.events && t.argv == s.argv && t.optind == |s.argv| - |scan.tail|
    decreases Unread(s)
  {
    hide RestOf, Call, ScanElement, Unread, Run, ScanArgs;
    RestLength(s);
    if RestOf(s) == [] || RestOf(s)[0] == DASHES {
      PlainStops(syntax, ReturnInOrder, s);
      RunStops(syntax, ReturnInOrder, s);
      ScanEnd(syntax, RestOf(s));
    } else if IsNonOption(RestOf(s)[0]) {
      PlainOperand(syntax, ReturnInOrder, s);
      RunCalls(syntax, ReturnInOrder, s);
      CallOk(syntax, ReturnInOrder, s);
      ScanOperand(syntax, RestOf(s));
      InOrderRun(syntax, s.(optind := s.optind + 1));
      assert AsOperands([RestOf(s)[0]]) == [Operand(RestOf(s)[0])];
    } else {
      var reports, taken := PlainElement(syntax, ReturnInOrder, s);
      InOrderRun(syntax, After(s, taken));
      ScanOption(syntax, RestOf(s));
    }
  }

  lemma RestLength(s: State)
    requires StateOk(s)
    ensures |RestOf(s)| == |s.argv| - s.optind
  {
  }

  lemma ScanEnd(syntax: Syntax, args: seq<string>)
    requires args == [] || args[0] == DASHES
    ensures ScanArgs(syntax, args) == Scan([], [], [], args != [], if args == [] then [] else args[1..])
  {
  }

  /** How many elements come before the first operand, with a `--` that ends the options. */
  function Leading(syntax: Syntax, args: seq<string>): (n: nat)
    ensures n <= |args|
    decreases |args|
  {
    if args == [] || IsNonOption(args[0]) then 0
    else if args[0] == DASHES then 1
    else
      var taken := ScanElement(syntax, args[0], args[1..]).1;
      taken + Leading(syntax, args[taken..])
  }

  lemma {:induction false} BeforeOperandReports(reports: seq<Report>, events: seq<Event>)
    ensures BeforeOperand(AsEvents(reports) + events) == AsEvents(reports) + BeforeOperand(events)
  {
    if reports == [] {
      assert AsEvents(reports) + events == events;
    } else {
      BeforeOperandReports(reports[1..], events);
      AsEventsCons(reports[0], reports[1..]);
      assert [reports[0]] + reports[1..] == reports;
      assert (AsEvents(reports) + events)[1..] == AsEvents(reports[1..]) + events;
    }
  }

  /** REQUIRE_ORDER, from any state between elements: the events before the first operand. */
  lemma {:induction false} RequireOrderRun(syntax: Syntax, s: State)
    requires InPlace(s)
    ensures var (events, t) := Run(syntax, RequireOrder, s);
            && events == BeforeOperand(ScanArgs(syntax, RestOf(s)).events)
            && t.argv == s.argv && t.optind == s.optind + Leading(syntax, RestOf(s))
    decreases Unread(s)
  {
    hide RestOf, Call, ScanElement, Unread, Run, ScanArgs;
    if RestOf(s) == [] || RestOf(s)[0] == DASHES {
      PlainStops(syntax, RequireOrder, s);
      RunStops(syntax, RequireOrder, s);
      ScanEnd(syntax, RestOf(s));
    } else if IsNonOption(RestOf(s)[0]) {
      PlainOperand(syntax, RequireOrder, s);
      RunStops(syntax, RequireOrder, s);
      ScanOperand(syntax, RestOf(s));
      assert AsOperands([RestOf(s)[0]]) == [Operand(RestOf(s)[0])];
    } else {
      var reports, taken := PlainElement(syntax, RequireOrder, s);
      RequireOrderRun(syntax, After(s, taken));
      ScanOption(syntax, RestOf(s));
      BeforeOperandReports(reports, ScanArgs(syntax, RestOf(s)[taken..]).events);
    }
  }
}
