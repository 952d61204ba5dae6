/** Different spellings of the same options mean the same to getopt. */
module GetoptSpelling {
  import opened GetoptSpec
  import opened GetoptMachine
  import opened GetoptRuns
  import opened GetoptTheorems

  // ---- Argument lists in parts -----------------------------------------------------------------------

  /** The short options of an element end in one that takes the next element as its argument. */
  predicate ShortNeedsNext(syntax: Syntax, next: string)
    decreases |next|
  {
    next != "" &&
    match KindOf(syntax, next[0])
    case RequiredArg => |next| == 1
    case OptionalArg => false
    case _ => ShortNeedsNext(syntax, next[1..])
  }

  predicate LongNeedsNext(syntax: Syntax, next: string) {
    NameLength(next) == |next| && Resolve(syntax.long, next).Found?
    && syntax.long[Resolve(syntax.long, next).index].hasArg == 1
  }

  predicate NeedsNext(syntax: Syntax, element: string)
    requires !IsNonOption(element)
  {
    if IsLong(syntax, element) then LongNeedsNext(syntax, element[2..]) else ShortNeedsNext(syntax, element[1..])
  }

  /** The list is scanned to its end whatever follows it: it has no `--` to end the options, and no
      option that lacks its argument. */
  predicate IsComplete(syntax: Syntax, args: seq<string>)
    decreases |args|
  {
    if args == [] then true
    else if args[0] == DASHES then false
    else if IsNonOption(args[0]) then IsComplete(syntax, args[1..])
    else (NeedsNext(syntax, args[0]) ==> |args| > 1) &&
         IsComplete(syntax, args[ScanElement(syntax, args[0], args[1..]).1..])
  }

  lemma {:induction false} ShortIgnoresRest(syntax: Syntax, next: string, a: seq<string>, b: seq<string>)
    requires next != "" && (ShortNeedsNext(syntax, next) ==> a != [] && b != [] && a[0] == b[0])
    ensures ScanShort(syntax, next, a) == ScanShort(syntax, next, b)
    decreases |next|
  {
    var d := DecodeShort(syntax, next, a);
    if d.rest != "" {
      ShortIgnoresRest(syntax, next[1..], a, b);
    }
  }

  /** An element reads nothing beyond the argument it needs. */
  lemma ElementIgnoresRest(syntax: Syntax, element: string, a: seq<string>, b: seq<string>)
    requires !IsNonOption(element) && (NeedsNext(syntax, element) ==> a != [] && b != [] && a[0] == b[0])
    ensures ScanElement(syntax, element, a) == ScanElement(syntax, element, b)
  {
    if IsLong(syntax, element) {
      var next := element[2..];
      assert NameLength(next) == |next| ==> next[..NameLength(next)] == next;
    } else {
      ShortIgnoresRest(syntax, element[1..], a, b);
    }
  }

  /** The scan of a list in two parts. */
  function Joined(a: Scan, b: Scan): Scan {
    Scan(a.events + b.events, a.options + b.options, a.operands + b.operands, b.dashes, b.tail)
  }

  lemma {:induction false} ScanJoins(syntax: Syntax, front: seq<string>, rest: seq<string>)
    requires IsComplete(syntax, front)
    ensures ScanArgs(syntax, front + rest) == Joined(ScanArgs(syntax, front), ScanArgs(syntax, rest))
    decreases |front|
  {
    hide ScanArgs, ScanElement;
    if front == [] {
      ScanEnd(syntax, front);
      assert front + rest == rest;
      JoinNothing(ScanArgs(syntax, rest));
    } else if IsNonOption(front[0]) {
      assert (front + rest)[1..] == front[1..] + rest;
      ScanJoins(syntax, front[1..], rest);
      ScanOperand(syntax, front);
      ScanOperand(syntax, front + rest);
      JoinOperands([front[0]], ScanArgs(syntax, front[1..]), ScanArgs(syntax, rest));
    } else {
      assert (front + rest)[1..] == front[1..] + rest;
      ElementIgnoresRest(syntax, front[0], front[1..], (front + rest)[1..]);
      ElementTakes(syntax, front);
      var (reports, taken) := ScanElement(syntax, front[0], front[1..]);
      assert (front + rest)[taken..] == front[taken..] + rest && (front + rest)[..taken] == front[..taken];
      ScanJoins(syntax, front[taken..], rest);
      ScanOption(syntax, front);
      ScanOption(syntax, front + rest);
      JoinOptions(reports, front[..taken], ScanArgs(syntax, front[taken..]), ScanArgs(syntax, rest));
    }
  }

  lemma JoinNothing(s: Scan)
    ensures Joined(Scan([], [], [], false, []), s) == s
  {
  }

  lemma JoinOperands(args: seq<string>, a: Scan, b: Scan)
    ensures WithOperands(args, Joined(a, b)) == Joined(WithOperands(args, a), b)
  {
    assert AsOperands(args) + (a.events + b.events) == (AsOperands(args) + a.events) + b.events;
    assert args + (a.operands + b.operands) == (args + a.operands) + b.operands;
  }

  lemma JoinOptions(reports: seq<Report>, args: seq<string>, a: Scan, b: Scan)
    ensures WithOptions(reports, args, Joined(a, b)) == Joined(WithOptions(reports, args, a), b)
  {
    assert AsEvents(reports) + (a.events + b.events) == (AsEvents(reports) + a.events) + b.events;
    assert args + (a.options + b.options) == (args + a.options) + b.options;
  }

  // ---- Clusters --------------------------------------------------------------------------------------

  /** An option character that takes no argument, known or not. */
  predicate StandsAlone(syntax: Syntax, c: char) {
    KindOf(syntax, c) == Plain || KindOf(syntax, c) == Unknown
  }

  /** Splitting the first option off a cluster leaves an element of short options. */
  predicate CanSplit(syntax: Syntax, c: char, cs: string) {
    && StandsAlone(syntax, c) && c != '-' && cs != ""
    && "-" + cs != DASHES && !IsLong(syntax, "-" + cs)
  }

  /** "-ab" reads like "-a" "-b", wherever it stands in the arguments. */
  lemma ClusterSplits(syntax: Syntax, front: seq<string>, c: char, cs: string, rest: seq<string>)
    requires IsComplete(syntax, front) && CanSplit(syntax, c, cs)
    ensures ScanArgs(syntax, front + ["-" + [c] + cs] + rest).events ==
            ScanArgs(syntax, front + ["-" + [c], "-" + cs] + rest).events
  {
    var whole, first, second := "-" + [c] + cs, "-" + [c], "-" + cs;
    assert front + [whole] + rest == front + ([whole] + rest);
    assert front + [first, second] + rest == front + ([first, second] + rest);
    ScanJoins(syntax, front, [whole] + rest);
    ScanJoins(syntax, front, [first, second] + rest);
    SplitHere(syntax, c, cs, rest);
  }

  /** Splitting a cluster changes no result of any run, in any ordering. */
  lemma ClusterSplitsRunAlike(syntax: Syntax, ord: Ordering, program: string, front: seq<string>, c: char,
      cs: string, rest: seq<string>)
    requires IsComplete(syntax, front) && CanSplit(syntax, c, cs)
    ensures Run(syntax, ord, Init([program] + (front + ["-" + [c] + cs] + rest))).0 ==
            Run(syntax, ord, Init([program] + (front + ["-" + [c], "-" + cs] + rest))).0
  {
    hide Run, ScanArgs;
    ClusterSplits(syntax, front, c, cs, rest);
    var a, b := front + ["-" + [c] + cs] + rest, front + ["-" + [c], "-" + cs] + rest;
    assert ([program] + a)[1..] == a && ([program] + b)[1..] == b;
    EventsDecideResults(syntax, ord, [program] + a, [program] + b);
  }

  lemma SplitHere(syntax: Syntax, c: char, cs: string, rest: seq<string>)
    requires CanSplit(syntax, c, cs)
    ensures ScanArgs(syntax, ["-" + [c] + cs] + rest).events == ScanArgs(syntax, ["-" + [c], "-" + cs] + rest).events
  {
    hide ScanArgs, ScanElement, CanSplit, IsNonOption, AsEvents;
    var whole, first, second := "-" + [c] + cs, "-" + [c], "-" + cs;
    var a, b := [whole] + rest, [first, second] + rest;
    assert a[1..] == rest && b[1..] == [second] + rest && b[1..][1..] == rest;
    var head, reports, taken := SplitElements(syntax, c, cs, rest, b[1..]);
    ScanOption(syntax, a);
    ScanOption(syntax, b);
    ScanOption(syntax, b[1..]);
    ElementTakes(syntax, b[1..]);
    assert b[1..][taken..] == rest[taken - 1..] == a[taken..];
    AsEventsCons(head, reports);
    assert ([Option(head)] + AsEvents(reports)) + ScanArgs(syntax, a[taken..]).events
        == [Option(head)] + (AsEvents(reports) + ScanArgs(syntax, a[taken..]).events);
  }

  /** What the elements before and after the split report and take. */
  lemma SplitElements(syntax: Syntax, c: char, cs: string, rest: seq<string>, other: seq<string>)
    returns (head: Report, reports: seq<Report>, taken: nat)
    requires CanSplit(syntax, c, cs)
    ensures var whole, first, second := "-" + [c] + cs, "-" + [c], "-" + cs;
      && !IsNonOption(whole) && !IsNonOption(first) && !IsNonOption(second)
      && whole != DASHES && first != DASHES && second != DASHES
      && ScanElement(syntax, whole, rest) == ([head] + reports, taken)
      && ScanElement(syntax, first, other) == ([head], 1)
      && ScanElement(syntax, second, rest) == (reports, taken)
  {
    hide ScanShort, DecodeShort, DecodeLong;
    var whole, first, second := "-" + [c] + cs, "-" + [c], "-" + cs;
    assert whole[1..] == [c] + cs && first[1..] == [c] && second[1..] == cs;
    assert whole[1] == c && first[1] == c && DASHES[1] == '-';
    ClusterHead(syntax, c, cs, rest, other);
    head := DecodeShort(syntax, [c], other).report;
    var (r, t) := ScanShort(syntax, cs, rest);
    reports, taken := r, t;
  }

  lemma ClusterHead(syntax: Syntax, c: char, cs: string, rest: seq<string>, other: seq<string>)
    requires StandsAlone(syntax, c) && cs != ""
    ensures var (reports, taken) := ScanShort(syntax, cs, rest);
            var head := DecodeShort(syntax, [c], other).report;
            && ScanShort(syntax, [c] + cs, rest) == ([head] + reports, taken)
            && ScanShort(syntax, [c], other) == ([head], 1)
  {
    assert ([c] + cs)[1..] == cs && [c][1..] == "";
  }

  lemma SomeReport(syntax: Syntax, element: string, following: seq<string>)
    requires !IsNonOption(element)
    ensures |ScanElement(syntax, element, following).0| > 0
  {
  }

  /** "--" at the front ends the options. */
  lemma DashSplitDiffers(syntax: Syntax, cs: string)
    requires cs != ""
    ensures var events := ScanArgs(syntax, ["--" + cs]).events;
      && events == AsEvents(ScanElement(syntax, "--" + cs, []).0) && events != []
      && ScanArgs(syntax, ["--", "-" + cs]).events == []
  {
    hide ScanArgs, ScanElement;
    var a := ["--" + cs];
    ScanOption(syntax, a);
    ElementTakes(syntax, a);
    SomeReport(syntax, a[0], a[1..]);
    ScanEnd(syntax, []);
    ScanEnd(syntax, ["--", "-" + cs]);
    assert a[1..] == [];
    var reports := ScanElement(syntax, "--" + cs, []).0;
    assert AsEvents(reports) + [] == AsEvents(reports);
  }

  /** In all other cases the split is seen: "--" would end the options, "--x" be a long one. Both
      lists are of options only, and what they report differs. */
  lemma OtherSplitsDiffer(syntax: Syntax, c: char, cs: string) returns (ra: seq<Report>, rb: seq<Report>)
    requires StandsAlone(syntax, c) && cs != "" && !CanSplit(syntax, c, cs)
    ensures ScanArgs(syntax, ["-" + [c] + cs]).events == AsEvents(ra)
    ensures ScanArgs(syntax, ["-" + [c], "-" + cs]).events == AsEvents(rb)
    ensures AsEvents(ra) != AsEvents(rb)
  {
    if c == '-' {
      assert "-" + [c] + cs == "--" + cs && "-" + [c] == "--";
      DashSplitDiffers(syntax, cs);
      ra, rb := ScanElement(syntax, "--" + cs, []).0, [];
    } else {
      ra, rb := LaterSplitDiffers(syntax, c, cs);
    }
  }

  lemma LaterSplitDiffers(syntax: Syntax, c: char, cs: string) returns (ra: seq<Report>, rb: seq<Report>)
    requires StandsAlone(syntax, c) && c != '-' && cs != "" && !CanSplit(syntax, c, cs)
    ensures ScanArgs(syntax, ["-" + [c] + cs]).events == AsEvents(ra)
    ensures ScanArgs(syntax, ["-" + [c], "-" + cs]).events == AsEvents(rb)
    ensures AsEvents(ra) != AsEvents(rb)
  {
    hide ScanArgs, ScanShort, DecodeLong;
    var whole, first, second := "-" + [c] + cs, "-" + [c], "-" + cs;
    var a, b := [whole], [first, second];
    assert a[1..] == [] && b[1..] == [second] && b[1..][1..] == [];
    assert whole[1..] == [c] + cs && first[1..] == [c] && second[1..] == cs;
    ScanOption(syntax, a);
    ScanOption(syntax, b);
    ClusterHead(syntax, c, cs, [], b[1..]);
    ElementTakes(syntax, a);
    ScanEnd(syntax, []);
    var (reports, taken) := ScanShort(syntax, cs, []);
    var head := DecodeShort(syntax, [c], b[1..]).report;
    AsEventsCons(head, reports);
    ra := [head] + reports;
    assert ScanArgs(syntax, a).events == [Option(head)] + AsEvents(reports);
    if second == DASHES {
      ScanEnd(syntax, [second]);
      rb := [head];
      AsEventsCons(head, []);
      assert ScanArgs(syntax, b).events == [Option(head)];
    } else {
      ScanOption(syntax, [second]);
      ElementTakes(syntax, [second]);
      LongIsNotShort(syntax, cs);
      var long := DecodeLong(syntax, second[2..], []).report;
      assert second[2..] == cs[1..];
      AsEventsCons(long, []);
      rb := [head] + [long];
      AsEventsCons(head, [long]);
      assert ScanArgs(syntax, b).events == [Option(head)] + [Option(long)];
      assert AsEvents(reports) == ([Option(head)] + AsEvents(reports))[1..];
      assert ([Option(head)] + [Option(long)])[1..] == [Option(long)];
    }
  }

  /** The split goes unnoticed in the list `front` + cluster + `rest`. */
  ghost predicate SplitUnseen(syntax: Syntax, front: seq<string>, c: char, cs: string, rest: seq<string>) {
    ScanArgs(syntax, front + ["-" + [c] + cs] + rest).events ==
    ScanArgs(syntax, front + ["-" + [c], "-" + cs] + rest).events
  }

  /** Exactly the splits that CanSplit names go unnoticed wherever the cluster stands. */
  lemma SplitUnseenIff(syntax: Syntax, c: char, cs: string)
    requires StandsAlone(syntax, c) && cs != ""
    ensures (forall front, rest | IsComplete(syntax, front) :: SplitUnseen(syntax, front, c, cs, rest))
      <==> CanSplit(syntax, c, cs)
  {
    hide ScanArgs, ScanElement;
    if CanSplit(syntax, c, cs) {
      forall front, rest | IsComplete(syntax, front) ensures SplitUnseen(syntax, front, c, cs, rest) {
        ClusterSplits(syntax, front, c, cs, rest);
      }
    } else {
      var ra, rb := OtherSplitsDiffer(syntax, c, cs);
      assert [] + ["-" + [c] + cs] + [] == ["-" + [c] + cs];
      assert [] + ["-" + [c], "-" + cs] + [] == ["-" + [c], "-" + cs];
      assert !SplitUnseen(syntax, [], c, cs, []);
    }
  }

  /** And the other splits change the results of the run, in every ordering. */
  lemma OtherSplitsRunUnlike(syntax: Syntax, ord: Ordering, program: string, c: char, cs: string)
    requires StandsAlone(syntax, c) && cs != "" && !CanSplit(syntax, c, cs)
    ensures Run(syntax, ord, Init([program, "-" + [c] + cs])).0 != Run(syntax, ord, Init([program, "-" + [c], "-" + cs])).0
  {
    hide Run, ScanArgs, AsEvents;
    var ra, rb := OtherSplitsDiffer(syntax, c, cs);
    var a, b := [program, "-" + [c] + cs], [program, "-" + [c], "-" + cs];
    assert a[1..] == ["-" + [c] + cs] && b[1..] == ["-" + [c], "-" + cs];
    OptionsOnly(syntax, ord, a, ra);
    OptionsOnly(syntax, ord, b, rb);
  }

  /** Where there are options only, all orderings report all of them. */
  lemma OptionsOnly(syntax: Syntax, ord: Ordering, argv: seq<string>, reports: seq<Report>)
    requires |argv| >= 1 && ScanArgs(syntax, argv[1..]).events == AsEvents(reports)
    ensures Run(syntax, ord, Init(argv)).0 == AsEvents(reports)
  {
    hide Run, ScanArgs, AsEvents;
    OrderingsAgree(syntax, argv);
    OptionsOfReports(reports);
    AllBeforeOperand(reports);
  }

  lemma {:induction false} AllBeforeOperand(reports: seq<Report>)
    ensures BeforeOperand(AsEvents(reports)) == AsEvents(reports)
  {
    if reports != [] {
      AllBeforeOperand(reports[1..]);
      assert reports == [reports[0]] + reports[1..];
      AsEventsCons(reports[0], reports[1..]);
    }
  }

  // ---- Whole clusters ----------------------------------------------------------------------------------

  /** Each option character of a cluster as an element of its own. */
  function Separately(cs: string): seq<string> {
    if cs == "" then [] else ["-" + [cs[0]]] + Separately(cs[1..])
  }

  predicate AllStandAlone(syntax: Syntax, cs: string) {
    forall i | 0 <= i < |cs| :: StandsAlone(syntax, cs[i])
  }

  /** A list stays complete when an option without argument is added. */
  lemma {:induction false} CompleteGrows(syntax: Syntax, front: seq<string>, c: char)
    requires IsComplete(syntax, front) && StandsAlone(syntax, c) && c != '-'
    ensures IsComplete(syntax, front + ["-" + [c]])
    decreases |front|
  {
    hide ScanElement;
    var more := front + ["-" + [c]];
    if front == [] {
      LoneOption(syntax, c);
      assert more == ["-" + [c]] && more[1..] == [];
    } else if IsNonOption(front[0]) {
      CompleteGrows(syntax, front[1..], c);
      assert more[1..] == front[1..] + ["-" + [c]];
    } else {
      ElementTakes(syntax, front);
      var taken := ScanElement(syntax, front[0], front[1..]).1;
      assert more[1..] == front[1..] + ["-" + [c]];
      ElementIgnoresRest(syntax, front[0], front[1..], more[1..]);
      CompleteGrows(syntax, front[taken..], c);
      assert more[taken..] == front[taken..] + ["-" + [c]];
    }
  }

  lemma LoneOption(syntax: Syntax, c: char)
    requires StandsAlone(syntax, c) && c != '-'
    ensures var e := "-" + [c];
      !IsNonOption(e) && e != DASHES && !NeedsNext(syntax, e) && ScanElement(syntax, e, []).1 == 1
  {
    var e := "-" + [c];
    assert e[1] == c && DASHES[1] == '-' && e[1..] == [c] && [c][1..] == "";
    assert !ShortNeedsNext(syntax, [c]);
  }

  /** A cluster of options without arguments may fall apart completely. */
  lemma {:induction false} ClusterFallsApart(syntax: Syntax, front: seq<string>, cs: string, rest: seq<string>)
    requires IsComplete(syntax, front) && cs != "" && AllStandAlone(syntax, cs) && '-' !in cs
    ensures ApartUnseen(syntax, front, cs, rest)
    decreases |cs|
  {
    hide ScanArgs, IsComplete, CanSplit, StandsAlone;
    if |cs| == 1 {
      assert cs == [cs[0]] && Separately(cs[1..]) == [];
      assert Separately(cs) == ["-" + cs];
    } else {
      var c, more := cs[0], cs[1..];
      FirstCanSplit(syntax, cs);
      assert "-" + [c] + more == "-" + cs;
      ClusterSplits(syntax, front, c, more, rest);
      CompleteGrows(syntax, front, c);
      ClusterFallsApart(syntax, front + ["-" + [c]], more, rest);
      assert front + ["-" + [c], "-" + more] + rest == front + ["-" + [c]] + ["-" + more] + rest;
      assert front + ["-" + [c]] + Separately(more) + rest == front + Separately(cs) + rest;
    }
  }

  lemma FirstCanSplit(syntax: Syntax, cs: string)
    requires |cs| > 1 && AllStandAlone(syntax, cs) && '-' !in cs
    ensures CanSplit(syntax, cs[0], cs[1..]) && StandsAlone(syntax, cs[0]) && cs[0] != '-'
    ensures AllStandAlone(syntax, cs[1..]) && '-' !in cs[1..]
  {
    hide StandsAlone;
    var more := cs[1..];
    assert more[0] == cs[1] && cs[0] in cs && cs[1] in cs;
    assert ("-" + more)[1] == more[0] && DASHES[1] == '-';
  }

  ghost predicate ApartUnseen(syntax: Syntax, front: seq<string>, cs: string, rest: seq<string>) {
    ScanArgs(syntax, front + ["-" + cs] + rest).events == ScanArgs(syntax, front + Separately(cs) + rest).events
  }

  /** The results of whole runs stay the same, in every ordering. */
  lemma ClusterApartRunsAlike(syntax: Syntax, ord: Ordering, program: string, front: seq<string>, cs: string,
      rest: seq<string>)
    requires IsComplete(syntax, front) && cs != "" && AllStandAlone(syntax, cs) && '-' !in cs
    ensures Run(syntax, ord, Init([program] + (front + ["-" + cs] + rest))).0 ==
            Run(syntax, ord, Init([program] + (front + Separately(cs) + rest))).0
  {
    hide Run, ScanArgs;
    ClusterFallsApart(syntax, front, cs, rest);
    var a, b := front + ["-" + cs] + rest, front + Separately(cs) + rest;
    assert ([program] + a)[1..] == a && ([program] + b)[1..] == b;
    EventsDecideResults(syntax, ord, [program] + a, [program] + b);
  }

  /** One element for each option reports as many options as come before the first '-'. */
  lemma {:induction false} SeparateEvents(syntax: Syntax, cs: string, i: nat)
    requires i < |cs| && cs[i] == '-' && AllStandAlone(syntax, cs) && forall j | 0 <= j < i :: cs[j] != '-'
    ensures |ScanArgs(syntax, Separately(cs)).events| == i
    decreases i
  {
    hide ScanArgs, ScanElement;
    var args := Separately(cs);
    assert args[0] == "-" + [cs[0]] && args[1..] == Separately(cs[1..]);
    if i == 0 {
      assert args[0] == DASHES;
      ScanEnd(syntax, args);
    } else {
      SeparateEvents(syntax, cs[1..], i - 1);
      LoneReport(syntax, cs[0], args[1..]);
      ScanOption(syntax, args);
    }
  }

  lemma LoneReport(syntax: Syntax, c: char, following: seq<string>)
    requires StandsAlone(syntax, c) && c != '-'
    ensures !IsNonOption("-" + [c]) && "-" + [c] != DASHES
    ensures var (reports, taken) := ScanElement(syntax, "-" + [c], following); |reports| == 1 == taken
  {
    var e := "-" + [c];
    assert e[1] == c && DASHES[1] == '-' && e[1..] == [c] && [c][1..] == "";
  }

  lemma {:induction false} ClusterReports(syntax: Syntax, cs: string)
    requires cs != "" && AllStandAlone(syntax, cs)
    ensures |ScanShort(syntax, cs, []).0| == |cs|
    decreases |cs|
  {
    if |cs| > 1 {
      ClusterReports(syntax, cs[1..]);
    }
  }

  /** A cluster of several such options falls apart unnoticed, wherever it stands, exactly if '-' is
      not one of them. */
  lemma FallsApartIff(syntax: Syntax, cs: string)
    requires |cs| >= 2 && AllStandAlone(syntax, cs)
    ensures (forall front, rest | IsComplete(syntax, front) :: ApartUnseen(syntax, front, cs, rest)) <==> '-' !in cs
  {
    hide ScanArgs, ScanElement, ScanShort;
    if '-' !in cs {
      forall front, rest | IsComplete(syntax, front) ensures ApartUnseen(syntax, front, cs, rest) {
        ClusterFallsApart(syntax, front, cs, rest);
      }
    } else {
      var i := FirstDash(cs);
      SeparateEvents(syntax, cs, i);
      ClusterEvents(syntax, cs, i);
      assert [] + ["-" + cs] + [] == ["-" + cs] && [] + Separately(cs) + [] == Separately(cs);
      assert !ApartUnseen(syntax, [], cs, []);
    }
  }

  lemma {:induction false} FirstDash(cs: string) returns (i: nat)
    requires '-' in cs
    ensures i < |cs| && cs[i] == '-' && forall j | 0 <= j < i :: cs[j] != '-'
  {
    if cs[0] == '-' {
      i := 0;
    } else {
      i := FirstDash(cs[1..]);
      i := i + 1;
    }
  }

  lemma ClusterEvents(syntax: Syntax, cs: string, i: nat)
    requires |cs| >= 2 && AllStandAlone(syntax, cs) && i < |cs| && (i > 0 ==> cs[0] != '-')
    ensures |ScanArgs(syntax, ["-" + cs]).events| > i
  {
    hide ScanArgs, ScanElement;
    var args := ["-" + cs];
    ScanOption(syntax, args);
    SomeReport(syntax, args[0], args[1..]);
    if i > 0 {
      ClusterReports(syntax, cs);
      ShortElement(syntax, cs);
      assert args[1..] == [];
    }
  }

  lemma ShortElement(syntax: Syntax, cs: string)
    requires cs != "" && cs[0] != '-'
    ensures ScanElement(syntax, "-" + cs, []) == ScanShort(syntax, cs, [])
  {
    assert ("-" + cs)[1..] == cs;
  }

  lemma LongIsNotShort(syntax: Syntax, cs: string)
    requires |cs| >= 2 && cs[0] == '-'
    ensures ScanShort(syntax, cs, []).0 != [DecodeLong(syntax, cs[1..], []).report]
  {
  }

  // ---- Arguments -------------------------------------------------------------------------------------

  /** "-oARG" reads like "-o" "ARG", at the end of any cluster. */
  lemma ShortArgumentDetaches(syntax: Syntax, front: seq<string>, cs: string, c: char, arg: string, rest: seq<string>)
    requires IsComplete(syntax, front) && (forall i | 0 <= i < |cs| :: StandsAlone(syntax, cs[i]))
    requires KindOf(syntax, c) == RequiredArg && arg != "" && !IsLong(syntax, "-" + cs + [c])
    requires "-" + cs + [c] != DASHES
    ensures ScanArgs(syntax, front + ["-" + cs + [c] + arg] + rest).events ==
            ScanArgs(syntax, front + ["-" + cs + [c], arg] + rest).events
  {
    hide ScanArgs, ScanShort;
    var whole, head := "-" + cs + [c] + arg, "-" + cs + [c];
    assert front + [whole] + rest == front + ([whole] + rest);
    assert front + [head, arg] + rest == front + ([head, arg] + rest);
    ScanJoins(syntax, front, [whole] + rest);
    ScanJoins(syntax, front, [head, arg] + rest);
    var a, b := [whole] + rest, [head, arg] + rest;
    assert a[1..] == rest && b[1..] == [arg] + rest && b[2..] == rest;
    assert whole[1..] == cs + [c] + arg && head[1..] == cs + [c];
    assert whole[1] == head[1];
    ScanOption(syntax, a);
    ScanOption(syntax, b);
    ArgumentMoves(syntax, cs, c, arg, rest);
  }

  /** Detaching an argument changes no result of any run, in any ordering. */
  lemma DetachingRunsAlike(syntax: Syntax, ord: Ordering, program: string, front: seq<string>, cs: string, c: char,
      arg: string, rest: seq<string>)
    requires IsComplete(syntax, front) && (forall i | 0 <= i < |cs| :: StandsAlone(syntax, cs[i]))
    requires KindOf(syntax, c) == RequiredArg && arg != "" && !IsLong(syntax, "-" + cs + [c])
    requires "-" + cs + [c] != DASHES
    ensures Run(syntax, ord, Init([program] + (front + ["-" + cs + [c] + arg] + rest))).0 ==
            Run(syntax, ord, Init([program] + (front + ["-" + cs + [c], arg] + rest))).0
  {
    hide Run, ScanArgs;
    ShortArgumentDetaches(syntax, front, cs, c, arg, rest);
    var a, b := front + ["-" + cs + [c] + arg] + rest, front + ["-" + cs + [c], arg] + rest;
    assert ([program] + a)[1..] == a && ([program] + b)[1..] == b;
    EventsDecideResults(syntax, ord, [program] + a, [program] + b);
  }

  lemma {:induction false} ArgumentMoves(syntax: Syntax, cs: string, c: char, arg: string, rest: seq<string>)
    requires (forall i | 0 <= i < |cs| :: StandsAlone(syntax, cs[i])) && KindOf(syntax, c) == RequiredArg && arg != ""
    ensures var attached := ScanShort(syntax, cs + [c] + arg, rest);
            var detached := ScanShort(syntax, cs + [c], [arg] + rest);
            attached.0 == detached.0 && attached.1 == 1 && detached.1 == 2
  {
    if cs == "" {
      assert cs + [c] + arg == [c] + arg && cs + [c] == [c];
      assert ([c] + arg)[1..] == arg && [c][1..] == "";
    } else {
      assert (cs + [c] + arg)[1..] == cs[1..] + [c] + arg && (cs + [c])[1..] == cs[1..] + [c];
      ArgumentMoves(syntax, cs[1..], c, arg, rest);
    }
  }

  /** "--name=ARG" reads like "--name" "ARG" when the option requires its argument. */
  lemma LongArgumentDetaches(syntax: Syntax, front: seq<string>, name: string, arg: string, rest: seq<string>)
    requires IsComplete(syntax, front) && syntax.hasLong && name != "" && '=' !in name
    requires Resolve(syntax.long, name).Found? && syntax.long[Resolve(syntax.long, name).index].hasArg == 1
    ensures ScanArgs(syntax, front + ["--" + name + "=" + arg] + rest).events ==
            ScanArgs(syntax, front + ["--" + name, arg] + rest).events
  {
    hide ScanArgs, Resolve;
    var whole, head := "--" + name + "=" + arg, "--" + name;
    assert front + [whole] + rest == front + ([whole] + rest);
    assert front + [head, arg] + rest == front + ([head, arg] + rest);
    ScanJoins(syntax, front, [whole] + rest);
    ScanJoins(syntax, front, [head, arg] + rest);
    var a, b := [whole] + rest, [head, arg] + rest;
    assert a[1..] == rest && b[1..] == [arg] + rest && b[2..] == rest;
    assert whole[2..] == name + "=" + arg && head[2..] == name;
    NameEnds(name, "=" + arg);
    NameEnds(name, "");
    assert name + "" == name && (name + "=" + arg)[..|name|] == name && (name + "=" + arg)[|name| + 1..] == arg;
    assert name + ("=" + arg) == name + "=" + arg;
    ScanOption(syntax, a);
    ScanOption(syntax, b);
  }

  /** Nor does that change any result of a run, in any ordering. */
  lemma LongDetachingRunsAlike(syntax: Syntax, ord: Ordering, program: string, front: seq<string>, name: string,
      arg: string, rest: seq<string>)
    requires IsComplete(syntax, front) && syntax.hasLong && name != "" && '=' !in name
    requires Resolve(syntax.long, name).Found? && syntax.long[Resolve(syntax.long, name).index].hasArg == 1
    ensures Run(syntax, ord, Init([program] + (front + ["--" + name + "=" + arg] + rest))).0 ==
            Run(syntax, ord, Init([program] + (front + ["--" + name, arg] + rest))).0
  {
    hide Run, ScanArgs, Resolve;
    LongArgumentDetaches(syntax, front, name, arg, rest);
    var a, b := front + ["--" + name + "=" + arg] + rest, front + ["--" + name, arg] + rest;
    assert ([program] + a)[1..] == a && ([program] + b)[1..] == b;
    EventsDecideResults(syntax, ord, [program] + a, [program] + b);
  }

  lemma {:induction false} NameEnds(name: string, more: string)
    requires '=' !in name && (more == "" || more[0] == '=')
    ensures NameLength(name + more) == |name|
  {
    if name == "" {
      assert name + more == more;
    } else {
      assert (name + more)[1..] == name[1..] + more;
      NameEnds(name[1..], more);
    }
  }

  // ---- The permuted arguments, read again --------------------------------------------------------------

  /** The last element is an option that lacks its argument. */
  predicate LacksArgument(syntax: Syntax, args: seq<string>)
    decreases |args|
  {
    if args == [] || args[0] == DASHES then false
    else if IsNonOption(args[0]) then LacksArgument(syntax, args[1..])
    else (NeedsNext(syntax, args[0]) && |args| == 1) ||
         LacksArgument(syntax, args[ScanElement(syntax, args[0], args[1..]).1..])
  }

  /** The options that a scan found, with their arguments, are complete and mean the same again. */
  lemma {:induction false} OptionsReread(syntax: Syntax, args: seq<string>)
    requires !LacksArgument(syntax, args)
    ensures var s := ScanArgs(syntax, args);
            IsComplete(syntax, s.options) && ScanArgs(syntax, s.options) == Scan(Options(s.events), s.options, [], false, [])
    decreases |args|
  {
    hide ScanArgs, ScanElement;
    if args == [] || args[0] == DASHES {
      ScanEnd(syntax, args);
      ScanEnd(syntax, []);
    } else if IsNonOption(args[0]) {
      ScanOperand(syntax, args);
      OptionsReread(syntax, args[1..]);
      OptionsConcat(AsOperands([args[0]]), ScanArgs(syntax, args[1..]).events);
      NoOptionsInOperands([args[0]]);
    } else {
      ScanOption(syntax, args);
      ElementTakes(syntax, args);
      var (reports, taken) := ScanElement(syntax, args[0], args[1..]);
      OptionsReread(syntax, args[taken..]);
      var s := ScanArgs(syntax, args[taken..]);
      ElementReread(syntax, args[0], args[1..], taken);
      assert args[..taken][0] == args[0] && args[..taken][1..] == args[1..][..taken - 1];
      assert (args[..taken] + s.options)[1..] == args[1..][..taken - 1] + s.options;
      NeedMeansTwo(syntax, args[0], args[1..]);
      ElementIgnoresRest(syntax, args[0], args[1..], args[1..][..taken - 1] + s.options);
      assert (args[..taken] + s.options)[taken..] == s.options && (args[..taken] + s.options)[..taken] == args[..taken];
      ScanOption(syntax, args[..taken] + s.options);
      OptionsConcat(AsEvents(reports), s.events);
      OptionsOfReports(reports);
    }
  }

  /** An element that needs its neighbour takes it; others take nothing. */
  lemma {:induction false} ShortNeedMeansTwo(syntax: Syntax, next: string, following: seq<string>)
    requires next != ""
    ensures ScanShort(syntax, next, following).1 == if ShortNeedsNext(syntax, next) && following != [] then 2 else 1
    decreases |next|
  {
    var d := DecodeShort(syntax, next, following);
    if d.rest != "" {
      ShortNeedMeansTwo(syntax, next[1..], following);
    }
  }

  lemma NeedMeansTwo(syntax: Syntax, element: string, following: seq<string>)
    requires !IsNonOption(element)
    ensures ScanElement(syntax, element, following).1 == if NeedsNext(syntax, element) && following != [] then 2 else 1
  {
    if IsLong(syntax, element) {
      var next := element[2..];
      assert NameLength(next) == |next| ==> next[..NameLength(next)] == next;
    } else {
      ShortNeedMeansTwo(syntax, element[1..], following);
    }
  }

  lemma ElementReread(syntax: Syntax, element: string, following: seq<string>, taken: nat)
    requires !IsNonOption(element) && taken == ScanElement(syntax, element, following).1
    requires NeedsNext(syntax, element) ==> following != []
    ensures ScanElement(syntax, element, following[..taken - 1]) == ScanElement(syntax, element, following)
  {
    NeedMeansTwo(syntax, element, following);
    ElementIgnoresRest(syntax, element, following, following[..taken - 1]);
  }

  /** Operands stay operands. */
  lemma {:induction false} OperandsAreNonOptions(syntax: Syntax, args: seq<string>)
    ensures forall j | 0 <= j < |ScanArgs(syntax, args).operands| :: IsNonOption(ScanArgs(syntax, args).operands[j])
    ensures !ScanArgs(syntax, args).dashes ==> ScanArgs(syntax, args).tail == []
    decreases |args|
  {
    hide ScanArgs, ScanElement;
    if args == [] || args[0] == DASHES {
      ScanEnd(syntax, args);
    } else if IsNonOption(args[0]) {
      ScanOperand(syntax, args);
      OperandsAreNonOptions(syntax, args[1..]);
    } else {
      ScanOption(syntax, args);
      ElementTakes(syntax, args);
      OperandsAreNonOptions(syntax, args[ScanElement(syntax, args[0], args[1..]).1..]);
    }
  }

  /** Scanning the permuted arguments finds the same options in front of the same operands. */
  lemma PermutedReread(syntax: Syntax, args: seq<string>)
    requires !LacksArgument(syntax, args)
    ensures var s := ScanArgs(syntax, args);
            var again := ScanArgs(syntax, Permuted(s));
            && again.events == Options(s.events) + (if s.dashes then [] else AsOperands(s.operands))
            && again.options == s.options && again.dashes == s.dashes
            && again.operands + again.tail == s.operands + s.tail
  {
    hide ScanArgs, ScanElement;
    var s := ScanArgs(syntax, args);
    OptionsReread(syntax, args);
    OperandsAreNonOptions(syntax, args);
    var behind := (if s.dashes then [DASHES] else []) + s.operands + s.tail;
    assert Permuted(s) == s.options + behind;
    ScanJoins(syntax, s.options, behind);
    if s.dashes {
      assert behind[1..] == s.operands + s.tail;
      ScanEnd(syntax, behind);
    } else {
      assert behind == s.operands && behind[|behind|..] == [] && behind[..|behind|] == behind;
      ScanSkips(syntax, behind, |behind|);
      ScanEnd(syntax, []);
    }
  }

  /** Where a scan ends in an option that lacks its argument, that is the last of its options. */
  lemma {:induction false} LackingLast(syntax: Syntax, args: seq<string>) returns (front: seq<string>, last: string)
    requires LacksArgument(syntax, args)
    ensures !IsNonOption(last) && last != DASHES && NeedsNext(syntax, last) && IsComplete(syntax, front)
    ensures var s := ScanArgs(syntax, args);
            && s.options == front + [last] && !s.dashes && s.tail == []
            && Options(s.events) == ScanArgs(syntax, front).events + AsEvents(ScanElement(syntax, last, []).0)
    decreases |args|
  {
    hide ScanArgs, ScanElement, NeedsNext;
    if IsNonOption(args[0]) {
      ScanOperand(syntax, args);
      front, last := LackingLast(syntax, args[1..]);
      OptionsConcat(AsOperands([args[0]]), ScanArgs(syntax, args[1..]).events);
      NoOptionsInOperands([args[0]]);
    } else {
      ScanOption(syntax, args);
      ElementTakes(syntax, args);
      var (reports, taken) := ScanElement(syntax, args[0], args[1..]);
      var s := ScanArgs(syntax, args[taken..]);
      OptionsConcat(AsEvents(reports), s.events);
      OptionsOfReports(reports);
      if NeedsNext(syntax, args[0]) && |args| == 1 {
        ScanEnd(syntax, []);
        front, last := [], args[0];
        assert args[taken..] == [] && args[..taken] == [last] && args[1..] == [];
      } else {
        front, last := LackingLast(syntax, args[taken..]);
        LackingFront(syntax, args, front);
        front := args[..taken] + front;
      }
    }
  }

  lemma LackingFront(syntax: Syntax, args: seq<string>, front: seq<string>)
    requires args != [] && !IsNonOption(args[0]) && args[0] != DASHES && IsComplete(syntax, front)
    requires NeedsNext(syntax, args[0]) ==> |args| > 1
    ensures var (reports, taken) := ScanElement(syntax, args[0], args[1..]);
            && taken <= |args| && IsComplete(syntax, args[..taken] + front)
            && ScanArgs(syntax, args[..taken] + front).events == AsEvents(reports) + ScanArgs(syntax, front).events
  {
    hide ScanArgs, ScanElement, NeedsNext;
    ElementTakes(syntax, args);
    var (reports, taken) := ScanElement(syntax, args[0], args[1..]);
    var row := args[..taken] + front;
    NeedMeansTwo(syntax, args[0], args[1..]);
    assert row[0] == args[0] && row[1..] == args[1..][..taken - 1] + front && row[taken..] == front && row[..taken] == args[..taken];
    ElementIgnoresRest(syntax, args[0], args[1..], row[1..]);
    ScanOption(syntax, row);
  }

  /** The option that lacked its argument reports another thing when it finds one. */
  lemma {:induction false} ShortNeedDiffers(syntax: Syntax, next: string, following: seq<string>)
    requires ShortNeedsNext(syntax, next) && following != []
    ensures var without := ScanShort(syntax, next, []).0;
            var with := ScanShort(syntax, next, following).0;
            |without| == |with| && without[|without| - 1].optarg.Nothing? && with[|with| - 1].optarg.Just?
    decreases |next|
  {
    var d := DecodeShort(syntax, next, []);
    if d.rest != "" {
      ShortNeedDiffers(syntax, next[1..], following);
    }
  }

  lemma NeedDiffers(syntax: Syntax, element: string, following: seq<string>)
    requires !IsNonOption(element) && NeedsNext(syntax, element) && following != []
    ensures var without := ScanElement(syntax, element, []).0;
            var with := ScanElement(syntax, element, following).0;
            |without| == |with| && without[|without| - 1].optarg.Nothing? && with[|with| - 1].optarg.Just?
  {
    if IsLong(syntax, element) {
      var next := element[2..];
      assert next[..NameLength(next)] == next;
    } else {
      ShortNeedDiffers(syntax, element[1..], following);
    }
  }

  lemma LackingRereadDiffers(syntax: Syntax, args: seq<string>)
    requires LacksArgument(syntax, args) && ScanArgs(syntax, args).operands != []
    ensures !(Options(ScanArgs(syntax, args).events) <= ScanArgs(syntax, Permuted(ScanArgs(syntax, args))).events)
  {
    hide ScanArgs, ScanElement, NeedsNext, LacksArgument;
    var s := ScanArgs(syntax, args);
    var front, last := LackingLast(syntax, args);
    assert Permuted(s) == front + ([last] + s.operands);
    ScanJoins(syntax, front, [last] + s.operands);
    assert ([last] + s.operands)[1..] == s.operands;
    ScanOption(syntax, [last] + s.operands);
    NeedDiffers(syntax, last, s.operands);
    var without, with := ScanElement(syntax, last, []).0, ScanElement(syntax, last, s.operands).0;
    var k := |ScanArgs(syntax, front).events| + |with| - 1;
    assert Options(s.events)[k] == Option(without[|with| - 1]);
    assert ScanArgs(syntax, Permuted(s)).events[k] == Option(with[|with| - 1]);
  }

  lemma NothingScanned(s: Scan)
    requires s.options == [] == s.operands && s.events == []
    ensures Permuted(s) == (if s.dashes then [DASHES] else []) + s.tail && Options(s.events) == []
  {
  }

  lemma {:induction false} NoOperandsNoChange(syntax: Syntax, args: seq<string>)
    requires ScanArgs(syntax, args).operands == []
    ensures Permuted(ScanArgs(syntax, args)) == args
    ensures Options(ScanArgs(syntax, args).events) == ScanArgs(syntax, args).events
    decreases |args|
  {
    hide ScanArgs, ScanElement, Permuted, Options, AsEvents, WithOptions;
    if args == [] || args[0] == DASHES {
      ScanEnd(syntax, args);
      NothingScanned(ScanArgs(syntax, args));
      assert args == [] || args == [DASHES] + args[1..];
    } else if IsNonOption(args[0]) {
      ScanOperand(syntax, args);
      assert false;
    } else {
      ScanOption(syntax, args);
      ElementTakes(syntax, args);
      var (reports, taken) := ScanElement(syntax, args[0], args[1..]);
      OptionInFront(reports, args[..taken], ScanArgs(syntax, args[taken..]));
      NoOperandsNoChange(syntax, args[taken..]);
      assert args == args[..taken] + args[taken..];
    }
  }

  lemma OptionInFront(reports: seq<Report>, args: seq<string>, s: Scan)
    ensures var w := WithOptions(reports, args, s);
            && w.operands == s.operands && Permuted(w) == args + Permuted(s)
            && Options(w.events) == AsEvents(reports) + Options(s.events) && w.events == AsEvents(reports) + s.events
  {
    hide Options, AsEvents;
    OptionsConcat(AsEvents(reports), s.events);
    OptionsOfReports(reports);
  }

  /** Reading the arguments again, as getopt left them in PERMUTE order, gives the same options if
      and only if no option at the very end lacked its argument while operands were skipped:
      permuting puts an operand behind such an option. */
  lemma RereadIff(syntax: Syntax, args: seq<string>)
    ensures var s := ScanArgs(syntax, args);
            Options(s.events) <= ScanArgs(syntax, Permuted(s)).events <==> !LacksArgument(syntax, args) || s.operands == []
  {
    hide ScanArgs, LacksArgument, Permuted;
    var s := ScanArgs(syntax, args);
    if s.operands == [] {
      NoOperandsNoChange(syntax, args);
    } else if LacksArgument(syntax, args) {
      LackingRereadDiffers(syntax, args);
    } else {
      PermutedReread(syntax, args);
    }
  }

  /** An instance in which reading again differs: `f -o`, when the option `o` requires an argument,
      becomes `-o f`. */
  lemma RereadTakesOperand(syntax: Syntax, args: seq<string>)
    requires syntax == Syntax("o:", false, []) && args == ["f", "-o"]
    ensures var s := ScanArgs(syntax, args);
      Permuted(s) == ["-o", "f"] && !(Options(s.events) <= ScanArgs(syntax, Permuted(s)).events)
  {
    hide ScanArgs, ScanElement;
    var o := args[1..];
    assert o == ["-o"] && o[1..] == [] && "-o"[1..] == "o" && "o"[1..] == "";
    assert KindOf(syntax, 'o') == RequiredArg;
    assert NeedsNext(syntax, "-o") && LacksArgument(syntax, o) && LacksArgument(syntax, args);
    ScanOperand(syntax, args);
    ScanOption(syntax, o);
    ElementTakes(syntax, o);
    ScanEnd(syntax, []);
    RereadIff(syntax, args);
  }
}
