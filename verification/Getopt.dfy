/** getopt as it runs: static variables that persist between calls, and argv permuted in place. */
module Getopt {
  import opened GetoptExchange
  import opened GetoptSpec
  import opened GetoptMachine
  import opened GetoptRuns

  /** my_index, as a loop; the length of `s` stands for a null result. */
  method MyIndex(s: string, c: char) returns (k: nat)
    ensures k == IndexOf(s, c)
  {
    k := 0;
    assert s[0..] == s;
    while k < |s| && s[k] != c
      invariant k <= |s| && IndexOf(s, c) == k + IndexOf(s[k..], c)
    {
      assert s[k..][1..] == s[k + 1..];
      k := k + 1;
    }
  }

  /** The length of a long option's name. */
  method NameEnd(s: string) returns (n: nat)
    ensures n == NameLength(s)
  {
    n := 0;
    assert s[0..] == s;
    while n < |s| && s[n] != '='
      invariant n <= |s| && NameLength(s) == n + NameLength(s[n..])
    {
      assert s[n..][1..] == s[n + 1..];
      n := n + 1;
    }
  }

  /** The scan of the long option table: an exact match ends it; of abbreviated matches the first is
      kept and any other makes the name ambiguous. */
  method FindLong(long: seq<LongOption>, name: string) returns (m: Match)
    ensures m == Resolve(long, name)
  {
    var found: int := -1;
    var ambiguous := false;
    var i := 0;
    while i < |long|
      invariant 0 <= i <= |long| && -1 <= found < i
      invariant FirstExact(long, name, 0) == FirstExact(long, name, i)
      invariant found == -1 ==> !ambiguous && FirstPrefixed(long, name, 0) == FirstPrefixed(long, name, i)
      invariant found >= 0 ==> found == FirstPrefixed(long, name, 0)
      invariant found >= 0 && !ambiguous ==> FirstPrefixed(long, name, found + 1) == FirstPrefixed(long, name, i)
      invariant ambiguous ==> found >= 0 && FirstPrefixed(long, name, found + 1) < i
    {
      if name <= long[i].name {
        if |name| == |long[i].name| {
          return Found(i);
        } else if found == -1 {
          found := i;
        } else {
          ambiguous := true;
        }
      }
      i := i + 1;
    }
    if ambiguous {
      m := Ambiguous;
    } else if found >= 0 {
      m := Found(found);
    } else {
      m := NotFound;
    }
  }

  /** The return value of a call. */
  function CodeOf(o: Outcome): int {
    match o
    case Done => -1
    case Got(Operand(_)) => 1
    case Got(Option(r)) => r.code
  }

  function ArgOf(o: Outcome): Maybe<string> {
    match o
    case Done => Nothing
    case Got(Operand(a)) => Just(a)
    case Got(Option(r)) => r.optarg
  }

  class Getopt {
    const syntax: Syntax
    const ordering: Ordering
    const argv: array<string>
    var optind: int
    var nextchar: string
    var firstNonopt: int
    var lastNonopt: int
    var optarg: Maybe<string>
    /** The last values given to optopt, *longind and *flag. */
    var optopt: int
    var longind: Maybe<int>
    var stored: Maybe<int>

    ghost function Abs(): State
      reads this, argv
    {
      State(argv[..], optind, nextchar, firstNonopt, lastNonopt)
    }

    ghost predicate Valid()
      reads this, argv
    {
      StateOk(Abs()) && !TreatsW(syntax)
    }

    /** The state before the first call; the ordering is already chosen. */
    constructor (arguments: array<string>, s: Syntax, ord: Ordering)
      requires arguments.Length >= 1 && !TreatsW(s)
      ensures Valid() && Abs() == Init(arguments[..])
      ensures argv == arguments && syntax == s && ordering == ord
    {
      argv, syntax, ordering := arguments, s, ord;
      firstNonopt, lastNonopt, optind := 1, 1, 1;
      nextchar := "";
      optarg, optopt, longind, stored := Nothing, QUESTION, Nothing, Nothing;
    }

    /** exchange: swaps the skipped operands with the options found since. */
    method ExchangeSegments()
      requires 0 <= firstNonopt <= lastNonopt <= optind <= argv.Length
      modifies this`firstNonopt, this`lastNonopt, argv
      ensures Abs() == ExchangeState(old(Abs()))
    {
      ghost var swaps := Exchange(argv, firstNonopt, lastNonopt, optind);
      firstNonopt := firstNonopt + (optind - lastNonopt);
      lastNonopt := optind;
    }

    /** The PERMUTE block. */
    method PermuteOperands()
      requires 0 <= firstNonopt <= lastNonopt <= optind <= argv.Length
      modifies this`firstNonopt, this`lastNonopt, this`optind, argv
      ensures Abs() == PermuteStep(old(Abs()))
    {
      if firstNonopt != lastNonopt && lastNonopt != optind {
        ExchangeSegments();
      } else if lastNonopt != optind {
        firstNonopt := optind;
      }
      ghost var g := Abs();
      while optind < argv.Length && IsNonOption(argv[optind])
        invariant g.optind <= optind <= argv.Length && argv[..] == g.argv
        invariant Skip(g.argv, g.optind) == Skip(g.argv, optind)
        invariant firstNonopt == g.first && nextchar == g.nextchar
        decreases argv.Length - optind
      {
        optind := optind + 1;
      }
      lastNonopt := optind;
    }

    /** Passes over `--` and takes all that follows it as operands. */
    method TakeDashes()
      requires 0 <= firstNonopt <= lastNonopt <= optind < argv.Length
      modifies this`firstNonopt, this`lastNonopt, this`optind, argv
      ensures Abs() == DashesStep(old(Abs()))
    {
      optind := optind + 1;
      if firstNonopt != lastNonopt && lastNonopt != optind {
        ExchangeSegments();
      } else if firstNonopt == lastNonopt {
        firstNonopt := optind;
      }
      lastNonopt := argv.Length;
      optind := argv.Length;
    }

    /** Orders the arguments before an element is looked at. */
    method ArrangeArguments()
      requires Valid()
      modifies this`firstNonopt, this`lastNonopt, this`optind, argv
      ensures Abs() == Arrange(ordering, old(Abs()))
    {
      hide DashesStep, PermuteStep, Gather;
      ghost var s := Abs();
      if lastNonopt > optind {
        lastNonopt := optind;
      }
      if firstNonopt > optind {
        firstNonopt := optind;
      }
      assert Abs() == Clamp(s);
      if ordering == Permute {
        ArrangePermutes(s);
        PermuteOperands();
      }
      if optind != argv.Length && argv[optind] == DASHES {
        TakeDashes();
      }
    }

    /** Passes the values of a report on to the caller. */
    method Deliver(r: Report)
      modifies this`optarg, this`optopt, this`longind, this`stored
      ensures optarg == r.optarg
      ensures optopt == if r.optopt.Just? then r.optopt.value else old(optopt)
      ensures longind == if r.longind.Just? then r.longind else old(longind)
      ensures stored == if r.stored.Just? then r.stored else old(stored)
    {
      optarg := r.optarg;
      if r.optopt.Just? {
        optopt := r.optopt.value;
      }
      if r.longind.Just? {
        longind := r.longind;
      }
      if r.stored.Just? {
        stored := r.stored;
      }
    }

    /** Decodes the rest of a long element: name, then argument. */
    method DecodeLongOption() returns (r: Report)
      requires 0 <= optind < argv.Length
      modifies this`optind, this`nextchar
      ensures var d := DecodeLong(syntax, old(nextchar), argv[old(optind) + 1..]);
              r == d.report && nextchar == d.rest && optind == old(optind) + d.taken
    {
      var n := NameEnd(nextchar);
      var m := FindLong(syntax.long, nextchar[..n]);
      var argument := if n < |nextchar| then Just(nextchar[n + 1..]) else Nothing;
      nextchar := "";
      optind := optind + 1;
      if !m.Found? {
        r := Failure(QUESTION, 0);
        return;
      }
      var o := syntax.long[m.index];
      if argument.Just? {
        if o.hasArg == 0 {
          r := Failure(QUESTION, o.val);
          return;
        }
      } else if o.hasArg == 1 {
        if optind < argv.Length {
          argument := Just(argv[optind]);
          optind := optind + 1;
        } else {
          r := Failure(MissingCode(syntax), o.val);
          return;
        }
      }
      r := LongReport(o, m.index, argument);
    }

    /** Decodes the next character of a short element. */
    method DecodeShortOption() returns (r: Report)
      requires 0 <= optind < argv.Length && nextchar != ""
      modifies this`optind, this`nextchar
      ensures var d := DecodeShort(syntax, old(nextchar), argv[old(optind) + 1..]);
              r == d.report && nextchar == d.rest && optind == old(optind) + d.taken
    {
      var c := nextchar[0];
      var temp := MyIndex(syntax.short, c);
      nextchar := nextchar[1..];
      if nextchar == "" {
        optind := optind + 1;
      }
      if temp == |syntax.short| || c == ':' {
        r := Failure(QUESTION, c as int);
        return;
      }
      r := ShortReport(c, Nothing);
      if CharAt(syntax.short, temp + 1) == ':' {
        if CharAt(syntax.short, temp + 2) == ':' {
          if nextchar != "" {
            r := ShortReport(c, Just(nextchar));
            optind := optind + 1;
          }
        } else if nextchar != "" {
          r := ShortReport(c, Just(nextchar));
          optind := optind + 1;
        } else if optind == argv.Length {
          r := Failure(MissingCode(syntax), c as int);
        } else {
          r := ShortReport(c, Just(argv[optind]));
          optind := optind + 1;
        }
        nextchar := "";
      }
    }

    /** Decodes one option of the element at optind and delivers it. */
    method DecodeOption() returns (code: int)
      requires Valid() && nextchar != ""
      modifies this`optind, this`nextchar, this`optarg, this`optopt, this`longind, this`stored
      ensures Abs() == Decode(syntax, old(Abs())).0 && Delivered(Decode(syntax, old(Abs())).1, code)
    {
      hide DecodeLong, DecodeShort;
      var r;
      if IsLong(syntax, argv[optind]) {
        r := DecodeLongOption();
      } else {
        r := DecodeShortOption();
      }
      Deliver(r);
      code := r.code;
    }

    /** What the caller of getopt sees of an outcome. */
    ghost predicate Delivered(o: Outcome, code: int)
      reads this
    {
      && code == CodeOf(o) && optarg == ArgOf(o)
      && (o.Got? && o.event.Option? ==>
            && (o.event.report.optopt.Just? ==> optopt == o.event.report.optopt.value)
            && (o.event.report.longind.Just? ==> longind == o.event.report.longind)
            && (o.event.report.stored.Just? ==> stored == o.event.report.stored))
    }

    /** _getopt_internal: one call. The new state, argv included, the return value and the values
        passed on are those of the model; the state stays well formed. */
    method Next() returns (code: int)
      requires Valid()
      modifies this, argv
      ensures Valid()
      ensures Abs() == Call(syntax, ordering, old(Abs())).0
      ensures Delivered(Call(syntax, ordering, old(Abs())).1, code)
    {
      hide Arrange, Decode, Progress, StateOk, Delivered;
      ghost var s := Abs();
      CallKeepsOk(syntax, ordering, s);
      if nextchar != "" {
        code := DecodeOption();
        return;
      }
      ArrangeKept(ordering, s);
      ArrangeArguments();
      code := LookAtElement(s);
    }

    /** With the arguments arranged: -1 at the end, an operand, or the next option element. */
    method LookAtElement(ghost s: State) returns (code: int)
      requires StateOk(s) && s.nextchar == "" && Abs() == Arrange(ordering, s) && Arranged(s, Abs()) && !TreatsW(syntax)
      modifies this`optind, this`nextchar, this`optarg, this`optopt, this`longind, this`stored
      ensures Abs() == Call(syntax, ordering, s).0
      ensures Delivered(Call(syntax, ordering, s).1, code)
    {
      hide Arrange, Decode;
      ghost var a := Abs();
      optarg := Nothing;
      if optind == argv.Length {
        if firstNonopt != lastNonopt {
          optind := firstNonopt;
        }
        return -1;
      }
      if IsNonOption(argv[optind]) {
        if ordering == RequireOrder {
          return -1;
        }
        optarg := Just(argv[optind]);
        optind := optind + 1;
        return 1;
      }
      nextchar := argv[optind][if IsLong(syntax, argv[optind]) then 2 else 1..];
      assert Abs() == a.(nextchar := nextchar);
      code := DecodeOption();
    }
  }

  lemma ArrangePermutes(s: State)
    requires StateOk(s)
    ensures var c := Clamp(s); 0 <= c.first <= c.last <= c.optind <= |c.argv|
    ensures var p := PermuteStep(Clamp(s)); 0 <= p.first <= p.last <= p.optind <= |p.argv|
  {
    hide PermuteStep;
    ClampOk(s);
    PermuteLayout(Clamp(s));
  }

  lemma ArrangeKept(ord: Ordering, s: State)
    requires StateOk(s) && s.nextchar == ""
    ensures Arranged(s, Arrange(ord, s))
  {
    hide Arrange;
    ArrangeOk(ord, s);
  }

  lemma CallKeepsOk(syntax: Syntax, ord: Ordering, s: State)
    requires StateOk(s)
    ensures StateOk(Call(syntax, ord, s).0)
  {
    hide Call;
    CallOk(syntax, ord, s);
  }
}
