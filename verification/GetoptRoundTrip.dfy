/** What a command line says, stated of the text of optstring and of the table of long options: spell
    out options and operands as the syntax allows, and getopt reports just those. */
module GetoptRoundTrip {
  import opened GetoptSpec
  import opened GetoptMachine
  import opened GetoptRuns
  import opened GetoptTheorems

  // ---- What the syntax allows --------------------------------------------------------------------------

  /** The first place of `c` in optstring is `i`. */
  predicate IsFirst(short: string, c: char, i: nat) {
    i < |short| && short[i] == c && forall j | 0 <= j < i :: short[j] != c
  }

  predicate ColonAt(short: string, i: nat) {
    i < |short| && short[i] == ':'
  }

  /** An option character without a colon after it, */
  ghost predicate TakesNone(short: string, c: char) {
    c != ':' && exists i: nat :: IsFirst(short, c, i) && !ColonAt(short, i + 1)
  }

  /** with one, */
  ghost predicate TakesRequired(short: string, c: char) {
    c != ':' && exists i: nat :: IsFirst(short, c, i) && ColonAt(short, i + 1) && !ColonAt(short, i + 2)
  }

  /** and with two. */
  ghost predicate TakesOptional(short: string, c: char) {
    c != ':' && exists i: nat :: IsFirst(short, c, i) && ColonAt(short, i + 1) && ColonAt(short, i + 2)
  }

  predicate IsInvalid(short: string, c: char) {
    c == ':' || c !in short
  }

  /** `name` is entry `k`: its whole name, or the beginning of its name and of no other. */
  predicate Names(long: seq<LongOption>, name: string, k: nat) {
    k < |long| &&
    if long[k].name == name then forall j | 0 <= j < k :: long[j].name != name
    else
      && (forall j | 0 <= j < |long| :: long[j].name != name)
      && (forall j | 0 <= j < |long| :: name <= long[j].name <==> j == k)
  }

  /** `name` is the whole name of no entry, and the beginning of none or of several. */
  ghost predicate NamesNone(long: seq<LongOption>, name: string) {
    && (forall j | 0 <= j < |long| :: long[j].name != name)
    && ((forall j | 0 <= j < |long| :: !(name <= long[j].name))
        || exists j, k :: 0 <= j < k < |long| && name <= long[j].name && name <= long[k].name)
  }

  /** The last option of a cluster: one without an argument, one with an argument in the same element
      or in the next, or one that could have an argument and has none. */
  datatype Last = Flag(c: char) | Taking(c: char, text: string, attached: bool) | Without(c: char)

  /** What a caller may write: short options in one element; a long option, with or without an argument,
      in the same element or in the next; a long option that does not exist; one with an argument that
      it does not take; or an operand. */
  datatype Item =
    | Short(flags: string, last: Last)
    | Long(name: string, arg: Maybe<string>, attached: bool, index: nat)
    | NoSuch(name: string, arg: Maybe<string>)
    | Unwanted(name: string, text: string, index: nat)
    | Word(word: string)

  /** What may stand at the end: nothing more; an option without the argument it requires; or `--` and
      then anything. */
  datatype End =
    | Ends
    | ShortLacks(flags: string, c: char)
    | LongLacks(name: string, index: nat)
    | Dashes(tail: seq<string>)

  function Named(name: string, text: Maybe<string>): string {
    "--" + name + if text.Just? then "=" + text.value else ""
  }

  /** The elements that an item is spelled with. */
  function Elements(item: Item): seq<string> {
    match item
    case Short(flags, Flag(c)) => ["-" + flags + [c]]
    case Short(flags, Taking(c, text, attached)) =>
      if attached then ["-" + flags + [c] + text] else ["-" + flags + [c], text]
    case Short(flags, Without(c)) => ["-" + flags + [c]]
    case Long(name, Just(text), attached, _) =>
      if attached then [Named(name, Just(text))] else [Named(name, Nothing), text]
    case Long(name, Nothing, _, _) => [Named(name, Nothing)]
    case NoSuch(name, text) => [Named(name, text)]
    case Unwanted(name, text, _) => [Named(name, Just(text))]
    case Word(text) => [text]
  }

  function EndElements(end: End): seq<string> {
    match end
    case Ends => []
    case ShortLacks(flags, c) => ["-" + flags + [c]]
    case LongLacks(name, _) => [Named(name, Nothing)]
    case Dashes(tail) => ["--"] + tail
  }

  ghost predicate FlagsAllowed(short: string, flags: string) {
    forall i | 0 <= i < |flags| :: TakesNone(short, flags[i]) || IsInvalid(short, flags[i])
  }

  /** An element of short options: not `--`, and not the spelling of a long option. */
  predicate IsCluster(syntax: Syntax, first: char, element: string) {
    element != "--" && (syntax.hasLong ==> first != '-')
  }

  function FirstOf(flags: string, c: char): char {
    if flags != "" then flags[0] else c
  }

  predicate IsName(syntax: Syntax, name: string, text: Maybe<string>) {
    syntax.hasLong && '=' !in name && (name != "" || text.Just?)
  }

  ghost predicate IsAllowed(syntax: Syntax, item: Item) {
    match item
    case Short(flags, last) =>
      && FlagsAllowed(syntax.short, flags) && IsCluster(syntax, FirstOf(flags, last.c), Elements(item)[0])
      && (match last
          case Flag(c) => TakesNone(syntax.short, c) || IsInvalid(syntax.short, c)
          case Taking(c, text, attached) =>
            if attached then text != "" && (TakesRequired(syntax.short, c) || TakesOptional(syntax.short, c))
            else TakesRequired(syntax.short, c)
          case Without(c) => TakesOptional(syntax.short, c))
    case Long(name, text, attached, k) =>
      && IsName(syntax, name, if attached then text else Nothing) && Names(syntax.long, name, k)
      && (if text.Nothing? then syntax.long[k].hasArg != 1
          else if attached then syntax.long[k].hasArg != 0
          else syntax.long[k].hasArg == 1)
    case NoSuch(name, text) => IsName(syntax, name, text) && NamesNone(syntax.long, name)
    case Unwanted(name, text, k) =>
      IsName(syntax, name, Just(text)) && Names(syntax.long, name, k) && syntax.long[k].hasArg == 0
    case Word(text) => |text| < 2 || text[0] != '-'
  }

  ghost predicate EndAllowed(syntax: Syntax, end: End) {
    match end
    case Ends => true
    case ShortLacks(flags, c) =>
      && FlagsAllowed(syntax.short, flags) && IsCluster(syntax, FirstOf(flags, c), "-" + flags + [c])
      && TakesRequired(syntax.short, c)
    case LongLacks(name, k) =>
      IsName(syntax, name, Nothing) && Names(syntax.long, name, k) && syntax.long[k].hasArg == 1
    case Dashes(_) => true
  }

  // ---- What is to be reported --------------------------------------------------------------------------

  /** An option character that stands alone: itself, or '?' with the character in optopt. */
  function FlagReport(short: string, c: char): Report {
    if IsInvalid(short, c) then Report('?' as int, Nothing, Just(c as int), Nothing, Nothing)
    else Report(c as int, Nothing, Nothing, Nothing, Nothing)
  }

  function FlagReports(short: string, flags: string): (reports: seq<Report>)
    ensures |reports| == |flags|
    ensures forall i | 0 <= i < |flags| :: reports[i] == FlagReport(short, flags[i])
  {
    seq(|flags|, i requires 0 <= i < |flags| => FlagReport(short, flags[i]))
  }

  /** A long option: its value, or 0 with the value stored through its flag; and its index. */
  function NamedReport(o: LongOption, k: nat, text: Maybe<string>): Report {
    if o.flag then Report(0, text, Nothing, Just(k), Just(o.val)) else Report(o.val, text, Nothing, Just(k), Nothing)
  }

  /** ':' if optstring starts with one, or else '?', with the option in optopt. */
  function LackReport(short: string, opt: int): Report {
    Report(if ColonAt(short, 0) then ':' as int else '?' as int, Nothing, Just(opt), Nothing, Nothing)
  }

  function Reports(syntax: Syntax, item: Item): seq<Report>
    requires item.Long? || item.Unwanted? ==> item.index < |syntax.long|
  {
    match item
    case Short(flags, Flag(c)) => FlagReports(syntax.short, flags) + [FlagReport(syntax.short, c)]
    case Short(flags, Taking(c, text, _)) =>
      FlagReports(syntax.short, flags) + [Report(c as int, Just(text), Nothing, Nothing, Nothing)]
    case Short(flags, Without(c)) =>
      FlagReports(syntax.short, flags) + [Report(c as int, Nothing, Nothing, Nothing, Nothing)]
    case Long(_, text, _, k) => [NamedReport(syntax.long[k], k, text)]
    case NoSuch(_, _) => [Report('?' as int, Nothing, Just(0), Nothing, Nothing)]
    case Unwanted(_, _, k) => [Report('?' as int, Nothing, Just(syntax.long[k].val), Nothing, Nothing)]
    case Word(_) => []
  }

  function EndReports(syntax: Syntax, end: End): seq<Report>
    requires end.LongLacks? ==> end.index < |syntax.long|
  {
    match end
    case ShortLacks(flags, c) => FlagReports(syntax.short, flags) + [LackReport(syntax.short, c as int)]
    case LongLacks(_, k) => [LackReport(syntax.short, syntax.long[k].val)]
    case _ => []
  }

  ghost predicate AllAllowed(syntax: Syntax, items: seq<Item>) {
    forall i | 0 <= i < |items| :: IsAllowed(syntax, items[i])
  }

  /** A command line: items in a row, and an end. */
  function Spelling(items: seq<Item>, end: End): seq<string> {
    if items == [] then EndElements(end) else Elements(items[0]) + Spelling(items[1..], end)
  }

  /** The events that a command line is to report, in order. */
  ghost function Told(syntax: Syntax, items: seq<Item>, end: End): seq<Event>
    requires AllAllowed(syntax, items) && EndAllowed(syntax, end)
  {
    if items == [] then AsEvents(EndReports(syntax, end))
    else
      (if items[0].Word? then [Operand(items[0].word)] else AsEvents(Reports(syntax, items[0])))
      + Told(syntax, items[1..], end)
  }

  /** The elements of its options, with their arguments, */
  function OptionElements(items: seq<Item>, end: End): seq<string> {
    if items == [] then (if end.Dashes? then [] else EndElements(end))
    else (if items[0].Word? then [] else Elements(items[0])) + OptionElements(items[1..], end)
  }

  /** and its operands before any `--`. */
  function Words(items: seq<Item>): seq<string> {
    if items == [] then []
    else (if items[0].Word? then [items[0].word] else []) + Words(items[1..])
  }

  // ---- Short options -----------------------------------------------------------------------------------

  lemma FirstIs(short: string, c: char, i: nat)
    requires IsFirst(short, c, i)
    ensures IndexOf(short, c) == i
  {
    var k := IndexOf(short, c);
    assert forall j | 0 <= j < k :: short[j] == short[..k][j];
  }

  lemma KindOfText(syntax: Syntax, c: char)
    ensures TakesNone(syntax.short, c) ==> KindOf(syntax, c) == Plain && !IsInvalid(syntax.short, c)
    ensures TakesRequired(syntax.short, c) ==> KindOf(syntax, c) == RequiredArg
    ensures TakesOptional(syntax.short, c) ==> KindOf(syntax, c) == OptionalArg
    ensures IsInvalid(syntax.short, c) ==> KindOf(syntax, c) == Unknown
  {
    forall i: nat | IsFirst(syntax.short, c, i) ensures IndexOf(syntax.short, c) == i {
      FirstIs(syntax.short, c, i);
    }
    var k := IndexOf(syntax.short, c);
    assert k < |syntax.short| ==> syntax.short[k] in syntax.short;
  }

  /** A character that stands alone is reported, and the rest of the element is read on. */
  lemma FlagScans(syntax: Syntax, c: char, rest: string, following: seq<string>)
    requires TakesNone(syntax.short, c) || IsInvalid(syntax.short, c)
    ensures if rest == "" then ScanShort(syntax, [c], following) == ([FlagReport(syntax.short, c)], 1)
            else ScanShort(syntax, [c] + rest, following) ==
                 ([FlagReport(syntax.short, c)] + ScanShort(syntax, rest, following).0,
                  ScanShort(syntax, rest, following).1)
  {
    hide TakesNone, IsInvalid, KindOf;
    KindOfText(syntax, c);
    FlagIs(syntax, c);
    assert ([c] + rest)[1..] == rest && [c][1..] == "";
  }

  lemma FlagIs(syntax: Syntax, c: char)
    ensures FlagReport(syntax.short, c) ==
            if IsInvalid(syntax.short, c) then Failure(QUESTION, c as int) else ShortReport(c, Nothing)
  {
  }

  lemma {:induction false} FlagsScan(syntax: Syntax, flags: string, rest: string, following: seq<string>)
    requires FlagsAllowed(syntax.short, flags) && rest != ""
    ensures ScanShort(syntax, flags + rest, following) ==
            (FlagReports(syntax.short, flags) + ScanShort(syntax, rest, following).0,
             ScanShort(syntax, rest, following).1)
    decreases |flags|
  {
    hide ScanShort, FlagReport, TakesNone, IsInvalid;
    if flags == "" {
      assert flags + rest == rest;
      assert [] + ScanShort(syntax, rest, following).0 == ScanShort(syntax, rest, following).0;
      assert FlagReports(syntax.short, flags) == [];
    } else {
      FlagsScan(syntax, flags[1..], rest, following);
      FlagScans(syntax, flags[0], flags[1..] + rest, following);
      assert [flags[0]] + (flags[1..] + rest) == flags + rest;
      var head, tail := FlagReport(syntax.short, flags[0]), FlagReports(syntax.short, flags[1..]);
      assert FlagReports(syntax.short, flags) == [head] + tail;
      var others := ScanShort(syntax, rest, following).0;
      assert [head] + (tail + others) == ([head] + tail) + others;
    }
  }

  /** The last option of a cluster, with what follows the cluster. */
  lemma TakingScans(syntax: Syntax, c: char, text: string, attached: bool, following: seq<string>)
    requires TakesRequired(syntax.short, c) || (attached && TakesOptional(syntax.short, c))
    requires if attached then text != "" else following != [] && following[0] == text
    ensures ScanShort(syntax, if attached then [c] + text else [c], following) ==
            ([Report(c as int, Just(text), Nothing, Nothing, Nothing)], if attached then 1 else 2)
  {
    hide TakesRequired, TakesOptional, TakesNone, IsInvalid, KindOf;
    KindOfText(syntax, c);
    assert ([c] + text)[1..] == text && [c][1..] == "";
  }

  lemma WithoutScans(syntax: Syntax, c: char, following: seq<string>)
    requires TakesOptional(syntax.short, c)
    ensures ScanShort(syntax, [c], following) == ([Report(c as int, Nothing, Nothing, Nothing, Nothing)], 1)
  {
    hide TakesRequired, TakesOptional, TakesNone, IsInvalid, KindOf;
    KindOfText(syntax, c);
    assert [c][1..] == "";
  }

  lemma LackingScans(syntax: Syntax, c: char)
    requires TakesRequired(syntax.short, c)
    ensures ScanShort(syntax, [c], []) == ([LackReport(syntax.short, c as int)], 1)
  {
    hide TakesRequired, TakesOptional, TakesNone, IsInvalid, KindOf;
    KindOfText(syntax, c);
    assert [c][1..] == "";
  }

  lemma ClusterElement(syntax: Syntax, flags: string, c: char, more: string)
    requires IsCluster(syntax, FirstOf(flags, c), "-" + flags + [c] + more)
    ensures var element := "-" + flags + [c] + more;
      && !IsNonOption(element) && element != DASHES && !IsLong(syntax, element)
      && element[1..] == flags + ([c] + more)
  {
    var element := "-" + flags + [c] + more;
    assert element[0] == '-' && element[1] == FirstOf(flags, c);
  }

  lemma ShortScans(syntax: Syntax, item: Item, following: seq<string>)
    requires item.Short? && IsAllowed(syntax, item)
    ensures var elements := Elements(item);
      && elements != [] && !IsNonOption(elements[0]) && elements[0] != DASHES
      && ScanElement(syntax, elements[0], elements[1..] + following) == (Reports(syntax, item), |elements|)
  {
    hide ScanShort, FlagsAllowed, TakesNone, TakesRequired, TakesOptional, IsInvalid, IsLong, IsCluster, FlagReport;
    var flags, c, elements := item.flags, item.last.c, Elements(item);
    var rest := elements[1..] + following;
    var more := if item.last.Taking? && item.last.attached then item.last.text else "";
    assert elements[0] == "-" + flags + [c] + more;
    ClusterElement(syntax, flags, c, more);
    FlagsScan(syntax, flags, [c] + more, rest);
    assert [c] + "" == [c];
    match item.last
    case Flag(_) => FlagScans(syntax, c, "", rest);
    case Taking(_, text, attached) => TakingScans(syntax, c, text, attached, rest);
    case Without(_) => WithoutScans(syntax, c, rest);
  }

  // ---- Long options --------------------------------------------------------------------------------------

  lemma {:induction false} NameEnds(name: string, rest: string)
    requires '=' !in name && (rest == "" || rest[0] == '=')
    ensures NameLength(name + rest) == |name|
    decreases |name|
  {
    if name != "" {
      NameEnds(name[1..], rest);
      assert (name + rest)[1..] == name[1..] + rest;
    } else {
      assert name + rest == rest;
    }
  }

  lemma NamesResolve(long: seq<LongOption>, name: string, k: nat)
    requires Names(long, name, k)
    ensures Resolve(long, name) == Found(k)
  {
    hide Resolve;
    ResolveMeans(long, name);
    assert long[k].name == name ==> IsExact(long[k], name);
    forall j | 0 <= j < |long| && long[j].name != name ensures !IsExact(long[j], name) {
    }
  }

  lemma NamesNoneResolve(long: seq<LongOption>, name: string)
    requires NamesNone(long, name)
    ensures !Resolve(long, name).Found?
  {
    hide Resolve;
    ResolveMeans(long, name);
    forall j | 0 <= j < |long| ensures !IsExact(long[j], name) {
    }
    if exists j, k :: 0 <= j < k < |long| && name <= long[j].name && name <= long[k].name {
      var j, k :| 0 <= j < k < |long| && name <= long[j].name && name <= long[k].name;
      assert IsPrefixed(long[j], name) && IsPrefixed(long[k], name);
    }
  }

  lemma NamedElement(syntax: Syntax, name: string, text: Maybe<string>)
    requires IsName(syntax, name, text)
    ensures var element := Named(name, text);
      && !IsNonOption(element) && element != DASHES && IsLong(syntax, element)
      && NameLength(element[2..]) == |name| && element[2..][..|name|] == name
      && (if text.Just? then |name| < |element[2..]| && element[2..][|name| + 1..] == text.value
          else element[2..] == name)
  {
    var rest := if text.Just? then "=" + text.value else "";
    assert Named(name, text)[2..] == name + rest;
    NameEnds(name, rest);
  }

  lemma LongScans(syntax: Syntax, item: Item, following: seq<string>)
    requires (item.Long? || item.NoSuch? || item.Unwanted?) && IsAllowed(syntax, item)
    ensures var elements := Elements(item);
      && elements != [] && !IsNonOption(elements[0]) && elements[0] != DASHES
      && ScanElement(syntax, elements[0], elements[1..] + following) == (Reports(syntax, item), |elements|)
  {
    hide Resolve, Names, NamesNone, Named, IsLong, NameLength;
    var elements := Elements(item);
    match item
    case Long(name, text, attached, k) =>
      NamedElement(syntax, name, if attached then text else Nothing);
      NamesResolve(syntax.long, name, k);
      NamedIs(syntax.long[k], k, text);
    case NoSuch(name, text) =>
      NamedElement(syntax, name, text);
      NamesNoneResolve(syntax.long, name);
    case Unwanted(name, text, k) =>
      NamedElement(syntax, name, Just(text));
      NamesResolve(syntax.long, name, k);
  }

  lemma NamedIs(o: LongOption, k: nat, text: Maybe<string>)
    ensures NamedReport(o, k, text) == LongReport(o, k, text)
  {
  }

  // ---- Whole command lines -----------------------------------------------------------------------------

  lemma ItemScans(syntax: Syntax, item: Item, following: seq<string>)
    requires !item.Word? && IsAllowed(syntax, item)
    ensures var elements := Elements(item);
      && elements != [] && !IsNonOption(elements[0]) && elements[0] != DASHES
      && ScanElement(syntax, elements[0], elements[1..] + following) == (Reports(syntax, item), |elements|)
  {
    hide IsAllowed, ScanElement, Reports, Elements;
    if item.Short? {
      ShortScans(syntax, item, following);
    } else {
      LongScans(syntax, item, following);
    }
  }

  lemma LackingEnd(syntax: Syntax, end: End)
    requires (end.ShortLacks? || end.LongLacks?) && EndAllowed(syntax, end)
    ensures var args := EndElements(end);
      && |args| == 1 && !IsNonOption(args[0]) && args[0] != DASHES
      && ScanElement(syntax, args[0], []) == (EndReports(syntax, end), 1)
  {
    hide ScanShort, FlagsAllowed, TakesRequired, IsCluster, FlagReport, Resolve, Names, Named, IsLong, NameLength;
    match end
    case ShortLacks(flags, c) =>
      assert "-" + flags + [c] + "" == "-" + flags + [c] && [c] + "" == [c];
      ClusterElement(syntax, flags, c, "");
      FlagsScan(syntax, flags, [c], []);
      LackingScans(syntax, c);
    case LongLacks(name, k) =>
      NamedElement(syntax, name, Nothing);
      NamesResolve(syntax.long, name, k);
  }

  lemma EndScans(syntax: Syntax, end: End)
    requires EndAllowed(syntax, end)
    ensures ScanArgs(syntax, EndElements(end)) ==
            Scan(AsEvents(EndReports(syntax, end)), if end.Dashes? then [] else EndElements(end), [], end.Dashes?,
                 if end.Dashes? then end.tail else [])
  {
    hide ScanArgs, ScanElement;
    var args := EndElements(end);
    if end.Ends? || end.Dashes? {
      ScanEnd(syntax, args);
    } else {
      LackingEnd(syntax, end);
      ScanOption(syntax, args);
      assert args[1..] == [] && args[..1] == args;
      ScanEnd(syntax, []);
      var reports := AsEvents(EndReports(syntax, end));
      assert reports + [] == reports && args + [] == args;
    }
  }

  /** A command line reads as it was spelled: its options and their arguments, its operands, and what
      follows `--`, each once and in order. */
  lemma {:induction false} ReadsAsSpelled(syntax: Syntax, items: seq<Item>, end: End)
    requires AllAllowed(syntax, items) && EndAllowed(syntax, end)
    ensures ScanArgs(syntax, Spelling(items, end)) ==
            Scan(Told(syntax, items, end), OptionElements(items, end), Words(items), end.Dashes?,
                 if end.Dashes? then end.tail else [])
    decreases |items|
  {
    hide ScanArgs, ScanElement, IsAllowed, EndAllowed, Reports, EndReports, Elements, EndElements;
    if items == [] {
      EndScans(syntax, end);
    } else {
      var args, rest := Spelling(items, end), Spelling(items[1..], end);
      ReadsAsSpelled(syntax, items[1..], end);
      if items[0].Word? {
        WordIs(syntax, items[0]);
        assert args[0] == items[0].word && args[1..] == rest;
        ScanOperand(syntax, args);
        assert AsOperands([args[0]]) == [Operand(args[0])];
      } else {
        var elements := Elements(items[0]);
        ItemScans(syntax, items[0], rest);
        assert args[0] == elements[0] && args[1..] == elements[1..] + rest;
        assert args[..|elements|] == elements && args[|elements|..] == rest;
        ScanOption(syntax, args);
      }
    }
  }

  lemma WordIs(syntax: Syntax, item: Item)
    requires item.Word? && IsAllowed(syntax, item)
    ensures Elements(item) == [item.word] && IsNonOption(item.word)
  {
  }

  /** What a caller sees of events: return values and optarg, an operand as 1 with the operand. */
  function Heard(events: seq<Event>): (results: seq<(int, Maybe<string>)>)
    ensures |results| == |events|
  {
    seq(|events|, i requires 0 <= i < |events| =>
      match events[i] case Operand(a) => (1, Just(a)) case Option(r) => (r.code, r.optarg))
  }

  lemma ResultsAreHeard(events: seq<Event>)
    ensures Results(events) == Heard(events)
  {
  }

  lemma PermutedParts(program: string, s: Scan)
    ensures [program] + Permuted(s) ==
            [program] + s.options + (if s.dashes then ["--"] else []) + s.operands + s.tail
  {
  }

  /** The round trip: a command line that is spelled out of options and operands is reported as those
      options, with those arguments, and those operands. In RETURN_IN_ORDER all of them are, in order;
      in PERMUTE the options alone, and argv ends with them in front; in REQUIRE_ORDER what stands
      before the first operand. */
  lemma RoundTrip(syntax: Syntax, program: string, items: seq<Item>, end: End)
    requires AllAllowed(syntax, items) && EndAllowed(syntax, end)
    ensures var start, told := Init([program] + Spelling(items, end)), Told(syntax, items, end);
      && Run(syntax, ReturnInOrder, start).0 == told
      && Run(syntax, Permute, start).0 == Options(told)
      && Run(syntax, RequireOrder, start).0 == BeforeOperand(told)
      && Run(syntax, Permute, start).1.argv ==
         [program] + OptionElements(items, end) + (if end.Dashes? then ["--"] else []) + Words(items)
         + (if end.Dashes? then end.tail else [])
  {
    hide Run, ScanArgs, AllAllowed, EndAllowed, Told, Spelling, Permuted, Options, BeforeOperand, OptionElements, Words;
    var args := Spelling(items, end);
    var argv := [program] + args;
    assert argv[1..] == args && argv[0] == program;
    ReadsAsSpelled(syntax, items, end);
    OrderingsAgree(syntax, argv);
    PermuteSorts(syntax, argv);
    PermutedParts(program, ScanArgs(syntax, args));
  }

  /** What the caller's loop collects, in the same words. */
  lemma RoundTripHeard(syntax: Syntax, program: string, items: seq<Item>, end: End)
    requires AllAllowed(syntax, items) && EndAllowed(syntax, end)
    ensures var start, told := Init([program] + Spelling(items, end)), Told(syntax, items, end);
      && Results(Run(syntax, ReturnInOrder, start).0) == Heard(told)
      && Results(Run(syntax, Permute, start).0) == Heard(Options(told))
      && Results(Run(syntax, RequireOrder, start).0) == Heard(BeforeOperand(told))
  {
    hide Run, AllAllowed, EndAllowed, Told, Spelling, Options, BeforeOperand, Results, Heard;
    var told := Told(syntax, items, end);
    RoundTrip(syntax, program, items, end);
    ResultsAreHeard(told);
    ResultsAreHeard(Options(told));
    ResultsAreHeard(BeforeOperand(told));
  }
}
