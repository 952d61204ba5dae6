/** Option syntax and its meaning, as src/analyzer/getopt.c decodes it, one element at a time.
    C strings are sequences without NUL; a null pointer and an empty string of unread option
    characters mean the same to getopt and are both "". */
module GetoptSpec {

  datatype Maybe<T> = Nothing | Just(value: T)

  /** struct option: `hasArg` is 0, 1 or 2; `flag` says whether the flag pointer is set. */
  datatype LongOption = LongOption(name: string, hasArg: int, flag: bool, val: int)

  /** optstring without its ordering prefix, and longopts, which may be null. */
  datatype Syntax = Syntax(short: string, hasLong: bool, long: seq<LongOption>)

  datatype Ordering = RequireOrder | Permute | ReturnInOrder

  /** What one call reports about an option: its return value, optarg, and the values it gives to
      optopt, *longind and *flag, if any. */
  datatype Report = Report(code: int, optarg: Maybe<string>, optopt: Maybe<int>, longind: Maybe<int>,
      stored: Maybe<int>)

  /** One report, the option characters left in the element, and the elements used up. */
  datatype Decoded = Decoded(report: Report, rest: string, taken: nat)

  const QUESTION := '?' as int
  const COLON := ':' as int

  function Failure(code: int, optopt: int): Report {
    Report(code, Nothing, Just(optopt), Nothing, Nothing)
  }

  /** NONOPTION_P */
  predicate IsNonOption(a: string) {
    |a| < 2 || a[0] != '-'
  }

  predicate IsLong(syntax: Syntax, element: string) {
    syntax.hasLong && |element| >= 2 && element[1] == '-'
  }

  // ---- Long names -----------------------------------------------------------------------------------

  datatype Match = NotFound | Ambiguous | Found(index: nat)

  predicate IsExact(o: LongOption, name: string) {
    o.name == name
  }

  /** strncmp over the length of the given name. */
  predicate IsPrefixed(o: LongOption, name: string) {
    name <= o.name
  }

  /** The first entry at or after `i` that the name is exactly, or the length of the table. */
  function FirstExact(long: seq<LongOption>, name: string, i: nat): (k: nat)
    requires i <= |long|
    ensures i <= k <= |long|
    ensures k < |long| ==> IsExact(long[k], name)
    ensures forall j | i <= j < k :: !IsExact(long[j], name)
    decreases |long| - i
  {
    if i == |long| || IsExact(long[i], name) then i else FirstExact(long, name, i + 1)
  }

  function FirstPrefixed(long: seq<LongOption>, name: string, i: nat): (k: nat)
    requires i <= |long|
    ensures i <= k <= |long|
    ensures k < |long| ==> IsPrefixed(long[k], name)
    ensures forall j | i <= j < k :: !IsPrefixed(long[j], name)
    decreases |long| - i
  {
    if i == |long| || IsPrefixed(long[i], name) then i else FirstPrefixed(long, name, i + 1)
  }

  /** What a name stands for: an exact match wins; an abbreviation must be of one entry only. */
  function Resolve(long: seq<LongOption>, name: string): (m: Match)
    ensures m.Found? ==> m.index < |long|
  {
    var e := FirstExact(long, name, 0);
    var p := FirstPrefixed(long, name, 0);
    if e < |long| then Found(e)
    else if p == |long| then NotFound
    else if FirstPrefixed(long, name, p + 1) == |long| then Found(p)
    else Ambiguous
  }

  /** The three outcomes, said of the table as a whole. */
  lemma ResolveMeans(long: seq<LongOption>, name: string)
    ensures Resolve(long, name).NotFound? <==> forall j | 0 <= j < |long| :: !IsPrefixed(long[j], name)
    ensures Resolve(long, name).Ambiguous? <==>
              (forall j | 0 <= j < |long| :: !IsExact(long[j], name)) &&
              exists j, k :: 0 <= j < k < |long| && IsPrefixed(long[j], name) && IsPrefixed(long[k], name)
    ensures forall i: nat :: Resolve(long, name) == Found(i) <==>
              i < |long| && if IsExact(long[i], name) then forall j | 0 <= j < i :: !IsExact(long[j], name)
                            else (forall j | 0 <= j < |long| :: !IsExact(long[j], name)) && IsPrefixed(long[i], name) &&
                                 forall j | 0 <= j < |long| && j != i :: !IsPrefixed(long[j], name)
  {
    var p := FirstPrefixed(long, name, 0);
    if p < |long| {
      var q := FirstPrefixed(long, name, p + 1);
    }
    assert forall j | 0 <= j < |long| && IsExact(long[j], name) :: IsPrefixed(long[j], name);
  }

  /** The length of the name part of a long option: up to `=`, or all of it. */
  function NameLength(s: string): (n: nat)
    ensures n <= |s| && (n < |s| ==> s[n] == '=') && '=' !in s[..n]
  {
    if s == "" || s[0] == '=' then 0 else 1 + NameLength(s[1..])
  }

  predicate WantsColon(syntax: Syntax) {
    |syntax.short| > 0 && syntax.short[0] == ':'
  }

  /** The value of an option that lacks its argument. */
  function MissingCode(syntax: Syntax): int {
    if WantsColon(syntax) then COLON else QUESTION
  }

  function LongReport(o: LongOption, index: int, optarg: Maybe<string>): Report {
    Report(if o.flag then 0 else o.val, optarg, Nothing, Just(index), if o.flag then Just(o.val) else Nothing)
  }

  /** A long option element after its two dashes. It is always used up at once. */
  function DecodeLong(syntax: Syntax, next: string, following: seq<string>): (d: Decoded)
    ensures d.rest == "" && 1 <= d.taken <= 2 && d.taken <= 1 + |following|
  {
    var n := NameLength(next);
    match Resolve(syntax.long, next[..n])
    case Ambiguous => Decoded(Failure(QUESTION, 0), "", 1)
    case NotFound => Decoded(Failure(QUESTION, 0), "", 1)
    case Found(i) =>
      var o := syntax.long[i];
      if n < |next| then
        if o.hasArg != 0 then Decoded(LongReport(o, i, Just(next[n + 1..])), "", 1)
        else Decoded(Failure(QUESTION, o.val), "", 1)
      else if o.hasArg == 1 then
        if following != [] then Decoded(LongReport(o, i, Just(following[0])), "", 2)
        else Decoded(Failure(MissingCode(syntax), o.val), "", 1)
      else Decoded(LongReport(o, i, Nothing), "", 1)
  }

  // ---- Short options -------------------------------------------------------------------------------

  /** my_index: the first position of `c` in `s`, or the length of `s`. */
  function IndexOf(s: string, c: char): (k: nat)
    ensures k <= |s| && (k < |s| ==> s[k] == c) && c !in s[..k]
  {
    if s == "" || s[0] == c then 0 else 1 + IndexOf(s[1..], c)
  }

  /** The character at `i` of a NUL-terminated string. */
  function CharAt(s: string, i: nat): char {
    if i < |s| then s[i] else '\0'
  }

  datatype Kind = Unknown | Plain | OptionalArg | RequiredArg

  /** What optstring says of an option character. */
  function KindOf(syntax: Syntax, c: char): Kind {
    var i := IndexOf(syntax.short, c);
    if i == |syntax.short| || c == ':' then Unknown
    else if CharAt(syntax.short, i + 1) != ':' then Plain
    else if CharAt(syntax.short, i + 2) == ':' then OptionalArg
    else RequiredArg
  }

  /** `W;` in optstring asks for another treatment of -W. */
  predicate TreatsW(syntax: Syntax) {
    'W' in syntax.short && CharAt(syntax.short, IndexOf(syntax.short, 'W') + 1) == ';'
  }

  function ShortReport(c: char, optarg: Maybe<string>): Report {
    Report(c as int, optarg, Nothing, Nothing, Nothing)
  }

  /** The next option character of a short element. */
  function DecodeShort(syntax: Syntax, next: string, following: seq<string>): (d: Decoded)
    requires next != ""
    ensures if d.rest == "" then 1 <= d.taken <= 2 && d.taken <= 1 + |following| else d.taken == 0 && d.rest == next[1..]
  {
    var c, rest := next[0], next[1..];
    var step := if rest == "" then 1 else 0;
    match KindOf(syntax, c)
    case Unknown => Decoded(Failure(QUESTION, c as int), rest, step)
    case Plain => Decoded(ShortReport(c, Nothing), rest, step)
    case OptionalArg => Decoded(ShortReport(c, if rest != "" then Just(rest) else Nothing), "", 1)
    case RequiredArg =>
      if rest != "" then Decoded(ShortReport(c, Just(rest)), "", 1)
      else if following != [] then Decoded(ShortReport(c, Just(following[0])), "", 2)
      else Decoded(Failure(MissingCode(syntax), c as int), "", 1)
  }

  // ---- Whole elements and whole argument lists ----------------------------------------------------

  /** All reports from the rest of a short element, and the elements it uses up. */
  function ScanShort(syntax: Syntax, next: string, following: seq<string>): (r: (seq<Report>, nat))
    requires next != ""
    ensures 1 <= r.1 <= 2 && r.1 <= 1 + |following| && |r.0| > 0
    decreases |next|
  {
    var d := DecodeShort(syntax, next, following);
    if d.rest == "" then ([d.report], d.taken)
    else
      var (reports, taken) := ScanShort(syntax, d.rest, following);
      ([d.report] + reports, taken)
  }

  function ScanElement(syntax: Syntax, element: string, following: seq<string>): (r: (seq<Report>, nat))
    requires !IsNonOption(element)
    ensures 1 <= r.1 <= 2 && r.1 <= 1 + |following| && |r.0| > 0
  {
    if IsLong(syntax, element) then
      var d := DecodeLong(syntax, element[2..], following);
      ([d.report], d.taken)
    else ScanShort(syntax, element[1..], following)
  }

  datatype Event = Option(report: Report) | Operand(arg: string)

  /** The meaning of an argument list, read once from left to right: its options and operands as
      events in order; the option elements with the arguments they took; the operands skipped;
      and, if there was a `--`, what follows it. */
  datatype Scan = Scan(events: seq<Event>, options: seq<string>, operands: seq<string>, dashes: bool, tail: seq<string>)

  function AsEvents(reports: seq<Report>): (events: seq<Event>)
    ensures |events| == |reports| && forall i | 0 <= i < |reports| :: events[i] == Option(reports[i])
  {
    seq(|reports|, i requires 0 <= i < |reports| => Option(reports[i]))
  }

  const DASHES := "--"

  function ScanArgs(syntax: Syntax, args: seq<string>): Scan
    decreases |args|
  {
    if args == [] then Scan([], [], [], false, [])
    else if args[0] == DASHES then Scan([], [], [], true, args[1..])
    else if IsNonOption(args[0]) then
      var s := ScanArgs(syntax, args[1..]);
      s.(events := [Operand(args[0])] + s.events, operands := [args[0]] + s.operands)
    else
      var (reports, taken) := ScanElement(syntax, args[0], args[1..]);
      var s := ScanArgs(syntax, args[taken..]);
      s.(events := AsEvents(reports) + s.events, options := args[..taken] + s.options)
  }

  /** The events that are options. */
  function Options(events: seq<Event>): seq<Event> {
    if events == [] then []
    else (if events[0].Option? then [events[0]] else []) + Options(events[1..])
  }

  /** The events before the first operand. */
  function BeforeOperand(events: seq<Event>): seq<Event> {
    if events == [] || events[0].Operand? then [] else [events[0]] + BeforeOperand(events[1..])
  }

  /** The stable partition: options with their arguments, `--` if there was one, operands, and
      whatever followed the `--`. */
  function Permuted(s: Scan): seq<string> {
    s.options + (if s.dashes then [DASHES] else []) + s.operands + s.tail
  }
}
