/** _getopt_internal as a function from state to state. */
module GetoptMachine {
  import opened GetoptExchange
  import opened GetoptSpec

  /** argv and the static variables; `nextchar` is the text it points to, "" if none. */
  datatype State = State(argv: seq<string>, optind: int, nextchar: string, first: int, last: int)

  datatype Outcome = Done | Got(event: Event)

  function Init(argv: seq<string>): State {
    State(argv, 1, "", 1, 1)
  }

  /** What holds between calls. After -1, or if the caller has moved optind back, the record of
      skipped operands may reach beyond optind. */
  predicate StateOk(s: State) {
    && 1 <= s.first <= s.last <= |s.argv|
    && 1 <= s.optind <= |s.argv|
    && (s.nextchar != "" ==> s.last <= s.optind < |s.argv| && !IsNonOption(s.argv[s.optind]))
  }

  /** exchange */
  function ExchangeState(s: State): State
    requires 0 <= s.first <= s.last <= s.optind <= |s.argv|
  {
    s.(argv := Exchanged(s.argv, s.first, s.last, s.optind), first := s.first + (s.optind - s.last), last := s.optind)
  }

  function Min(a: int, b: int): int {
    if a < b then a else b
  }

  function Clamp(s: State): State {
    s.(last := Min(s.last, s.optind), first := Min(s.first, s.optind))
  }

  /** The first element at or after `i` that is not a non-option. */
  function Skip(argv: seq<string>, i: int): (k: int)
    requires 0 <= i <= |argv|
    ensures i <= k <= |argv| && (k < |argv| ==> !IsNonOption(argv[k]))
    ensures forall j | i <= j < k :: IsNonOption(argv[j])
    decreases |argv| - i
  {
    if i < |argv| && IsNonOption(argv[i]) then Skip(argv, i + 1) else i
  }

  /** Moves options that followed skipped operands in front of them. */
  function Gather(s: State): State
    requires 0 <= s.first <= s.last <= s.optind <= |s.argv|
  {
    if s.first != s.last && s.last != s.optind then ExchangeState(s)
    else if s.last != s.optind then s.(first := s.optind)
    else s
  }

  /** The PERMUTE block: gathers, then skips further operands. */
  function PermuteStep(s: State): State
    requires 0 <= s.first <= s.last <= s.optind <= |s.argv|
  {
    var g := Gather(s);
    var k := Skip(g.argv, g.optind);
    g.(optind := k, last := k)
  }

  /** `--`: skipped like an option, and everything after it like operands. */
  function DashesStep(s: State): State
    requires 0 <= s.first <= s.last <= s.optind < |s.argv|
  {
    var s1 := s.(optind := s.optind + 1);
    var g := if s1.first != s1.last && s1.last != s1.optind then ExchangeState(s1)
             else if s1.first == s1.last then s1.(first := s1.optind)
             else s1;
    g.(last := |g.argv|, optind := |g.argv|)
  }

  /** Before an element is looked at: order the arguments and pass over `--`. */
  function Arrange(ord: Ordering, s: State): State
    requires StateOk(s)
  {
    var c := Clamp(s);
    var p := if ord == Permute then PermuteStep(c) else c;
    if p.optind != |p.argv| && p.argv[p.optind] == DASHES then DashesStep(p) else p
  }

  /** Decodes one option of the element at optind. */
  function Decode(syntax: Syntax, s: State): (State, Outcome)
    requires StateOk(s) && s.nextchar != ""
  {
    var following := s.argv[s.optind + 1..];
    var d := if IsLong(syntax, s.argv[s.optind]) then DecodeLong(syntax, s.nextchar, following)
             else DecodeShort(syntax, s.nextchar, following);
    (s.(optind := s.optind + d.taken, nextchar := d.rest), Got(Option(d.report)))
  }

  /** One call of getopt. */
  function Call(syntax: Syntax, ord: Ordering, s: State): (State, Outcome)
    requires StateOk(s)
  {
    if s.nextchar != "" then Decode(syntax, s)
    else
      var a := Arrange(ord, s);
      if a.optind == |a.argv| then (if a.first != a.last then a.(optind := a.first) else a, Done)
      else if IsNonOption(a.argv[a.optind]) then
        if ord == RequireOrder then (a, Done)
        else (a.(optind := a.optind + 1), Got(Operand(a.argv[a.optind])))
      else Decode(syntax, a.(nextchar := a.argv[a.optind][if IsLong(syntax, a.argv[a.optind]) then 2 else 1..]))
  }
}
