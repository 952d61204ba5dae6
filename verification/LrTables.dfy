/** The packed tables of a Bison 1.25 parser and the lookups that yyparse makes in them.

    Symbols are Bison's internal numbers: 0 is end of input, 1 the `error` token,
    `2 .. ntBase-1` the other tokens, and nonterminals start at `ntBase`. Rule 0 is the
    augmented rule "accept: start $", whose right-hand side Bison leaves implicit. */
module LrTables {

  const YYFLAG := -32768
  const YYEOF := 0
  const YYTERROR := 1

  datatype Tables = Tables(
    pact: seq<int>, defact: seq<int>, pgoto: seq<int>, defgoto: seq<int>,
    table: seq<int>, check: seq<int>,
    r1: seq<int>, rhs: seq<seq<int>>, ntBase: int, final: int)

  datatype Action = Shift(state: int) | Reduce(rule: int) | Accept | Error

  /** The states a parser can stand in. YYFINAL is never entered: moving to it accepts. */
  predicate IsState(t: Tables, s: int) {
    0 <= s < |t.pact| && s < |t.defact| && s != t.final
  }

  predicate IsNonterminal(t: Tables, x: int) {
    t.ntBase <= x < t.ntBase + |t.pgoto| && x < t.ntBase + |t.defgoto|
  }

  predicate IsRule(t: Tables, r: int) {
    1 <= r < |t.rhs| && r < |t.r1| && IsNonterminal(t, t.r1[r])
  }

  /** What YYTRANSLATE can return: a token number, or one past the last symbol for a code
      outside its table. */
  predicate IsKind(t: Tables, k: int) {
    0 <= k < t.ntBase || k == t.ntBase + |t.pgoto|
  }

  predicate Hit(t: Tables, i: int, k: int) {
    0 <= i < |t.table| && i < |t.check| && t.check[i] == k
  }

  function Default(t: Tables, s: int): Action
    requires IsState(t, s)
  {
    if t.defact[s] == 0 then Error else Reduce(t.defact[s])
  }

  function Decode(t: Tables, n: int): Action {
    if n < 0 then (if n == YYFLAG then Error else Reduce(-n))
    else if n == 0 then Error
    else if n == t.final then Accept
    else Shift(n)
  }

  /** The action of state `s` on lookahead symbol `k`. */
  function Lookup(t: Tables, s: int, k: int): Action
    requires IsState(t, s)
  {
    if t.pact[s] == YYFLAG then Default(t, s)
    else if Hit(t, t.pact[s] + k, k) then Decode(t, t.table[t.pact[s] + k])
    else Default(t, s)
  }

  /** What state `s` does with the `error` token: default reductions are not taken. */
  function ErrorLookup(t: Tables, s: int): Action
    requires IsState(t, s)
  {
    if t.pact[s] == YYFLAG || !Hit(t, t.pact[s] + YYTERROR, YYTERROR) then Error
    else Decode(t, t.table[t.pact[s] + YYTERROR])
  }

  function Goto(t: Tables, s: int, x: int): int
    requires IsNonterminal(t, x)
  {
    var i := t.pgoto[x - t.ntBase] + s;
    if Hit(t, i, s) then t.table[i] else t.defgoto[x - t.ntBase]
  }

  /** A certificate for tables: the dotted rules that hold in a state. `Item(c, s, r, k)`
      says that whenever `s` is on top of the stack, the `k` symbols on top of the stack are
      the first `k` of rule `r`, and rule `r` was wanted just below them. */
  datatype Cert = Cert(items: (int, int, int) -> bool)

  predicate Item(c: Cert, s: int, r: int, k: int) {
    c.items(s, r, k)
  }

  /** Entering `n` from `p` on symbol `x` keeps every dotted rule of `n` truthful. */
  ghost predicate Entered(t: Tables, c: Cert, p: int, x: int, n: int) {
    && IsState(t, n) && n != 0
    && forall r, k :: 1 <= k && Item(c, n, r, k) ==>
         0 <= r < |t.rhs| && k <= |t.rhs[r]| && t.rhs[r][k - 1] == x && Item(c, p, r, k - 1)
  }

  ghost predicate ActionOk(t: Tables, c: Cert, s: int, k: int, a: Action) {
    match a
    case Shift(n) => Entered(t, c, s, k, n)
    case Reduce(r) => IsRule(t, r) && Item(c, s, r, |t.rhs[r]|)
    case Accept => k == YYEOF && Item(c, s, 0, 2)
    case Error => true
  }

  ghost predicate ActionsOk(t: Tables, c: Cert) {
    forall s, k :: IsState(t, s) && IsKind(t, k) ==> ActionOk(t, c, s, k, Lookup(t, s, k))
  }

  /** Only a shift, never a reduction, is triggered by the `error` token. */
  ghost predicate ErrorOk(t: Tables, c: Cert, s: int, a: Action) {
    match a
    case Shift(n) => Entered(t, c, s, YYTERROR, n)
    case Error => true
    case _ => false
  }

  ghost predicate ErrorsOk(t: Tables, c: Cert) {
    forall s :: IsState(t, s) ==> ErrorOk(t, c, s, ErrorLookup(t, s))
  }

  ghost predicate GotosOk(t: Tables, c: Cert) {
    forall s, r :: IsState(t, s) && IsRule(t, r) && Item(c, s, r, 0) ==>
      Entered(t, c, s, t.r1[r], Goto(t, s, t.r1[r]))
  }

  /** A state that never looks at the lookahead always reduces. */
  ghost predicate DefaultsOk(t: Tables) {
    forall s :: IsState(t, s) && t.pact[s] == YYFLAG ==> Default(t, s).Reduce?
  }

  /** End of input is shifted only into states that then accept. */
  ghost predicate EndOk(t: Tables) {
    forall s :: IsState(t, s) && Lookup(t, s, YYEOF).Shift? && IsState(t, Lookup(t, s, YYEOF).state) ==>
      var n := Lookup(t, s, YYEOF).state;
      t.pact[n] != YYFLAG && Lookup(t, n, YYEOF) == Accept
  }

  ghost predicate BottomOk(t: Tables, c: Cert) {
    && IsState(t, 0)
    && (forall r, k :: Item(c, 0, r, k) ==> k == 0)
    && (forall s :: IsState(t, s) && Item(c, s, 0, 0) ==> s == 0)
    && 1 < t.ntBase
    && |t.rhs| > 0 && |t.rhs[0]| == 2 && IsNonterminal(t, t.rhs[0][0]) && t.rhs[0][1] == YYEOF
  }

  /** The local check: each clause looks at one state and the states it moves to. */
  ghost predicate Valid(t: Tables, c: Cert) {
    ActionsOk(t, c) && ErrorsOk(t, c) && GotosOk(t, c) && DefaultsOk(t) && EndOk(t) && BottomOk(t, c)
  }

  /** The start symbol: the first one of the augmented rule. */
  function Start(t: Tables): int {
    if |t.rhs| > 0 && |t.rhs[0]| > 0 then t.rhs[0][0] else -1
  }
}
