/** The scopes of the C parser, src/analyzer/gram-tab.cc: mid-rule actions enter them, later
    actions leave them. Its rules are those of GramGrammar; what is taken as given of its states is
    stated below. */
module GramScopes {
  import opened LrTables
  import opened LrTrees
  import opened LrEngine
  import opened LrSoundness
  import opened LrTermination
  import opened LrScopes
  import opened GramGrammar

  /** enter_scope and leave_scope, in all their variants. */
  const NAMES := 0
  /** members_enter_scope and members_leave_scope. */
  const MEMBERS := 1

  const FUNCTION_BODY := 194

  function GramAction(rule: int): Effect {
    if rule == 159 || rule == 161 then Opens(MEMBERS)
    else if rule == 160 || rule == 162 then Closes(MEMBERS)
    else if rule in {224, 257, 259, 261, 263, 265, 267, 296, 312} then Opens(NAMES)
    else if rule in {225, 258, 269, 297, 313} then Closes(NAMES)
    else Neutral
  }

  /** The mid-rule markers @9-@11, @13-@20 have each opened a scope; a function body has closed
      the one that the marker before it opened. */
  function GramEffect(symbol: int): Effect {
    if symbol == 145 || symbol == 146 then Opens(MEMBERS)
    else if symbol == 171 || symbol == 187 || 189 <= symbol <= 193 || symbol == 206 || symbol == 211 then Opens(NAMES)
    else if symbol == FUNCTION_BODY then Closes(NAMES)
    else Neutral
  }

  const SCOPING := Scoping(GramAction, GramEffect)

  /** The rules with scope actions or scope symbols. */
  predicate IsScopeRule(r: int) {
    159 <= r <= 162 || r == 224 || r == 225 || 257 <= r <= 269 || r == 296 || r == 297 || r == 312 || r == 313
  }

  ghost predicate HasRule(t: Tables, r: int, lhs: int, rhs: seq<int>) {
    IsRule(t, r) && t.r1[r] == lhs && t.rhs[r] == rhs
  }

  /** What yyr1 and yyrhs say of these rules, and that no other rule mentions a scope symbol. */
  ghost predicate GramRules(t: Tables) {
    && t.ntBase == 92
    && HasRule(t, 159, 145, []) && HasRule(t, 160, 144, [147, 90, 145, 148, 91])
    && HasRule(t, 161, 146, []) && HasRule(t, 162, 144, [147, 163, 146, 90, 148, 91])
    && HasRule(t, 224, 171, []) && HasRule(t, 225, 170, [90, 171, 173, 91])
    && HasRule(t, 257, 187, []) && HasRule(t, 258, 186, [205, 187, 174])
    && HasRule(t, 259, 189, []) && HasRule(t, 260, 188, [186, 189, 194])
    && HasRule(t, 261, 190, []) && HasRule(t, 262, 188, [129, 186, 190, 194])
    && HasRule(t, 263, 191, []) && HasRule(t, 264, 188, [130, 186, 191, 194])
    && HasRule(t, 265, 192, []) && HasRule(t, 266, 188, [131, 186, 192, 194])
    && HasRule(t, 267, 193, []) && HasRule(t, 268, 188, [132, 186, 193, 194])
    && HasRule(t, 269, 194, [90, 173, 91])
    && HasRule(t, 296, 206, []) && HasRule(t, 297, 205, [204, 69, 206, 162, 68])
    && HasRule(t, 312, 211, []) && HasRule(t, 313, 210, [69, 211, 159, 68])
    && (forall r :: IsRule(t, r) && !IsScopeRule(r) ==> Unscoped(t, r))
    && Start(t) == 181
  }

  lemma RuleWith(t: Tables, r: int, lhs: int, rhs: seq<int>)
    requires IsForGrammar(t) && 1 <= r < RULES && R1At(r) == lhs && 92 <= lhs < 213
    requires LengthAt(r) == |rhs| && forall k | 0 <= k < |rhs| :: SymbolAt(r, k) == rhs[k]
    ensures HasRule(t, r, lhs, rhs)
  {
    hide R1At, LengthAt, SymbolAt;
    assert RuleIs(t, r);
  }

  /** The grammar has the rules with scope actions as they are read here. */
  lemma GrammarHasRules(t: Tables)
    requires IsForGrammar(t)
    ensures GramRules(t)
  {
    hide IsForGrammar, HasRule, Unscoped;
    NestedRules(t);
    ListRules(t);
    forall r | IsRule(t, r) && !IsScopeRule(r) ensures Unscoped(t, r) {
      OtherRuleUnscoped(t, r);
    }
    StartSymbol(t);
  }

  lemma StartSymbol(t: Tables)
    requires IsForGrammar(t)
    ensures t.ntBase == 92 && Start(t) == 181
  {
    assert RuleIs(t, 0);
  }

  lemma NestedRules(t: Tables)
    requires IsForGrammar(t)
    ensures HasRule(t, 159, 145, [])
    ensures HasRule(t, 160, 144, [147, 90, 145, 148, 91])
    ensures HasRule(t, 161, 146, [])
    ensures HasRule(t, 162, 144, [147, 163, 146, 90, 148, 91])
    ensures HasRule(t, 224, 171, [])
    ensures HasRule(t, 225, 170, [90, 171, 173, 91])
    ensures HasRule(t, 257, 187, [])
    ensures HasRule(t, 258, 186, [205, 187, 174])
    ensures HasRule(t, 259, 189, [])
    ensures HasRule(t, 260, 188, [186, 189, 194])
    ensures HasRule(t, 261, 190, [])
    ensures HasRule(t, 262, 188, [129, 186, 190, 194])
  {
    hide IsForGrammar, HasRule;
    RuleWith(t, 159, 145, []);
    RuleWith(t, 160, 144, [147, 90, 145, 148, 91]);
    RuleWith(t, 161, 146, []);
    RuleWith(t, 162, 144, [147, 163, 146, 90, 148, 91]);
    RuleWith(t, 224, 171, []);
    RuleWith(t, 225, 170, [90, 171, 173, 91]);
    RuleWith(t, 257, 187, []);
    RuleWith(t, 258, 186, [205, 187, 174]);
    RuleWith(t, 259, 189, []);
    RuleWith(t, 260, 188, [186, 189, 194]);
    RuleWith(t, 261, 190, []);
    RuleWith(t, 262, 188, [129, 186, 190, 194]);
  }

  lemma ListRules(t: Tables)
    requires IsForGrammar(t)
    ensures HasRule(t, 263, 191, [])
    ensures HasRule(t, 264, 188, [130, 186, 191, 194])
    ensures HasRule(t, 265, 192, [])
    ensures HasRule(t, 266, 188, [131, 186, 192, 194])
    ensures HasRule(t, 267, 193, [])
    ensures HasRule(t, 268, 188, [132, 186, 193, 194])
    ensures HasRule(t, 269, 194, [90, 173, 91])
    ensures HasRule(t, 296, 206, [])
    ensures HasRule(t, 297, 205, [204, 69, 206, 162, 68])
    ensures HasRule(t, 312, 211, [])
    ensures HasRule(t, 313, 210, [69, 211, 159, 68])
  {
    hide IsForGrammar, HasRule;
    RuleWith(t, 263, 191, []);
    RuleWith(t, 264, 188, [130, 186, 191, 194]);
    RuleWith(t, 265, 192, []);
    RuleWith(t, 266, 188, [131, 186, 192, 194]);
    RuleWith(t, 267, 193, []);
    RuleWith(t, 268, 188, [132, 186, 193, 194]);
    RuleWith(t, 269, 194, [90, 173, 91]);
    RuleWith(t, 296, 206, []);
    RuleWith(t, 297, 205, [204, 69, 206, 162, 68]);
    RuleWith(t, 312, 211, []);
    RuleWith(t, 313, 210, [69, 211, 159, 68]);
  }

  lemma OtherRuleUnscoped(t: Tables, r: int)
    requires IsForGrammar(t) && IsRule(t, r) && !IsScopeRule(r)
    ensures Unscoped(t, r)
  {
    hide R1At, LengthAt, SymbolAt, GramEffect;
    assert RuleIs(t, r);
    OtherRule(r);
    forall k | 0 <= k < |t.rhs[r]| ensures GramEffect(t.rhs[r][k]).Neutral? {
      OtherSymbol(r, k);
    }
  }

  lemma OtherRule(r: int)
    requires 1 <= r < RULES && !IsScopeRule(r)
    ensures GramEffect(R1At(r)).Neutral?
  {
  }

  lemma OtherSymbol(r: int, k: int)
    requires 1 <= r < RULES && !IsScopeRule(r) && 0 <= k
    ensures GramEffect(SymbolAt(r, k)) == Neutral
  {
    hide SymbolAt, GramEffect;
    if r < 100 {
      OtherSymbol1(r, k);
    } else if r < 200 {
      OtherSymbol100(r, k);
    } else {
      OtherSymbol200(r, k);
    }
  }

  lemma OtherSymbol1(r: int, k: int)
    requires 1 <= r < 100
    ensures GramEffect(SymbolAt(r, k)) == Neutral
  {
  }

  lemma OtherSymbol100(r: int, k: int)
    requires 100 <= r < 200 && !IsScopeRule(r)
    ensures GramEffect(SymbolAt(r, k)) == Neutral
  {
  }

  lemma OtherSymbol200(r: int, k: int)
    requires 200 <= r < RULES && !IsScopeRule(r)
    ensures GramEffect(SymbolAt(r, k)) == Neutral
  {
  }

  ghost predicate Unscoped(t: Tables, r: int)
    requires IsRule(t, r)
  {
    GramEffect(t.r1[r]).Neutral? && forall k | 0 <= k < |t.rhs[r]| :: GramEffect(t.rhs[r][k]).Neutral?
  }

  /** A function body is wanted only where one of the markers @14-@18 has just been read. */
  ghost predicate BodiesAfterMarkers(t: Tables, c: Cert) {
    forall s :: IsState(t, s) && Item(c, s, 269, 0) ==>
      Item(c, s, 260, 2) || Item(c, s, 262, 3) || Item(c, s, 264, 3) || Item(c, s, 266, 3) || Item(c, s, 268, 3)
  }

  lemma {:induction false} NeutralRow(symbols: seq<int>, s: Scopes)
    requires forall k | 0 <= k < |symbols| :: GramEffect(symbols[k]).Neutral?
    ensures Effects(SCOPING, symbols, s) == s
  {
    if symbols != [] {
      NeutralRow(symbols[1..], s);
    }
  }

  lemma NextEffect(symbols: seq<int>, k: nat, s: Scopes)
    requires k < |symbols|
    ensures Effects(SCOPING, symbols[k..], s) == Effects(SCOPING, symbols[k + 1..], Apply(GramEffect(symbols[k]), s))
    ensures symbols[|symbols|..] == []
  {
    assert symbols[k..][1..] == symbols[k + 1..];
  }

  /** A row with one scope symbol, at position `i`. */
  lemma OneEffect(symbols: seq<int>, i: nat, s: Scopes)
    requires i < |symbols| && forall k | 0 <= k < |symbols| && k != i :: GramEffect(symbols[k]).Neutral?
    ensures Effects(SCOPING, symbols, s) == Apply(GramEffect(symbols[i]), s)
  {
    assert symbols == symbols[..i] + symbols[i..];
    EffectsConcat(SCOPING, symbols[..i], symbols[i..], s);
    NeutralRow(symbols[..i], s);
    NextEffect(symbols, i, s);
    NeutralRow(symbols[i + 1..], Apply(GramEffect(symbols[i]), s));
  }

  lemma OpenThenClose(kind: int, s: Scopes)
    ensures Apply(Closes(kind), Apply(Opens(kind), s)) == s
  {
    if s.Open? {
      assert (s.kinds + [kind])[..|s.kinds|] == s.kinds;
    }
  }

  /** Each rule of the grammar opens and closes scopes in pairs. */
  lemma RuleIsBalanced(t: Tables, r: int, s: Scopes)
    requires GramRules(t) && IsRule(t, r)
    ensures Apply(GramAction(r), Effects(SCOPING, t.rhs[r], s)) == Apply(GramEffect(t.r1[r]), s)
  {
    hide Effects, Apply;
    var rhs := t.rhs[r];
    ApplyNeutral(s);
    if !IsScopeRule(r) {
      NeutralRow(rhs, s);
    } else if rhs == [] || r == 269 {
      NeutralRow(rhs, s);
    } else if 260 <= r <= 268 {
      var n := |rhs|;
      assert rhs == rhs[..n - 1] + [rhs[n - 1]];
      EffectsConcat(SCOPING, rhs[..n - 1], [rhs[n - 1]], s);
      OneEffect(rhs[..n - 1], n - 2, s);
      OneEffect([rhs[n - 1]], 0, Apply(Opens(NAMES), s));
      OpenThenClose(NAMES, s);
    } else {
      OneEffect(rhs, if r == 160 || r == 162 || r == 297 then 2 else 1, s);
      OpenThenClose(NAMES, s);
      OpenThenClose(MEMBERS, s);
    }
  }

  lemma ApplyNeutral(s: Scopes)
    ensures Apply(Neutral, s) == s
  {
  }

  lemma GramBalanced(t: Tables)
    requires GramRules(t) && |t.pgoto| >= 121 && |t.defgoto| >= 121
    ensures Balanced(t, SCOPING)
  {
    forall r | IsRule(t, r) ensures RuleBalanced(t, SCOPING, r) {
      forall s: Scopes ensures Apply(ActionOf(SCOPING, r), Effects(SCOPING, t.rhs[r], s)) == Apply(EffectOf(SCOPING, t.r1[r]), s) {
        RuleIsBalanced(t, r, s);
      }
    }
  }

  lemma BodiesCloseInPlace(t: Tables, c: Cert)
    requires GramRules(t) && BodiesAfterMarkers(t, c)
    ensures ClosesInPlace(t, c, SCOPING)
  {
    forall s, r | IsState(t, s) && IsRule(t, r) && Item(c, s, r, 0) && EffectOf(SCOPING, t.r1[r]).Closes?
      ensures JustOpened(t, c, SCOPING, s, EffectOf(SCOPING, t.r1[r]).kind)
    {
      assert r == 269;
      if Item(c, s, 260, 2) { assert EffectOf(SCOPING, t.rhs[260][1]) == Opens(NAMES); }
      else if Item(c, s, 262, 3) { assert EffectOf(SCOPING, t.rhs[262][2]) == Opens(NAMES); }
      else if Item(c, s, 264, 3) { assert EffectOf(SCOPING, t.rhs[264][2]) == Opens(NAMES); }
      else if Item(c, s, 266, 3) { assert EffectOf(SCOPING, t.rhs[266][2]) == Opens(NAMES); }
      else { assert EffectOf(SCOPING, t.rhs[268][2]) == Opens(NAMES); }
    }
  }

  /** What is taken as given of the parser's states: they pass the local check, a function body is
      wanted only behind a marker, and no state takes the `error` token. */
  ghost predicate GramTables(t: Tables, c: Cert) {
    && Valid(t, c) && IsForGrammar(t) && BodiesAfterMarkers(t, c)
    && forall s :: IsState(t, s) ==> ErrorLookup(t, s).Error?
  }

  lemma GramIsScoped(t: Tables, c: Cert)
    requires GramTables(t, c)
    ensures Balanced(t, SCOPING) && ClosesInPlace(t, c, SCOPING) && EffectOf(SCOPING, Start(t)) == Neutral
  {
    hide Valid, GramRules, Balanced, ClosesInPlace, BodiesAfterMarkers;
    GrammarHasRules(t);
    GramBalanced(t);
    BodiesCloseInPlace(t, c);
    StartSymbol(t);
  }

  // ---- How many scopes are open ------------------------------------------------------------------------

  /** The markers that stand for an open name scope: @9 of a compound statement and the like, and
      @14-@18, whose scope the function body after them has closed again. */
  predicate MarksNames(x: int) {
    x == 171 || x == 187 || 189 <= x <= 193 || x == 206 || x == 211
  }

  /** The markers on a stack less the function bodies. */
  function NameDepth(symbols: seq<int>): int {
    if symbols == [] then 0
    else
      var x := symbols[|symbols| - 1];
      NameDepth(symbols[..|symbols| - 1]) + (if MarksNames(x) then 1 else if x == 194 then -1 else 0)
  }

  /** The structures and unions whose members are being read. */
  function MemberDepth(symbols: seq<int>): int {
    if symbols == [] then 0
    else
      var x := symbols[|symbols| - 1];
      MemberDepth(symbols[..|symbols| - 1]) + if x == 145 || x == 146 then 1 else 0
  }

  lemma OneLess(kinds: seq<int>)
    requires kinds != []
    ensures Count(kinds, kinds[|kinds| - 1]) == Count(kinds[..|kinds| - 1], kinds[|kinds| - 1]) + 1
    ensures forall other | other != kinds[|kinds| - 1] :: Count(kinds, other) == Count(kinds[..|kinds| - 1], other)
  {
  }

  lemma DepthApplies(symbols: seq<int>, n: nat, s: Scopes)
    requires n < |symbols| && Apply(GramEffect(symbols[n]), s).Open? && s.Open?
    requires Count(s.kinds, NAMES) == NameDepth(symbols[..n]) && Count(s.kinds, MEMBERS) == MemberDepth(symbols[..n])
    ensures var kinds := Apply(GramEffect(symbols[n]), s).kinds;
      Count(kinds, NAMES) == NameDepth(symbols[..n + 1]) && Count(kinds, MEMBERS) == MemberDepth(symbols[..n + 1])
  {
    hide Count;
    assert symbols[..n + 1][..n] == symbols[..n] && symbols[..n + 1][n] == symbols[n];
    match GramEffect(symbols[n])
    case Neutral =>
    case Opens(kind) => OneMore(s.kinds, kind);
    case Closes(kind) => OneLess(s.kinds);
  }

  /** The scopes that a row of symbols leaves open are as many of each kind as its markers say. */
  lemma {:induction false} DepthCounts(symbols: seq<int>, n: nat)
    requires n <= |symbols| && Effects(SCOPING, symbols[..n], Open([])).Open?
    ensures var kinds := Effects(SCOPING, symbols[..n], Open([])).kinds;
      Count(kinds, NAMES) == NameDepth(symbols[..n]) && Count(kinds, MEMBERS) == MemberDepth(symbols[..n])
  {
    hide Effects, Count, GramEffect;
    if n == 0 {
      NoEffect(SCOPING, symbols, Open([]));
      NothingOpen();
    } else {
      LrScopes.NextEffect(SCOPING, symbols, n - 1, Open([]));
      DepthCounts(symbols, n - 1);
      DepthApplies(symbols, n - 1, Effects(SCOPING, symbols[..n - 1], Open([])));
    }
  }

  lemma NothingOpen()
    ensures Count([], NAMES) == 0 == Count([], MEMBERS)
  {
  }

  /** Until the parser gives up, the scopes that are open are counted by the symbols on its stack:
      the name scopes by the markers less the function bodies, the member scopes by theirs. */
  lemma {:induction false} DepthFollowsStack(t: Tables, c: Cert, input: seq<Token>, n: nat)
    requires GramTables(t, c) && InputOk(t, input) && !Run(t, input, n).status.Aborted?
    ensures Play(SCOPING, Run(t, input, n).trace, Open([])).Open?
    ensures var kinds, roots := Play(SCOPING, Run(t, input, n).trace, Open([])).kinds, Roots(t, Run(t, input, n).trees);
      Count(kinds, NAMES) == NameDepth(roots) && Count(kinds, MEMBERS) == MemberDepth(roots)
  {
    hide Run, Play, Effects, GramTables, Count, NameDepth, MemberDepth;
    ActionsSafe(t, c, input, n);
    var roots := Roots(t, Run(t, input, n).trees);
    assert roots[..|roots|] == roots;
    DepthCounts(roots, |roots|);
  }

  /** On a stack, a function body stands right above its own marker, @14-@18. */
  lemma BodyAboveMarker(t: Tables, c: Cert, states: seq<int>, trees: seq<Tree>, i: nat)
    requires GramTables(t, c) && StackOk(t, c, states, trees) && i < |trees| && Root(t, trees[i]) == 194
    ensures i > 0 && 189 <= Root(t, trees[i - 1]) <= 193
  {
    hide IsForGrammar, LrTables.Valid, Built, Move, Item, Unscoped;
    GrammarHasRules(t);
    BodyWanted(t, c, states, trees, i);
    var s := states[i];
    if Item(c, s, 260, 2) {
      SymbolBelow(t, c, states, trees, i, 260, 2);
    } else if Item(c, s, 262, 3) {
      SymbolBelow(t, c, states, trees, i, 262, 3);
    } else if Item(c, s, 264, 3) {
      SymbolBelow(t, c, states, trees, i, 264, 3);
    } else if Item(c, s, 266, 3) {
      SymbolBelow(t, c, states, trees, i, 266, 3);
    } else {
      SymbolBelow(t, c, states, trees, i, 268, 3);
    }
  }

  lemma BodyWanted(t: Tables, c: Cert, states: seq<int>, trees: seq<Tree>, i: nat)
    requires GramTables(t, c) && StackOk(t, c, states, trees) && i < |trees| && Root(t, trees[i]) == 194
    ensures IsState(t, states[i]) && Item(c, states[i], 269, 0)
  {
    hide IsForGrammar;
    GrammarHasRules(t);
    assert Built(t, c, states[i], trees[i]);
  }

  /** A construct whose marker is on the stack, and whose scope no function body closes, has a name
      scope of its own: as long as the marker is there, more scopes are open than below it. So has
      every compound statement from its opening brace to its closing one. */
  lemma {:induction false} ScopeOfItsOwn(t: Tables, c: Cert, states: seq<int>, trees: seq<Tree>, i: nat, n: nat)
    requires GramTables(t, c) && StackOk(t, c, states, trees) && i < n <= |trees|
    requires MarksNames(Root(t, trees[i])) && !(189 <= Root(t, trees[i]) <= 193)
    ensures NameDepth(Roots(t, trees)[..n]) > NameDepth(Roots(t, trees)[..i])
    ensures 189 <= Root(t, trees[n - 1]) <= 193 ==>
              NameDepth(Roots(t, trees)[..n]) > NameDepth(Roots(t, trees)[..i]) + 1
    decreases n
  {
    hide GramTables, StackOk, Roots, Root;
    var roots := Roots(t, trees);
    assert roots[..n][..n - 1] == roots[..n - 1] && roots[..n][n - 1] == roots[n - 1];
    if n > i + 1 {
      ScopeOfItsOwn(t, c, states, trees, i, n - 1);
      if roots[n - 1] == 194 {
        BodyAboveMarker(t, c, states, trees, n - 1);
      }
    }
  }

  /** In every parse: while the marker of a compound statement is on the stack, the name scopes that
      are open are more than those that the symbols below it stand for. */
  lemma CompoundHasScope(t: Tables, c: Cert, input: seq<Token>, n: nat, i: nat)
    requires GramTables(t, c) && InputOk(t, input) && !Run(t, input, n).status.Aborted?
    requires i < |Run(t, input, n).trees| && Root(t, Run(t, input, n).trees[i]) == 171
    ensures Play(SCOPING, Run(t, input, n).trace, Open([])).Open?
    ensures Count(Play(SCOPING, Run(t, input, n).trace, Open([])).kinds, NAMES) >
            NameDepth(Roots(t, Run(t, input, n).trees)[..i])
  {
    hide Run, Play, Effects, LrTables.Valid, Count, NameDepth, MemberDepth, Root;
    RunSound(t, c, input, n);
    DepthFollowsStack(t, c, input, n);
    var d := Run(t, input, n);
    ScopeOfItsOwn(t, c, d.states, d.trees, i, |d.trees|);
    assert Roots(t, d.trees)[..|d.trees|] == Roots(t, d.trees);
  }

  // ---- Symbol tables -----------------------------------------------------------------------------------

  /** One symbol table; what is in it is not part of this model. */
  class SymbolTable {
    constructor () {
    }
  }

  /** A stack of symbol tables in an array that doubles, src/analyzer/symboltable.h. */
  class Scope {
    var scope: int
    var symtables: array<SymbolTable?>
    var tableSize: int

    /** The tables of all open scopes are there, and no others. */
    ghost predicate Valid()
      reads this, symtables
    {
      && symtables.Length == tableSize && -1 <= scope < tableSize
      && forall i | 0 <= i < tableSize :: symtables[i] != null <==> i <= scope
    }

    constructor ()
      ensures Valid() && scope == 0 && fresh(symtables)
    {
      scope := -1;
      tableSize := 0;
      symtables := new SymbolTable?[0];
      new;
      EnterScope();
    }

    method EnterScope()
      requires Valid()
      modifies this, symtables
      ensures Valid() && scope == old(scope) + 1 && (symtables == old(symtables) || fresh(symtables))
      ensures tableSize == if scope < old(tableSize) then old(tableSize)
                           else if old(tableSize) == 0 then 1 else 2 * old(tableSize)
      ensures forall i | 0 <= i <= old(scope) :: symtables[i] == old(symtables[i])
    {
      scope := scope + 1;
      if scope >= tableSize {
        var newSize := if tableSize == 0 then 1 else 2 * tableSize;
        var newTables := new SymbolTable?[newSize];
        for i := 0 to newSize
          modifies newTables
          invariant forall j | 0 <= j < i :: newTables[j] == if j < tableSize then symtables[j] else null
        {
          newTables[i] := if i < tableSize then symtables[i] else null;
        }
        tableSize := newSize;
        symtables := newTables;
      }
      symtables[scope] := new SymbolTable();
    }

    /** The outermost scope cannot be left; that the innermost table is there needs no check. */
    method LeaveScope()
      requires Valid() && scope > 0
      modifies this, symtables
      ensures Valid() && scope == old(scope) - 1 && symtables == old(symtables)
      ensures forall i | 0 <= i <= scope :: symtables[i] == old(symtables[i])
    {
      assert symtables[scope] != null;
      symtables[scope] := null;
      scope := scope - 1;
    }
  }

  /** How many scopes of a kind are open. */
  function Count(kinds: seq<int>, kind: int): nat {
    if kinds == [] then 0
    else Count(kinds[..|kinds| - 1], kind) + if kinds[|kinds| - 1] == kind then 1 else 0
  }

  lemma OneMore(kinds: seq<int>, kind: int)
    ensures Count(kinds + [kind], kind) == Count(kinds, kind) + 1
    ensures forall other | other != kind :: Count(kinds + [kind], other) == Count(kinds, other)
  {
    assert (kinds + [kind])[..|kinds|] == kinds;
  }

  /** The symbol tables of the parser: names and user types go together, members by themselves. */
  class ScopeTables {
    const names: Scope
    const usernames: Scope
    const membernames: Scope
    ghost var open: seq<int>

    ghost predicate Apart()
      reads names, usernames, membernames
    {
      && names != usernames && names != membernames && usernames != membernames
      && names.symtables != usernames.symtables && names.symtables != membernames.symtables
      && usernames.symtables != membernames.symtables
    }

    /** Each kind of table has as many scopes as are open, above the global one. */
    ghost predicate Valid()
      reads this, names, usernames, membernames, names.symtables, usernames.symtables, membernames.symtables
    {
      && Apart() && names.Valid() && usernames.Valid() && membernames.Valid()
      && names.scope == usernames.scope == Count(open, NAMES) && membernames.scope == Count(open, MEMBERS)
      && forall i | 0 <= i < |open| :: open[i] == NAMES || open[i] == MEMBERS
    }

    constructor ()
      ensures Valid() && open == []
      ensures fresh(names) && fresh(usernames) && fresh(membernames)
      ensures fresh(names.symtables) && fresh(usernames.symtables) && fresh(membernames.symtables)
    {
      names := new Scope();
      usernames := new Scope();
      membernames := new Scope();
      open := [];
    }

    method Enter(kind: int)
      requires Valid() && (kind == NAMES || kind == MEMBERS)
      modifies this, names, usernames, membernames, names.symtables, usernames.symtables, membernames.symtables
      ensures Valid() && open == old(open) + [kind] && TablesKept()
    {
      hide Scope.Valid, Count;
      OneMore(open, kind);
      if kind == NAMES {
        EnterNames();
      } else {
        EnterMembers();
      }
      open := open + [kind];
    }

    method EnterMembers()
      requires Apart() && membernames.Valid()
      modifies membernames, membernames.symtables
      ensures Apart() && membernames.Valid() && membernames.scope == old(membernames.scope) + 1
      ensures membernames.symtables == old(membernames.symtables) || fresh(membernames.symtables)
    {
      membernames.EnterScope();
    }

    method EnterNames()
      requires Apart() && names.Valid() && usernames.Valid()
      modifies names, usernames, names.symtables, usernames.symtables
      ensures Apart() && names.Valid() && usernames.Valid()
      ensures names.scope == old(names.scope) + 1 && usernames.scope == old(usernames.scope) + 1
      ensures names.symtables == old(names.symtables) || fresh(names.symtables)
      ensures usernames.symtables == old(usernames.symtables) || fresh(usernames.symtables)
    {
      names.EnterScope();
      usernames.EnterScope();
    }

    /** The arrays of tables are the old ones or new. */
    twostate predicate TablesKept()
      reads names, usernames, membernames
    {
      && (names.symtables == old(names.symtables) || fresh(names.symtables))
      && (usernames.symtables == old(usernames.symtables) || fresh(usernames.symtables))
      && (membernames.symtables == old(membernames.symtables) || fresh(membernames.symtables))
    }

    /** Leaves the innermost scope; the assertion of leave_scope then holds. */
    method Leave(kind: int)
      requires Valid() && |open| > 0 && open[|open| - 1] == kind
      modifies this, names, usernames, membernames, names.symtables, usernames.symtables, membernames.symtables
      ensures Valid() && old(open) == open + [kind] && TablesKept()
    {
      assert kind == NAMES || kind == MEMBERS;
      if kind == NAMES {
        names.LeaveScope();
        usernames.LeaveScope();
      } else {
        membernames.LeaveScope();
      }
      open := open[..|open| - 1];
    }

    /** The scope part of the action of a rule. */
    method Act(rule: int)
      requires Valid() && Apply(GramAction(rule), Open(open)).Open?
      modifies this, names, usernames, membernames, names.symtables, usernames.symtables, membernames.symtables
      ensures Valid() && Open(open) == Apply(GramAction(rule), Open(old(open))) && TablesKept()
    {
      match GramAction(rule)
      case Neutral =>
      case Opens(kind) => Enter(kind);
      case Closes(kind) => Leave(kind);
    }

    /** The actions of all rules reduced by in the first `n` steps of a parse: none of them leaves a
        scope that it may not leave, and until the parser gives up, the scopes that are open are those
        of the markers on the parse stack, and as many of each kind. An accepted file ends in the
        global scope. */
    method Replay(t: Tables, ghost c: Cert, input: seq<Token>, n: nat)
      requires Valid() && open == [] && GramTables(t, c) && InputOk(t, input)
      modifies this, names, usernames, membernames, names.symtables, usernames.symtables, membernames.symtables
      ensures Valid()
      ensures !Run(t, input, n).status.Aborted? ==>
                Open(open) == Effects(SCOPING, Roots(t, Run(t, input, n).trees), Open([]))
      ensures !Run(t, input, n).status.Aborted? ==>
                && names.scope == usernames.scope == NameDepth(Roots(t, Run(t, input, n).trees))
                && membernames.scope == MemberDepth(Roots(t, Run(t, input, n).trees))
      ensures Run(t, input, n).status.Accepted? ==>
                open == [] && names.scope == usernames.scope == membernames.scope == 0
    {
      hide Run, LrTables.Valid, GramRules, BodiesAfterMarkers, Apply, Effects, Balanced, ClosesInPlace, IsForGrammar;
      hide NameDepth, MemberDepth;
      var rules := Run(t, input, n).trace;
      GramIsScoped(t, c);
      ActionsSafe(t, c, input, n);
      var i := 0;
      while i < |rules|
        invariant 0 <= i <= |rules| && Valid()
        invariant Play(SCOPING, rules[i..], Open(open)) == Play(SCOPING, rules, Open([]))
        invariant Play(SCOPING, rules, Open([])).Open? && TablesKept()
      {
        assert rules[i..][1..] == rules[i + 1..];
        if Apply(GramAction(rules[i]), Open(open)).Broken? {
          StaysBroken(rules[i + 1..]);
        }
        Act(rules[i]);
        i := i + 1;
      }
      if !Run(t, input, n).status.Aborted? {
        DepthFollowsStack(t, c, input, n);
      }
      if Run(t, input, n).status.Accepted? {
        AcceptedInGlobalScope(t, c, input, n);
      }
    }
  }

  /** A step that gives up performs no action. */
  lemma AbortKeepsTrace(t: Tables, c: Config)
    requires c.status.Running? && Step(t, c).status.Aborted?
    ensures Step(t, c).trace == c.trace
  {
    hide Recover, ReduceBy, ShiftToken, Lookup, Default, IsState;
    if |c.states| == |c.trees| + 1 && IsState(t, c.states[|c.states| - 1]) {
      var (c1, a) := Choose(t, c);
      match a
      case Shift(n) => PushGoesOn(c1, n);
      case Reduce(r) => ReduceGoesOn(t, c1, r);
      case Accept =>
      case Error => RecoverKeepsTrace(t, c1);
    }
  }

  lemma PushGoesOn(c: Config, n: int)
    ensures !ShiftToken(c, n).status.Aborted?
  {
  }

  lemma ReduceGoesOn(t: Tables, c: Config, r: int)
    ensures !ReduceBy(t, c, r).status.Aborted?
  {
    hide Goto, IsRule;
  }

  lemma RecoverKeepsTrace(t: Tables, c: Config)
    requires |c.states| == |c.trees| + 1
    ensures Recover(t, c).status.Aborted? ==> Recover(t, c).trace == c.trace
  {
    hide ErrorLookup, ReduceBy, Yields, Handler;
    var h := Handler(t, c.states, |c.states| - 1);
    if h >= 0 {
      var a := ErrorLookup(t, c.states[h]);
      if a.Reduce? {
        forall c3: Config ensures !ReduceBy(t, c3, a.rule).status.Aborted? {
          ReduceGoesOn(t, c3, a.rule);
        }
      }
    }
  }

  /** What an aborted parse has done, it had done before it gave up. */
  lemma {:induction false} BeforeAbort(t: Tables, input: seq<Token>, n: nat) returns (m: nat)
    ensures m <= n && !Run(t, input, m).status.Aborted? && Run(t, input, m).trace == Run(t, input, n).trace
  {
    hide Step;
    m := n;
    if Run(t, input, n).status.Aborted? {
      var b := Run(t, input, n - 1);
      if b.status.Running? {
        AbortKeepsTrace(t, b);
      } else {
        StepStays(t, b);
      }
      m := BeforeAbort(t, input, n - 1);
    }
  }

  /** No action of any parse leaves a scope that is not open and innermost. */
  lemma {:induction false} ActionsSafe(t: Tables, c: Cert, input: seq<Token>, n: nat)
    requires GramTables(t, c) && InputOk(t, input)
    ensures Play(SCOPING, Run(t, input, n).trace, Open([])).Open?
    ensures !Run(t, input, n).status.Aborted? ==>
      Play(SCOPING, Run(t, input, n).trace, Open([])) == Effects(SCOPING, Roots(t, Run(t, input, n).trees), Open([]))
  {
    hide Run, LrTables.Valid, BodiesAfterMarkers, Effects, Balanced, ClosesInPlace, IsForGrammar, Play;
    GramIsScoped(t, c);
    var m := BeforeAbort(t, input, n);
    NoRecovery(t, c, input, m);
    ScopesFollowStack(t, c, SCOPING, input, m);
    if !Run(t, input, n).status.Aborted? {
      NoRecovery(t, c, input, n);
      ScopesFollowStack(t, c, SCOPING, input, n);
    }
  }

  /** Every accepted C file leaves the parser in the global scope. */
  lemma {:induction false} AcceptedInGlobalScope(t: Tables, c: Cert, input: seq<Token>, n: nat)
    requires GramTables(t, c) && InputOk(t, input) && Run(t, input, n).status.Accepted?
    ensures Play(SCOPING, Run(t, input, n).trace, Open([])) == Open([])
  {
    hide Run, LrTables.Valid, BodiesAfterMarkers, Balanced, ClosesInPlace, IsForGrammar, Play;
    GramIsScoped(t, c);
    NoRecovery(t, c, input, n);
    AcceptedScopesClosed(t, c, SCOPING, input, n);
  }

  lemma {:induction false} StaysBroken(rules: seq<int>)
    ensures Play(SCOPING, rules, Broken) == Broken
  {
    if rules != [] {
      StaysBroken(rules[1..]);
    }
  }
}
