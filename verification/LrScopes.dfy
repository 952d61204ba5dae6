/** Scopes that mid-rule actions open and later actions close: over every run without a syntax
    error they nest properly, and the symbols on the parse stack say which ones are open. */
module LrScopes {
  import opened LrTables
  import opened LrTrees
  import opened LrEngine
  import opened LrSoundness

  /** What a rule's action does to the scopes, or what a finished symbol has done to them. */
  datatype Effect = Neutral | Opens(kind: int) | Closes(kind: int)

  /** The open scopes, innermost last. `Broken` is a close with no such scope innermost. */
  datatype Scopes = Open(kinds: seq<int>) | Broken

  datatype Scoping = Scoping(actions: int -> Effect, symbols: int -> Effect)

  function ActionOf(sc: Scoping, rule: int): Effect {
    sc.actions(rule)
  }

  function EffectOf(sc: Scoping, symbol: int): Effect {
    sc.symbols(symbol)
  }

  function Apply(e: Effect, s: Scopes): Scopes {
    match e
    case Neutral => s
    case Opens(k) => if s.Open? then Open(s.kinds + [k]) else Broken
    case Closes(k) =>
      if s.Open? && |s.kinds| > 0 && s.kinds[|s.kinds| - 1] == k then Open(s.kinds[..|s.kinds| - 1]) else Broken
  }

  /** Performs the actions of the rules in order. */
  function Play(sc: Scoping, rules: seq<int>, s: Scopes): Scopes {
    if rules == [] then s else Play(sc, rules[1..], Apply(ActionOf(sc, rules[0]), s))
  }

  /** The effects of a row of symbols. */
  function Effects(sc: Scoping, symbols: seq<int>, s: Scopes): Scopes {
    if symbols == [] then s else Effects(sc, symbols[1..], Apply(EffectOf(sc, symbols[0]), s))
  }

  /** What a rule's right-hand side and its own action do is what its left-hand side stands for. */
  ghost predicate RuleBalanced(t: Tables, sc: Scoping, r: int)
    requires IsRule(t, r)
  {
    forall s: Scopes :: Apply(ActionOf(sc, r), Effects(sc, t.rhs[r], s)) == Apply(EffectOf(sc, t.r1[r]), s)
  }

  ghost predicate Balanced(t: Tables, sc: Scoping) {
    && (forall r :: IsRule(t, r) ==> RuleBalanced(t, sc, r))
    && (forall x :: !IsNonterminal(t, x) ==> EffectOf(sc, x) == Neutral)
  }

  /** A state where a closing symbol is wanted has just read the opening one. */
  ghost predicate ClosesInPlace(t: Tables, c: Cert, sc: Scoping) {
    forall s, r :: IsState(t, s) && IsRule(t, r) && Item(c, s, r, 0) && EffectOf(sc, t.r1[r]).Closes? ==>
      JustOpened(t, c, sc, s, EffectOf(sc, t.r1[r]).kind)
  }

  ghost predicate JustOpened(t: Tables, c: Cert, sc: Scoping, s: int, kind: int) {
    exists r, k :: Item(c, s, r, k) && 1 <= k && 0 <= r < |t.rhs| && k <= |t.rhs[r]|
                   && EffectOf(sc, t.rhs[r][k - 1]) == Opens(kind)
  }

  lemma {:induction false} PlayConcat(sc: Scoping, a: seq<int>, b: seq<int>, s: Scopes)
    ensures Play(sc, a + b, s) == Play(sc, b, Play(sc, a, s))
  {
    if a == [] {
      assert a + b == b;
    } else {
      PlayConcat(sc, a[1..], b, Apply(ActionOf(sc, a[0]), s));
      assert (a + b)[1..] == a[1..] + b;
    }
  }

  lemma {:induction false} EffectsConcat(sc: Scoping, a: seq<int>, b: seq<int>, s: Scopes)
    ensures Effects(sc, a + b, s) == Effects(sc, b, Effects(sc, a, s))
  {
    if a == [] {
      assert a + b == b;
    } else {
      EffectsConcat(sc, a[1..], b, Apply(EffectOf(sc, a[0]), s));
      assert (a + b)[1..] == a[1..] + b;
    }
  }

  /** All the actions below a tree together do what its root stands for. */
  lemma {:induction false} TreePlays(t: Tables, sc: Scoping, tree: Tree, s: Scopes)
    requires Balanced(t, sc) && Derivation(t, tree) && Proper(t, tree) && 1 < t.ntBase
    ensures Play(sc, Postorder(tree), s) == Apply(EffectOf(sc, Root(t, tree)), s)
    decreases tree
  {
    match tree
    case Node(r, kids) =>
      TreesPlay(t, sc, kids, s);
      PlayConcat(sc, Postorders(kids), [r], s);
      assert [r][1..] == [] && RuleBalanced(t, sc, r);
    case Leaf(token) =>
      assert !IsNonterminal(t, token.kind);
    case End =>
      assert !IsNonterminal(t, YYEOF);
    case Skipped(_) =>
  }

  lemma {:induction false} TreesPlay(t: Tables, sc: Scoping, trees: seq<Tree>, s: Scopes)
    requires Balanced(t, sc) && Derivations(t, trees) && AllProper(t, trees) && 1 < t.ntBase
    ensures Play(sc, Postorders(trees), s) == Effects(sc, Roots(t, trees), s)
    decreases trees
  {
    if trees != [] {
      TreePlays(t, sc, trees[0], s);
      TreesPlay(t, sc, trees[1..], Apply(EffectOf(sc, Root(t, trees[0])), s));
      PlayConcat(sc, Postorder(trees[0]), Postorders(trees[1..]), s);
      assert Roots(t, trees)[1..] == Roots(t, trees[1..]);
    }
  }

  lemma OpenedInState(t: Tables, c: Cert, sc: Scoping, s: int, tree: Tree)
    requires Valid(t, c) && ClosesInPlace(t, c, sc) && Balanced(t, sc) && Built(t, c, s, tree)
    requires EffectOf(sc, Root(t, tree)).Closes?
    ensures JustOpened(t, c, sc, s, EffectOf(sc, Root(t, tree)).kind)
  {
    assert BottomOk(t, c);
    assert IsNonterminal(t, Root(t, tree));
    assert tree.Node?;
  }

  /** On a stack, a closing symbol stands right above the opening one. */
  lemma ClosedBelow(t: Tables, c: Cert, sc: Scoping, states: seq<int>, trees: seq<Tree>, i: nat)
    requires Valid(t, c) && ClosesInPlace(t, c, sc) && Balanced(t, sc) && StackOk(t, c, states, trees)
    requires i < |trees| && EffectOf(sc, Root(t, trees[i])).Closes?
    ensures i > 0 && EffectOf(sc, Root(t, trees[i - 1])) == Opens(EffectOf(sc, Root(t, trees[i])).kind)
  {
    var kind := EffectOf(sc, Root(t, trees[i])).kind;
    OpenedInState(t, c, sc, states[i], trees[i]);
    hide LrTables.Valid, ClosesInPlace, Balanced, Built;
    var r, k :| Item(c, states[i], r, k) && 1 <= k && 0 <= r < |t.rhs| && k <= |t.rhs[r]|
                && EffectOf(sc, t.rhs[r][k - 1]) == Opens(kind);
    SymbolBelow(t, c, states, trees, i, r, k);
  }

  /** The last symbol of a dotted prefix is the one just below its state. */
  lemma SymbolBelow(t: Tables, c: Cert, states: seq<int>, trees: seq<Tree>, i: nat, r: int, k: nat)
    requires Valid(t, c) && StackOk(t, c, states, trees) && i <= |trees|
    requires Item(c, states[i], r, k) && 1 <= k && 0 <= r < |t.rhs| && k <= |t.rhs[r]|
    ensures i > 0 && Root(t, trees[i - 1]) == t.rhs[r][k - 1]
  {
    hide LrTables.Valid, Built, Move, Item;
    PopOk(t, c, states, trees, i);
    TopSpells(t, c, states[..i + 1], trees[..i], r, k);
    assert Roots(t, trees[..i][i - k..])[k - 1] == t.rhs[r][..k][k - 1];
  }

  /** The symbols on a stack never close a scope that is not open. */
  lemma NoEffect(sc: Scoping, symbols: seq<int>, s: Scopes)
    ensures Effects(sc, symbols[..0], s) == s
  {
  }

  lemma NextEffect(sc: Scoping, symbols: seq<int>, n: nat, s: Scopes)
    requires n < |symbols|
    ensures Effects(sc, symbols[..n + 1], s) == Apply(EffectOf(sc, symbols[n]), Effects(sc, symbols[..n], s))
  {
    assert symbols[..n + 1] == symbols[..n] + [symbols[n]] && [symbols[n]][1..] == [];
    EffectsConcat(sc, symbols[..n], [symbols[n]], s);
  }

  lemma {:induction false} StackOpens(t: Tables, c: Cert, sc: Scoping, states: seq<int>, trees: seq<Tree>, n: nat)
    requires Valid(t, c) && ClosesInPlace(t, c, sc) && Balanced(t, sc) && StackOk(t, c, states, trees) && n <= |trees|
    ensures Effects(sc, Roots(t, trees)[..n], Open([])).Open?
    ensures n > 0 && EffectOf(sc, Root(t, trees[n - 1])).Opens? ==>
              var kinds := Effects(sc, Roots(t, trees)[..n], Open([])).kinds;
              |kinds| > 0 && kinds[|kinds| - 1] == EffectOf(sc, Root(t, trees[n - 1])).kind
  {
    hide LrTables.Valid, ClosesInPlace, Balanced, StackOk, Effects, Roots, Root;
    var roots := Roots(t, trees);
    if n == 0 {
      NoEffect(sc, roots, Open([]));
    } else {
      StackOpens(t, c, sc, states, trees, n - 1);
      NextEffect(sc, roots, n - 1, Open([]));
      if EffectOf(sc, roots[n - 1]).Closes? {
        ClosedBelow(t, c, sc, states, trees, n - 1);
      }
    }
  }

  lemma {:induction false} StackDerives(t: Tables, c: Cert, states: seq<int>, trees: seq<Tree>)
    requires StackOk(t, c, states, trees) && AllClean(trees)
    ensures Derivations(t, trees) && AllProper(t, trees)
  {
    SegmentBuilt(t, c, states, trees, 0);
    assert trees[0..] == trees;
    BuiltAllIsDerivation(t, c, states[0], trees);
    AllBuiltIsProper(t, c, states[0], trees);
  }

  /** At every moment before a syntax error, the actions performed so far have closed only scopes
      that were open and innermost, and the scopes still open are, in order, those that the
      symbols on the parse stack stand for. */
  lemma {:induction false} ScopesFollowStack(t: Tables, cert: Cert, sc: Scoping, input: seq<Token>, n: nat)
    requires Valid(t, cert) && InputOk(t, input) && Balanced(t, sc) && ClosesInPlace(t, cert, sc)
    requires Run(t, input, n).errors == 0
    ensures var c := Run(t, input, n);
            && Play(sc, c.trace, Open([])) == Effects(sc, Roots(t, c.trees), Open([]))
            && Play(sc, c.trace, Open([])).Open?
  {
    hide Run, Play, Effects;
    RunSound(t, cert, input, n);
    var c := Run(t, input, n);
    StackDerives(t, cert, c.states, c.trees);
    BottomTokens(t, cert);
    TreesPlay(t, sc, c.trees, Open([]));
    StackOpens(t, cert, sc, c.states, c.trees, |c.trees|);
    assert Roots(t, c.trees)[..|c.trees|] == Roots(t, c.trees);
  }

  lemma BottomTokens(t: Tables, c: Cert)
    requires Valid(t, c)
    ensures 1 < t.ntBase
  {
    assert BottomOk(t, c);
  }

  /** An accepted input leaves no scope open, if the start symbol stands for none. */
  lemma {:induction false} AcceptedScopesClosed(t: Tables, cert: Cert, sc: Scoping, input: seq<Token>, n: nat)
    requires Valid(t, cert) && InputOk(t, input) && Balanced(t, sc) && ClosesInPlace(t, cert, sc)
    requires Run(t, input, n).status.Accepted? && Run(t, input, n).errors == 0
    requires EffectOf(sc, Start(t)) == Neutral
    ensures Play(sc, Run(t, input, n).trace, Open([])) == Open([])
  {
    hide Run, Play;
    RunSound(t, cert, input, n);
    AcceptSound(t, cert, input, n);
    var c := Run(t, input, n);
    var tree := c.trees[0];
    BuiltIsProper(t, cert, 0, tree);
    BottomTokens(t, cert);
    TreePlays(t, sc, tree, Open([]));
  }
}
