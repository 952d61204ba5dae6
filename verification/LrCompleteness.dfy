/** Completeness of the LR engine: a sentence of the grammar is accepted without an error, and the
    tree built is the derivation of the sentence. It holds of all tables that pass the local check
    `Complete`, beside `LrTables.Valid`. */
module LrCompleteness {
  import opened LrTables
  import opened LrTrees
  import opened LrEngine
  import opened LrSoundness
  import opened LrTermination

  /** What the grammar says of lookahead: the symbols that may stand for nothing, the tokens that may
      come first in a nonterminal, and those that may follow it. `barred(r, k, q)` says that rule `q`
      may not stand after the first `k` symbols of rule `r`: that is how an ambiguity is resolved. */
  datatype Lookahead = Lookahead(
    nullable: int -> bool, first: (int, int) -> bool, follow: (int, int) -> bool, barred: (int, int, int) -> bool)

  predicate Nullable(f: Lookahead, x: int) {
    f.nullable(x)
  }

  predicate First(t: Tables, f: Lookahead, x: int, b: int) {
    if x < t.ntBase then b == x else f.first(x, b)
  }

  predicate Follow(t: Tables, f: Lookahead, x: int, b: int) {
    x < t.ntBase || f.follow(x, b)
  }

  predicate Barred(f: Lookahead, r: int, k: int, q: int) {
    f.barred(r, k, q)
  }

  // ---- The local check ----------------------------------------------------------------------------

  /** The symbols from `i` to `j` of a rule may all stand for nothing. */
  ghost predicate Vanish(t: Tables, f: Lookahead, r: int, i: int, j: int)
    requires 0 <= r < |t.rhs| && 0 <= i && j <= |t.rhs[r]|
  {
    forall m | i <= m < j :: Nullable(f, t.rhs[r][m])
  }

  ghost predicate SymbolsOk(t: Tables) {
    forall r, k :: IsRule(t, r) && 0 <= k < |t.rhs[r]| ==> 0 < t.rhs[r][k] < t.ntBase + |t.pgoto|
  }

  /** Token `b` can be what the symbols of a rule from `i` on begin with, and it comes from the one at `j`. */
  ghost predicate Begins(t: Tables, f: Lookahead, r: int, i: int, j: int, b: int)
    requires 0 <= r < |t.rhs| && 0 <= i && 0 <= j < |t.rhs[r]|
  {
    Vanish(t, f, r, i, j) && First(t, f, t.rhs[r][j], b)
  }

  /** Token `b` can follow the symbols of a rule from `i` on when they all stand for nothing. */
  ghost predicate Passes(t: Tables, f: Lookahead, r: int, i: int, b: int)
    requires IsRule(t, r) && 0 <= i
  {
    Vanish(t, f, r, i, |t.rhs[r]|) && Follow(t, f, t.r1[r], b)
  }

  ghost predicate FirstsOk(t: Tables, f: Lookahead) {
    && (forall r :: IsRule(t, r) && Vanish(t, f, r, 0, |t.rhs[r]|) ==> Nullable(f, t.r1[r]))
    && (forall r, j, b ::
          IsRule(t, r) && 0 <= j < |t.rhs[r]| && Begins(t, f, r, 0, j, b) ==> First(t, f, t.r1[r], b))
  }

  ghost predicate FollowsOk(t: Tables, f: Lookahead) {
    && (forall r, i, j, b ::
          IsRule(t, r) && 0 < i <= j < |t.rhs[r]| && Begins(t, f, r, i, j, b) ==> Follow(t, f, t.rhs[r][i - 1], b))
    && (forall r, i, b ::
          IsRule(t, r) && 0 < i <= |t.rhs[r]| && Passes(t, f, r, i, b) ==> Follow(t, f, t.rhs[r][i - 1], b))
    && Follow(t, f, Start(t), YYEOF)
  }

  /** The dot of a rule can be moved past its next symbol. */
  ghost predicate AdvanceOk(t: Tables, c: Cert, s: int, r: int, k: int)
    requires IsState(t, s) && 0 <= r < |t.rhs| && 0 <= k < |t.rhs[r]|
  {
    var x := t.rhs[r][k];
    if x < t.ntBase then
      Lookup(t, s, x).Shift? && IsState(t, Lookup(t, s, x).state) && Item(c, Lookup(t, s, x).state, r, k + 1)
    else
      IsNonterminal(t, x) && IsState(t, Goto(t, s, x)) && Item(c, Goto(t, s, x), r, k + 1)
  }

  ghost predicate AdvancesOk(t: Tables, c: Cert) {
    forall s, r, k :: IsState(t, s) && Item(c, s, r, k) && 0 <= r < |t.rhs| && 0 <= k < |t.rhs[r]| ==>
      AdvanceOk(t, c, s, r, k)
  }

  /** Rule `q` may stand in rule `r` after its first `k` symbols. */
  ghost predicate Fits(t: Tables, f: Lookahead, r: int, k: int, q: int) {
    && 0 <= r < |t.rhs| && 0 <= k < |t.rhs[r]| && IsRule(t, q)
    && t.r1[q] == t.rhs[r][k] && !Barred(f, r, k, q)
  }

  /** A nonterminal after the dot brings in its rules. */
  ghost predicate PredictsOk(t: Tables, c: Cert, f: Lookahead) {
    forall s, r, k, q :: IsState(t, s) && Item(c, s, r, k) && Fits(t, f, r, k, q) ==> Item(c, s, q, 0)
  }

  /** A rule that is read whole is reduced by at every token that may follow its left side. */
  ghost predicate ReducesOk(t: Tables, c: Cert, f: Lookahead) {
    forall s, r, a :: IsState(t, s) && IsRule(t, r) && Item(c, s, r, |t.rhs[r]|) && Follow(t, f, t.r1[r], a) ==>
      Lookup(t, s, a) == Reduce(r)
  }

  /** Where a rule is barred it is not wanted. */
  ghost predicate BarsOk(t: Tables, c: Cert, f: Lookahead) {
    forall s, r, k, q :: IsState(t, s) && Item(c, s, r, k) && IsRule(t, q) && Barred(f, r, k, q) ==> !Item(c, s, q, 0)
  }

  ghost predicate Complete(t: Tables, c: Cert, f: Lookahead) {
    && SymbolsOk(t) && FirstsOk(t, f) && FollowsOk(t, f)
    && AdvancesOk(t, c) && PredictsOk(t, c, f) && ReducesOk(t, c, f) && BarsOk(t, c, f)
    && Item(c, 0, 0, 0) && (forall q :: !Barred(f, 0, 0, q))
  }

  // ---- Sentences ----------------------------------------------------------------------------------

  /** No rule stands in the tree where it is barred. */
  ghost predicate Permitted(f: Lookahead, tree: Tree)
    decreases tree
  {
    tree.Node? ==> AllPermitted(f, tree.rule, 0, tree.kids)
  }

  /** `kids` stand from position `k` of rule `r` on. */
  ghost predicate AllPermitted(f: Lookahead, r: int, k: nat, kids: seq<Tree>)
    decreases kids
  {
    kids == [] ||
    (&& (kids[0].Node? ==> !Barred(f, r, k, kids[0].rule))
     && Permitted(f, kids[0]) && AllPermitted(f, r, k + 1, kids[1..]))
  }

  /** A parse tree of a sentence: nothing is skipped and all leaves are tokens. */
  ghost predicate Sentence(t: Tables, f: Lookahead, tree: Tree) {
    Derivation(t, tree) && Proper(t, tree) && Permitted(f, tree) && Root(t, tree) == Start(t)
  }

  /** How far the stacks grow while a tree is parsed. */
  function Height(tree: Tree): (h: nat)
    ensures h > 0
    decreases tree
  {
    match tree
    case Node(_, kids) => if Heights(kids) > 1 then Heights(kids) else 1
    case _ => 1
  }

  function Heights(trees: seq<Tree>): nat
    decreases trees
  {
    if trees == [] then 0
    else if Height(trees[0]) > 1 + Heights(trees[1..]) then Height(trees[0]) else 1 + Heights(trees[1..])
  }

  // ---- The token ahead -----------------------------------------------------------------------------

  function NextKind(ahead: seq<Token>): int {
    if ahead == [] then YYEOF else ahead[0].kind
  }

  ghost predicate IsSymbol(t: Tables, x: int) {
    0 < x < t.ntBase + |t.pgoto|
  }

  /** The trees `kids` stand for the symbols of rule `r` from position `k` on. */
  ghost predicate Spell(t: Tables, kids: seq<Tree>, r: int, k: nat) {
    && IsRule(t, r) && k <= |t.rhs[r]|
    && Roots(t, kids) == t.rhs[r][k..] && Derivations(t, kids) && AllProper(t, kids)
  }

  lemma SpellFirst(t: Tables, kids: seq<Tree>, r: int, k: nat)
    requires SymbolsOk(t) && Spell(t, kids, r, k) && kids != []
    ensures IsRule(t, r) && k < |t.rhs[r]| && Root(t, kids[0]) == t.rhs[r][k] && IsSymbol(t, Root(t, kids[0]))
    ensures Derivation(t, kids[0]) && Proper(t, kids[0]) && Spell(t, kids[1..], r, k + 1)
  {
    assert Roots(t, kids)[0] == t.rhs[r][k..][0];
    assert Roots(t, kids)[1..] == Roots(t, kids[1..]);
    assert t.rhs[r][k..][1..] == t.rhs[r][k + 1..];
  }

  lemma SpellLast(t: Tables, r: int, k: nat)
    requires Spell(t, [], r, k)
    ensures IsRule(t, r) && k == |t.rhs[r]|
  {
  }

  lemma SpellNode(t: Tables, tree: Tree)
    requires tree.Node? && Derivation(t, tree) && Proper(t, tree)
    ensures Spell(t, tree.kids, tree.rule, 0)
  {
    assert t.rhs[tree.rule][0..] == t.rhs[tree.rule];
  }

  /** A tree starts with a token that may come first, or stands for nothing. */
  lemma {:induction false} StartsWith(t: Tables, f: Lookahead, tree: Tree)
    requires SymbolsOk(t) && FirstsOk(t, f)
    requires Derivation(t, tree) && Proper(t, tree) && IsSymbol(t, Root(t, tree))
    ensures if Yield(tree) == [] then Nullable(f, Root(t, tree)) else First(t, f, Root(t, tree), Yield(tree)[0].kind)
    decreases tree
  {
    hide SymbolsOk, FirstsOk, Vanish;
    if tree.Node? {
      SpellNode(t, tree);
      VanishNone(t, f, tree.rule, 0);
      AllStartWith(t, f, tree.kids, tree.rule, 0);
    }
  }

  lemma VanishNone(t: Tables, f: Lookahead, r: int, i: nat)
    requires IsRule(t, r) && i <= |t.rhs[r]|
    ensures Vanish(t, f, r, i, i)
  {
  }

  lemma VanishMore(t: Tables, f: Lookahead, r: int, i: nat, j: nat)
    requires IsRule(t, r) && i <= j < |t.rhs[r]| && Vanish(t, f, r, i, j) && Nullable(f, t.rhs[r][j])
    ensures Vanish(t, f, r, i, j + 1)
  {
  }

  lemma {:induction false} AllStartWith(t: Tables, f: Lookahead, kids: seq<Tree>, r: int, k: nat)
    requires SymbolsOk(t) && FirstsOk(t, f) && Spell(t, kids, r, k) && Vanish(t, f, r, 0, k)
    ensures if Yields(kids) == [] then Nullable(f, t.r1[r]) else First(t, f, t.r1[r], Yields(kids)[0].kind)
    decreases kids
  {
    hide SymbolsOk, Spell, Vanish, Derivation, Proper, Root;
    if kids == [] {
      SpellLast(t, r, k);
    } else {
      SpellFirst(t, kids, r, k);
      StartsWith(t, f, kids[0]);
      if Yield(kids[0]) == [] {
        VanishMore(t, f, r, 0, k);
        AllStartWith(t, f, kids[1..], r, k + 1);
        assert Yields(kids) == Yields(kids[1..]);
      } else {
        assert Yields(kids)[0] == Yield(kids[0])[0];
        assert Begins(t, f, r, 0, k, Yield(kids[0])[0].kind);
      }
    }
  }

  /** What is ahead after the symbol at position `i` of a rule may follow that symbol. */
  lemma {:induction false} Following(
      t: Tables, f: Lookahead, kids: seq<Tree>, r: int, i: nat, k: nat, after: seq<Token>)
    requires SymbolsOk(t) && FirstsOk(t, f) && FollowsOk(t, f) && Spell(t, kids, r, k)
    requires i < k && Vanish(t, f, r, i + 1, k) && Follow(t, f, t.r1[r], NextKind(after))
    ensures Follow(t, f, t.rhs[r][i], NextKind(Yields(kids) + after))
    decreases kids
  {
    hide SymbolsOk, FirstsOk, Spell, Vanish, Derivation, Proper, Root;
    if kids == [] {
      SpellLast(t, r, k);
      assert Yields(kids) + after == after && Passes(t, f, r, i + 1, NextKind(after));
    } else {
      SpellFirst(t, kids, r, k);
      StartsWith(t, f, kids[0]);
      if Yield(kids[0]) == [] {
        VanishMore(t, f, r, i + 1, k);
        Following(t, f, kids[1..], r, i, k + 1, after);
        assert Yields(kids) == Yields(kids[1..]);
      } else {
        assert (Yields(kids) + after)[0] == Yield(kids[0])[0];
        assert Begins(t, f, r, i + 1, k, Yield(kids[0])[0].kind);
      }
    }
  }

  // ---- Steps ----------------------------------------------------------------------------------------

  /** The parser stands with these stacks before these tokens, and has met no error. */
  ghost predicate Ready(t: Tables, c: Config, states: seq<int>, trees: seq<Tree>, ahead: seq<Token>) {
    && c.status.Running? && c.states == states && c.trees == trees && Ahead(c) == ahead
    && |states| == |trees| + 1 && IsState(t, states[|trees|])
    && (c.look.Eof? ==> c.rest == [])
    && c.errStatus == 0 && c.nerrs == 0 && c.errors == 0
  }

  /** The action depends on the top state and the token ahead, whether that is read or not. */
  lemma ReadyChooses(t: Tables, c: Config, states: seq<int>, trees: seq<Tree>, ahead: seq<Token>)
    requires Ready(t, c, states, trees, ahead)
    ensures var (c1, a) := Choose(t, c);
      && a == Lookup(t, states[|trees|], NextKind(ahead)) && Step(t, c) == Perform(t, c1, a)
      && Ready(t, c1, states, trees, ahead)
      && (t.pact[states[|trees|]] != YYFLAG ==> c1 == Read(c))
  {
    hide Perform, Hit, Decode;
    assert Ahead(Read(c)) == Ahead(c);
    if Read(c).look.Tok? {
      assert Ahead(c)[0] == Read(c).look.token;
    }
  }

  lemma StepShifts(t: Tables, c: Config, states: seq<int>, trees: seq<Tree>, token: Token, after: seq<Token>, n: int)
    requires Ready(t, c, states, trees, [token] + after) && IsState(t, n)
    requires Lookup(t, states[|trees|], token.kind) == Shift(n)
    ensures if |states| + 1 < YYMAXDEPTH then Ready(t, Step(t, c), states + [n], trees + [Leaf(token)], after)
            else Step(t, c).status.Overflowed?
  {
    hide Hit, Decode;
    ReadyChooses(t, c, states, trees, [token] + after);
    var c1 := Choose(t, c).0;
    assert c1 == Read(c) && !c1.look.Empty?;
    assert Ahead(c1) == [token] + after;
    assert c1.look == Tok(token) && c1.rest == Ahead(c1)[1..] == after;
  }

  lemma StepShiftsEnd(t: Tables, c: Config, states: seq<int>, trees: seq<Tree>, n: int)
    requires Ready(t, c, states, trees, []) && IsState(t, n) && |states| + 1 < YYMAXDEPTH
    requires Lookup(t, states[|trees|], YYEOF) == Shift(n)
    ensures Ready(t, Step(t, c), states + [n], trees + [End], [])
  {
    hide Hit, Decode;
    ReadyChooses(t, c, states, trees, []);
    var c1 := Choose(t, c).0;
    assert c1 == Read(c) && c1.look.Eof?;
  }

  lemma StepReduces(t: Tables, c: Config, states: seq<int>, trees: seq<Tree>, ahead: seq<Token>, r: int, m: nat)
    requires Ready(t, c, states, trees, ahead) && IsRule(t, r) && m + |t.rhs[r]| == |trees|
    requires Lookup(t, states[|trees|], NextKind(ahead)) == Reduce(r)
    requires IsState(t, Goto(t, states[m], t.r1[r]))
    ensures if m + 2 < YYMAXDEPTH then
              Ready(t, Step(t, c), states[..m + 1] + [Goto(t, states[m], t.r1[r])],
                    trees[..m] + [Node(r, trees[m..])], ahead)
            else Step(t, c).status.Overflowed?
  {
    hide Hit, Decode, Lookup, Goto;
    ReadyChooses(t, c, states, trees, ahead);
  }

  // ---- Parsing a tree -------------------------------------------------------------------------------

  /** Rule `r` is wanted at the top of the stack and its first `k` symbols are read. */
  ghost predicate Wanted(t: Tables, c: Cert, states: seq<int>, r: int, k: int) {
    && states != [] && IsState(t, states[|states| - 1]) && Item(c, states[|states| - 1], r, k)
    && 0 <= r < |t.rhs| && 0 <= k <= |t.rhs[r]|
  }

  /** Where parsing a tree leads: past the tree, or to a full stack. */
  ghost predicate Leads(
      t: Tables, d: Config, states: seq<int>, trees: seq<Tree>, pushed: seq<Tree>, high: nat, after: seq<Token>,
      next: seq<int>)
  {
    if |states| + high < YYMAXDEPTH then
      states <= next && |next| == |states| + |pushed| && Ready(t, d, next, trees + pushed, after)
    else d.status.Overflowed?
  }

  lemma ReadyTop(t: Tables, c: Config, states: seq<int>, trees: seq<Tree>, ahead: seq<Token>)
    requires Ready(t, c, states, trees, ahead)
    ensures |states| == |trees| + 1 && IsState(t, states[|trees|])
  {
  }

  lemma RunStep(t: Tables, input: seq<Token>, n: nat)
    ensures Run(t, input, n + 1) == Step(t, Run(t, input, n))
  {
  }

  lemma {:induction false} ParseLeaf(
      t: Tables, c: Cert, f: Lookahead, input: seq<Token>, m: nat, states: seq<int>, trees: seq<Tree>,
      r: int, k: nat, token: Token, after: seq<Token>) returns (next: seq<int>)
    requires Complete(t, c, f) && Wanted(t, c, states, r, k) && k < |t.rhs[r]|
    requires IsKind(t, token.kind) && token.kind == t.rhs[r][k]
    requires Ready(t, Run(t, input, m), states, trees, [token] + after)
    ensures Leads(t, Run(t, input, m + 1), states, trees, [Leaf(token)], 1, after, next)
    ensures |states| + 1 < YYMAXDEPTH ==> Wanted(t, c, next, r, k + 1)
  {
    hide Run, Step, Ready, Lookup, Goto;
    var s := states[|states| - 1];
    ReadyTop(t, Run(t, input, m), states, trees, [token] + after);
    assert AdvanceOk(t, c, s, r, k);
    assert token.kind < t.ntBase;
    var n := Lookup(t, s, token.kind).state;
    StepShifts(t, Run(t, input, m), states, trees, token, after, n);
    RunStep(t, input, m);
    next := states + [n];
  }

  lemma {:induction false} ParseTree(
      t: Tables, c: Cert, f: Lookahead, input: seq<Token>, m: nat, states: seq<int>, trees: seq<Tree>,
      r: int, k: nat, tree: Tree, after: seq<Token>) returns (n: nat, next: seq<int>)
    requires Complete(t, c, f) && Wanted(t, c, states, r, k) && k < |t.rhs[r]| && |states| < YYMAXDEPTH
    requires Derivation(t, tree) && Proper(t, tree) && Permitted(f, tree) && Root(t, tree) == t.rhs[r][k]
    requires IsSymbol(t, Root(t, tree)) && (tree.Node? ==> !Barred(f, r, k, tree.rule))
    requires Follow(t, f, t.rhs[r][k], NextKind(after))
    requires Ready(t, Run(t, input, m), states, trees, Yield(tree) + after)
    ensures Leads(t, Run(t, input, n), states, trees, [tree], Height(tree), after, next)
    ensures |states| + Height(tree) < YYMAXDEPTH ==> Wanted(t, c, next, r, k + 1)
    decreases tree
  {
    hide Complete, Run, Step, Ready, Lookup, Goto, Wanted, Leads, IsKind;
    if tree.Leaf? {
      LeafSymbol(t, tree);
      next := ParseLeaf(t, c, f, input, m, states, trees, r, k, tree.token, after);
      n := m + 1;
    } else {
      SpellNode(t, tree);
      ReadyTop(t, Run(t, input, m), states, trees, Yield(tree) + after);
      Predicted(t, c, f, states, r, k, tree);
      var above;
      n, above := ParseKids(t, c, f, input, m, states, trees, tree.rule, 0, tree.kids, after);
      if |states| + Heights(tree.kids) < YYMAXDEPTH {
        next := ParseNode(t, c, f, input, n, states, trees, r, k, tree, after, above);
        n := n + 1;
      } else {
        next := states;
        StaysFull(t, Run(t, input, n), states, trees, tree.kids, Heights(tree.kids), after, above,
                  [tree], Height(tree));
      }
    }
  }

  lemma LeafSymbol(t: Tables, tree: Tree)
    requires tree.Leaf? && Proper(t, tree)
    ensures IsKind(t, tree.token.kind) && Yield(tree) == [tree.token] && tree == Leaf(tree.token) && Height(tree) == 1
    ensures Root(t, tree) == tree.token.kind
  {
  }

  lemma StaysFull(
      t: Tables, d: Config, states: seq<int>, trees: seq<Tree>, pushed: seq<Tree>, high: nat, after: seq<Token>,
      next: seq<int>, other: seq<Tree>, higher: nat)
    requires Leads(t, d, states, trees, pushed, high, after, next) && YYMAXDEPTH <= |states| + high && high <= higher
    ensures Leads(t, d, states, trees, other, higher, after, states)
  {
    hide Ready;
  }

  lemma Predicted(t: Tables, c: Cert, f: Lookahead, states: seq<int>, r: int, k: nat, tree: Tree)
    requires Complete(t, c, f) && Wanted(t, c, states, r, k) && k < |t.rhs[r]|
    requires tree.Node? && Derivation(t, tree) && Root(t, tree) == t.rhs[r][k] && !Barred(f, r, k, tree.rule)
    ensures Wanted(t, c, states, tree.rule, 0) && IsRule(t, tree.rule) && t.r1[tree.rule] == t.rhs[r][k]
    ensures |tree.kids| == |t.rhs[tree.rule]|
  {
    assert PredictsOk(t, c, f) && Fits(t, f, r, k, tree.rule);
  }

  /** The reduction after the children of a node. */
  lemma ParseNode(
      t: Tables, c: Cert, f: Lookahead, input: seq<Token>, n: nat, states: seq<int>, trees: seq<Tree>,
      r: int, k: nat, tree: Tree, after: seq<Token>, above: seq<int>) returns (next: seq<int>)
    requires Complete(t, c, f) && Wanted(t, c, states, r, k) && k < |t.rhs[r]| && tree.Node?
    requires IsRule(t, tree.rule) && t.r1[tree.rule] == t.rhs[r][k] && |tree.kids| == |t.rhs[tree.rule]|
    requires Follow(t, f, t.rhs[r][k], NextKind(after)) && |states| + Heights(tree.kids) < YYMAXDEPTH
    requires |states| == |trees| + 1
    requires Leads(t, Run(t, input, n), states, trees, tree.kids, Heights(tree.kids), after, above)
    requires Wanted(t, c, above, tree.rule, |tree.kids|)
    ensures Leads(t, Run(t, input, n + 1), states, trees, [tree], Height(tree), after, next)
    ensures |states| + Height(tree) < YYMAXDEPTH ==> Wanted(t, c, next, r, k + 1)
  {
    hide Run, Step, Ready, Lookup, Goto, Heights;
    var q, s := tree.rule, states[|states| - 1];
    assert AdvanceOk(t, c, s, r, k);
    assert ReducesOk(t, c, f);
    ReadyTop(t, Run(t, input, n), above, trees + tree.kids, after);
    assert above[|trees|] == s;
    StepReduces(t, Run(t, input, n), above, trees + tree.kids, after, q, |trees|);
    assert (trees + tree.kids)[..|trees|] == trees && (trees + tree.kids)[|trees|..] == tree.kids;
    assert above[..|trees| + 1] == states;
    RunStep(t, input, n);
    next := states + [Goto(t, s, t.r1[q])];
  }

  lemma {:induction false} ParseKids(
      t: Tables, c: Cert, f: Lookahead, input: seq<Token>, m: nat, states: seq<int>, trees: seq<Tree>,
      q: int, k: nat, kids: seq<Tree>, after: seq<Token>) returns (n: nat, next: seq<int>)
    requires Complete(t, c, f) && Wanted(t, c, states, q, k) && Spell(t, kids, q, k) && AllPermitted(f, q, k, kids)
    requires |states| < YYMAXDEPTH && Follow(t, f, t.r1[q], NextKind(after))
    requires Ready(t, Run(t, input, m), states, trees, Yields(kids) + after)
    ensures Leads(t, Run(t, input, n), states, trees, kids, Heights(kids), after, next)
    ensures |states| + Heights(kids) < YYMAXDEPTH ==> Wanted(t, c, next, q, |t.rhs[q]|)
    decreases kids
  {
    hide Run, Step, Ready, Lookup, Goto, Wanted, Leads, Spell, Derivation, Proper, Root, Vanish, Permitted;
    hide FirstsOk, FollowsOk, SymbolsOk, AdvancesOk, PredictsOk, ReducesOk;
    if kids == [] {
      n, next := m, states;
      SpellLast(t, q, k);
      LeadsNowhere(t, Run(t, input, m), states, trees, after);
    } else {
      SpellFirst(t, kids, q, k);
      var rest := kids[1..];
      VanishNone(t, f, q, k + 1);
      Following(t, f, rest, q, k, k + 1, after);
      assert Yield(kids[0]) + (Yields(rest) + after) == Yields(kids) + after;
      var m1, mid := ParseTree(t, c, f, input, m, states, trees, q, k, kids[0], Yields(rest) + after);
      if |states| + Height(kids[0]) < YYMAXDEPTH {
        LeadsReady(t, Run(t, input, m1), states, trees, kids[0], Height(kids[0]), Yields(rest) + after, mid);
        n, next := ParseKids(t, c, f, input, m1, mid, trees + [kids[0]], q, k + 1, rest, after);
        LeadsOn(t, Run(t, input, n), states, trees, kids, mid, after, next);
      } else {
        n, next := m1, states;
        StaysFull(t, Run(t, input, n), states, trees, [kids[0]], Height(kids[0]), Yields(rest) + after, mid, kids,
                  Heights(kids));
        FullForAny(t, Run(t, input, n), states, trees, kids, Heights(kids), Yields(rest) + after, after);
      }
    }
  }

  lemma LeadsNowhere(t: Tables, d: Config, states: seq<int>, trees: seq<Tree>, after: seq<Token>)
    requires Ready(t, d, states, trees, Yields([]) + after) && |states| < YYMAXDEPTH
    ensures Leads(t, d, states, trees, [], 0, after, states) && Heights([]) == 0
  {
    assert Yields([]) + after == after && trees + [] == trees;
  }

  lemma LeadsReady(
      t: Tables, d: Config, states: seq<int>, trees: seq<Tree>, tree: Tree, high: nat, after: seq<Token>,
      next: seq<int>)
    requires Leads(t, d, states, trees, [tree], high, after, next) && |states| + high < YYMAXDEPTH
    ensures states <= next && |next| == |states| + 1 && Ready(t, d, next, trees + [tree], after)
  {
    hide Ready;
  }

  lemma LeadsOn(
      t: Tables, d: Config, states: seq<int>, trees: seq<Tree>, kids: seq<Tree>, mid: seq<int>, after: seq<Token>,
      next: seq<int>)
    requires kids != [] && states <= mid && |mid| == |states| + 1 && |states| + Height(kids[0]) < YYMAXDEPTH
    requires Leads(t, d, mid, trees + [kids[0]], kids[1..], Heights(kids[1..]), after, next)
    ensures Leads(t, d, states, trees, kids, Heights(kids), after, next)
    ensures |states| + Heights(kids) < YYMAXDEPTH <==> |mid| + Heights(kids[1..]) < YYMAXDEPTH
  {
    hide Ready, Height;
    assert trees + [kids[0]] + kids[1..] == trees + kids;
  }

  lemma FullForAny(
      t: Tables, d: Config, states: seq<int>, trees: seq<Tree>, pushed: seq<Tree>, high: nat, after: seq<Token>,
      other: seq<Token>)
    requires Leads(t, d, states, trees, pushed, high, after, states) && YYMAXDEPTH <= |states| + high
    ensures Leads(t, d, states, trees, pushed, high, other, states)
  {
    hide Ready;
  }

  // ---- Whole sentences --------------------------------------------------------------------------------

  lemma StepAcceptsEnd(t: Tables, c: Config, states: seq<int>, trees: seq<Tree>)
    requires Ready(t, c, states, trees, []) && t.pact[states[|trees|]] != YYFLAG
    requires Lookup(t, states[|trees|], YYEOF) == Accept
    ensures var d := Step(t, c);
      d.status.Accepted? && d.trees == trees && d.nerrs == 0 && d.errors == 0
  {
    hide Lookup;
    ReadyChooses(t, c, states, trees, []);
  }

  /** The end of input after a whole sentence. */
  lemma {:induction false} SentenceEnds(
      t: Tables, c: Cert, f: Lookahead, input: seq<Token>, n: nat, states: seq<int>, tree: Tree)
    requires Valid(t, c) && Complete(t, c, f) && Wanted(t, c, states, 0, 1)
    requires |states| == 2 && Ready(t, Run(t, input, n), states, [tree], [])
    ensures var d := Run(t, input, n + 2);
      d.status.Accepted? && d.trees == [tree, End] && d.nerrs == 0 && d.errors == 0
  {
    hide Run, Step, Ready, Lookup, Goto;
    var s := states[1];
    assert BottomOk(t, c);
    ReadyTop(t, Run(t, input, n), states, [tree], []);
    assert AdvanceOk(t, c, s, 0, 1);
    var e := Lookup(t, s, YYEOF).state;
    assert EndOk(t);
    StepShiftsEnd(t, Run(t, input, n), states, [tree], e);
    RunStep(t, input, n);
    RunStep(t, input, n + 1);
    assert [tree] + [End] == [tree, End];
    StepAcceptsEnd(t, Run(t, input, n + 1), states + [e], [tree, End]);
  }

  lemma StartsReady(t: Tables, c: Cert, f: Lookahead, tree: Tree)
    requires Valid(t, c) && Complete(t, c, f) && Sentence(t, f, tree)
    ensures Ready(t, Run(t, Yield(tree), 0), [0], [], Yield(tree) + []) && Wanted(t, c, [0], 0, 0)
    ensures |t.rhs[0]| == 2 && Root(t, tree) == t.rhs[0][0] && IsSymbol(t, Root(t, tree))
    ensures Follow(t, f, t.rhs[0][0], NextKind([])) && (tree.Node? ==> !Barred(f, 0, 0, tree.rule))
  {
    assert BottomOk(t, c);
    assert Ahead(Init(Yield(tree))) == Yield(tree) == Yield(tree) + [];
  }

  /** The run on a sentence: accepted without an error, or the stacks are full. */
  lemma {:induction false} SentenceRun(t: Tables, c: Cert, f: Lookahead, tree: Tree) returns (n: nat)
    requires Valid(t, c) && Complete(t, c, f) && Sentence(t, f, tree)
    ensures var d := Run(t, Yield(tree), n);
      if Height(tree) + 1 < YYMAXDEPTH then
        d.status.Accepted? && d.trees == [tree, End] && d.nerrs == 0 && d.errors == 0
      else d.status.Overflowed?
  {
    hide Run, Valid, Complete, Ready, Wanted, Derivation, Proper, Permitted, Height;
    StartsReady(t, c, f, tree);
    var next;
    n, next := ParseTree(t, c, f, Yield(tree), 0, [0], [], 0, 0, tree, []);
    if Height(tree) + 1 < YYMAXDEPTH {
      LeadsReady(t, Run(t, Yield(tree), n), [0], [], tree, Height(tree), [], next);
      assert [] + [tree] == [tree];
      SentenceEnds(t, c, f, Yield(tree), n, next, tree);
      n := n + 2;
    }
  }

  lemma {:induction false} EndsAlike(t: Tables, cert: Cert, w: Weights, input: seq<Token>, n: nat)
    requires Valid(t, cert) && Weighted(t, w) && InputOk(t, input) && !Run(t, input, n).status.Running?
    ensures LastConfig(t, w, input) == Run(t, input, n)
  {
    hide Run, Valid, Weighted, StepBound;
    Terminates(t, cert, w, input);
    if n <= StepBound(w, input) {
      RunStays(t, input, n, StepBound(w, input));
    } else {
      RunStays(t, input, StepBound(w, input), n);
    }
  }

  /** Every sentence is accepted without an error, and the tree built is its parse tree, unless the
      stacks have no room for it. */
  lemma {:induction false} SentenceAccepted(t: Tables, c: Cert, f: Lookahead, w: Weights, tree: Tree)
    requires Valid(t, c) && Complete(t, c, f) && Weighted(t, w) && Sentence(t, f, tree)
    ensures InputOk(t, Yield(tree))
    ensures var d := LastConfig(t, w, Yield(tree));
      if Height(tree) + 1 < YYMAXDEPTH then
        d.status.Accepted? && d.trees == [tree, End] && d.nerrs == 0 && d.errors == 0 && d.trace == Postorder(tree)
      else d.status.Overflowed?
  {
    hide Run, Valid, Complete, Weighted, Permitted, Derivation, Proper, Height, Built;
    var n := SentenceRun(t, c, f, tree);
    YieldIsInput(t, tree);
    EndsAlike(t, c, w, Yield(tree), n);
    if Height(tree) + 1 < YYMAXDEPTH {
      AcceptSound(t, c, Yield(tree), n);
    }
  }

  lemma {:induction false} YieldIsInput(t: Tables, tree: Tree)
    requires Proper(t, tree)
    ensures InputOk(t, Yield(tree))
    decreases tree
  {
    if tree.Node? {
      YieldsAreInput(t, tree.kids);
    }
  }

  lemma {:induction false} YieldsAreInput(t: Tables, trees: seq<Tree>)
    requires AllProper(t, trees)
    ensures InputOk(t, Yields(trees))
    decreases trees
  {
    if trees != [] {
      YieldIsInput(t, trees[0]);
      YieldsAreInput(t, trees[1..]);
    }
  }

  /** The grammar is unambiguous: sentences spelled alike have one parse tree. */
  lemma OneTree(t: Tables, c: Cert, f: Lookahead, w: Weights, one: Tree, other: Tree)
    requires Valid(t, c) && Complete(t, c, f) && Weighted(t, w) && Sentence(t, f, one) && Sentence(t, f, other)
    requires Yield(one) == Yield(other) && Height(one) + 1 < YYMAXDEPTH
    ensures one == other
  {
    hide Valid, Complete, Weighted, Sentence, LastConfig, Height;
    SentenceAccepted(t, c, f, w, one);
    SentenceAccepted(t, c, f, w, other);
  }

  // ---- Exactly the sentences ----------------------------------------------------------------------------

  /** What the automaton builds has no barred rule in it. */
  lemma {:induction false} BuiltIsPermitted(t: Tables, c: Cert, f: Lookahead, p: int, tree: Tree)
    requires Complete(t, c, f) && Built(t, c, p, tree) && Proper(t, tree)
    ensures Permitted(f, tree)
    decreases tree
  {
    hide Complete, Barred;
    if tree.Node? {
      assert t.rhs[tree.rule][0..] == t.rhs[tree.rule];
      AllBuiltArePermitted(t, c, f, p, tree.kids, tree.rule, 0);
    }
  }

  lemma {:induction false} AllBuiltArePermitted(
      t: Tables, c: Cert, f: Lookahead, p: int, kids: seq<Tree>, r: int, k: nat)
    requires Complete(t, c, f) && BuiltAll(t, c, p, kids) && AllProper(t, kids)
    requires IsRule(t, r) && k <= |t.rhs[r]| && Roots(t, kids) == t.rhs[r][k..] && IsState(t, p) && Item(c, p, r, k)
    ensures AllPermitted(f, r, k, kids)
    decreases kids
  {
    hide Complete, Move, Item, Barred;
    if kids != [] {
      BuiltIsPermitted(t, c, f, p, kids[0]);
      assert Roots(t, kids)[0] == t.rhs[r][k..][0] && Roots(t, kids)[1..] == Roots(t, kids[1..]);
      assert t.rhs[r][k..][1..] == t.rhs[r][k + 1..];
      BuiltNotBarred(t, c, f, p, kids[0], r, k);
      MovesDot(t, c, f, p, kids[0], r, k);
      AllBuiltArePermitted(t, c, f, Move(t, p, kids[0]), kids[1..], r, k + 1);
    }
  }

  lemma BuiltNotBarred(t: Tables, c: Cert, f: Lookahead, p: int, tree: Tree, r: int, k: nat)
    requires Complete(t, c, f) && Built(t, c, p, tree) && Item(c, p, r, k)
    ensures tree.Node? ==> !Barred(f, r, k, tree.rule)
  {
    assert BarsOk(t, c, f);
  }

  lemma MovesDot(t: Tables, c: Cert, f: Lookahead, p: int, tree: Tree, r: int, k: nat)
    requires Complete(t, c, f) && Built(t, c, p, tree) && Proper(t, tree) && IsState(t, p) && Item(c, p, r, k)
    requires IsRule(t, r) && k < |t.rhs[r]| && Root(t, tree) == t.rhs[r][k]
    ensures IsState(t, Move(t, p, tree)) && Item(c, Move(t, p, tree), r, k + 1)
  {
    hide Lookup, Goto;
    assert AdvancesOk(t, c) && SymbolsOk(t) && AdvanceOk(t, c, p, r, k);
  }

  /** The parse tree of an input, one that the stacks have room for. */
  ghost predicate Parses(t: Tables, f: Lookahead, input: seq<Token>, tree: Tree) {
    Sentence(t, f, tree) && Yield(tree) == input && Height(tree) + 1 < YYMAXDEPTH
  }

  lemma AcceptedParses(t: Tables, c: Cert, f: Lookahead, w: Weights, input: seq<Token>)
    requires Valid(t, c) && Complete(t, c, f) && Weighted(t, w) && InputOk(t, input)
    requires LastConfig(t, w, input).status.Accepted? && LastConfig(t, w, input).nerrs == 0
    ensures var trees := LastConfig(t, w, input).trees; |trees| == 2 && Parses(t, f, input, trees[0])
  {
    hide Run, Valid, Complete, Weighted, Permitted, Derivation, Proper, Height, Built, StepBound;
    AcceptSound(t, c, input, StepBound(w, input));
    var tree := LastConfig(t, w, input).trees[0];
    BuiltIsProper(t, c, 0, tree);
    BuiltIsPermitted(t, c, f, 0, tree);
    assert Sentence(t, f, tree);
    SentenceAccepted(t, c, f, w, tree);
  }

  /** The parser accepts an input without an error if and only if the input has a parse tree that the
      stacks have room for; that is the tree it builds, and there is no other. */
  lemma AcceptsExactly(t: Tables, c: Cert, f: Lookahead, w: Weights, input: seq<Token>)
    requires Valid(t, c) && Complete(t, c, f) && Weighted(t, w) && InputOk(t, input)
    ensures LastConfig(t, w, input).status.Accepted? && LastConfig(t, w, input).nerrs == 0
            <==> exists tree :: Parses(t, f, input, tree)
    ensures forall tree :: Parses(t, f, input, tree) ==> LastConfig(t, w, input).trees == [tree, End]
  {
    hide LastConfig, Valid, Complete, Weighted, Sentence, Height, InputOk;
    forall tree | Parses(t, f, input, tree)
      ensures var d := LastConfig(t, w, input); d.status.Accepted? && d.nerrs == 0 && d.trees == [tree, End]
    {
      SentenceAccepted(t, c, f, w, tree);
    }
    if LastConfig(t, w, input).status.Accepted? && LastConfig(t, w, input).nerrs == 0 {
      AcceptedParses(t, c, f, w, input);
    }
  }
}
