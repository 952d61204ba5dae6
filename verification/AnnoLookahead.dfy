/** The lookahead of the annotation grammar, and the proof that the tables of src/cmixshow/y-tab.c act
    on it: every annotation file is accepted. */
module AnnoLookahead {
  import opened LrTables
  import opened LrCompleteness
  import opened AnnoTables

  // ---- Lookahead ----------------------------------------------------------------------------------

  /** The nonterminals that may stand for nothing. */
  predicate NullableAt(x: int) {
    x == 27 || x == 38 || x == 39
  }

  /** The tokens that each nonterminal may begin with. */
  predicate FirstAt(x: int, b: int) {
    match x
    case 26 => b == 3
    case 28 => b == 3
    case 29 => b == 5
    case 30 => b == 24
    case 31 => b == 24
    case 32 => b == 6
    case 33 => b == 22
    case 34 => b == 22
    case 35 => b == 7 || b == 8 || b == 10 || b == 24 || b == 25
    case 36 => b == 7 || b == 8
    case 37 => b == 7 || b == 8
    case 38 => b == 7 || b == 8 || b == 10 || b == 17 || b == 20 || b == 24 || b == 25
    case 39 => b == 7 || b == 8 || b == 10 || b == 24 || b == 25
    case 40 => b == 7 || b == 8 || b == 10 || b == 24 || b == 25
    case 41 => b == 17 || b == 20
    case 42 => b == 24
    case 43 => b == 10
    case 44 => b == 25
    case 45 => b == 12 || b == 15
    case 46 => b == 7 || b == 8 || b == 10 || b == 17 || b == 20 || b == 24 || b == 25
    case _ => false
  }

  /** The tokens that may follow each nonterminal, 0 for the end of input. */
  predicate FollowAt(x: int, b: int) {
    match x
    case 26 => b == 0
    case 27 => b == 5
    case 28 => b == 5 || b == 24
    case 29 => b == 6
    case 30 => b == 6
    case 31 => b == 6 || b == 24
    case 32 => b == 0
    case 33 => b == 0
    case 34 => b == 0 || b == 7 || b == 8 || b == 10 || b == 22 || b == 24 || b == 25
    case 35 => b == 0 || b == 7 || b == 8 || b == 10 || b == 14 || b == 17 || b == 20 || b == 22 || b == 24 || b == 25
    case 36 => b == 0 || b == 7 || b == 8 || b == 10 || b == 14 || b == 17 || b == 20 || b == 22 || b == 24 || b == 25
    case 37 => b == 25
    case 38 => b == 14
    case 39 => b == 14 || b == 17 || b == 20
    case 40 => b == 14 || b == 17 || b == 20
    case 41 => b == 0 || b == 7 || b == 8 || b == 10 || b == 14 || b == 17 || b == 20 || b == 22 || b == 24 || b == 25
    case 42 => b == 0 || b == 7 || b == 8 || b == 10 || b == 14 || b == 17 || b == 20 || b == 22 || b == 24 || b == 25
    case 43 => b == 0 || b == 7 || b == 8 || b == 10 || b == 14 || b == 17 || b == 20 || b == 22 || b == 24 || b == 25
    case 44 => b == 0 || b == 7 || b == 8 || b == 10 || b == 14 || b == 17 || b == 20 || b == 22 || b == 24 || b == 25
    case 45 => b == 0 || b == 7 || b == 8 || b == 10 || b == 14 || b == 17 || b == 20 || b == 22 || b == 24 || b == 25
    case 46 => b == 0 || b == 7 || b == 8 || b == 10 || b == 14 || b == 17 || b == 20 || b == 22 || b == 24 || b == 25
    case _ => false
  }

  predicate StartsAt(x: int, b: int) {
    if x < 26 then b == x else FirstAt(x, b)
  }

  predicate FollowsAt(x: int, b: int) {
    x < 26 || FollowAt(x, b)
  }

  /** In a block that holds one group and no separator, that group is no list: rule 19, not rule 22, reads it. */
  predicate BarredAt(r: int, k: int, q: int) {
    r == 18 && k == 3 && q == 22
  }

  lemma BarredRule()
    ensures LengthAt(18) == 5 && SymbolAt(18, 3) == R1At(22)
  {
  }

  const LOOKAHEAD: Lookahead := Lookahead(NullableAt, FirstAt, FollowAt, BarredAt)

  // ---- The local check, unpacked --------------------------------------------------------------------

  function NextAt(s: int, x: int): int {
    if x < 26 then ActionAt(s, x) else GotoAt(s, x)
  }

  predicate AdvanceAt(s: int, r: int, k: int) {
    var x := SymbolAt(r, k);
    0 <= x < 47 && 0 < NextAt(s, x) < 78 && ItemAt(NextAt(s, x), r, k + 1)
  }

  lemma Advances0(s: int, r: int, k: int)
    requires 0 <= s < 8 && ItemAt(s, r, k) == true && 0 <= k < LengthAt(r)
    ensures AdvanceAt(s, r, k) == true
  {
  }

  lemma Advances8(s: int, r: int, k: int)
    requires 8 <= s < 18 && ItemAt(s, r, k) == true && 0 <= k < LengthAt(r)
    ensures AdvanceAt(s, r, k) == true
  {
  }

  lemma Advances18(s: int, r: int, k: int)
    requires 18 <= s < 26 && ItemAt(s, r, k) == true && 0 <= k < LengthAt(r)
    ensures AdvanceAt(s, r, k) == true
  {
  }

  lemma Advances26(s: int, r: int, k: int)
    requires 26 <= s < 31 && ItemAt(s, r, k) == true && 0 <= k < LengthAt(r)
    ensures AdvanceAt(s, r, k) == true
  {
  }

  lemma Advances31(s: int, r: int, k: int)
    requires 31 <= s < 44 && ItemAt(s, r, k) == true && 0 <= k < LengthAt(r)
    ensures AdvanceAt(s, r, k) == true
  {
  }

  lemma Advances44(s: int, r: int, k: int)
    requires 44 <= s < 46 && ItemAt(s, r, k) == true && 0 <= k < LengthAt(r)
    ensures AdvanceAt(s, r, k) == true
  {
  }

  lemma Advances46(s: int, r: int, k: int)
    requires 46 <= s < 49 && ItemAt(s, r, k) == true && 0 <= k < LengthAt(r)
    ensures AdvanceAt(s, r, k) == true
  {
  }

  lemma Advances49(s: int, r: int, k: int)
    requires 49 <= s < 54 && ItemAt(s, r, k) == true && 0 <= k < LengthAt(r)
    ensures AdvanceAt(s, r, k) == true
  {
  }

  lemma Advances54(s: int, r: int, k: int)
    requires 54 <= s < 57 && ItemAt(s, r, k) == true && 0 <= k < LengthAt(r)
    ensures AdvanceAt(s, r, k) == true
  {
  }

  lemma Advances57(s: int, r: int, k: int)
    requires 57 <= s < 60 && ItemAt(s, r, k) == true && 0 <= k < LengthAt(r)
    ensures AdvanceAt(s, r, k) == true
  {
  }

  lemma Advances60(s: int, r: int, k: int)
    requires 60 <= s < 67 && ItemAt(s, r, k) == true && 0 <= k < LengthAt(r)
    ensures AdvanceAt(s, r, k) == true
  {
  }

  lemma Advances67(s: int, r: int, k: int)
    requires 67 <= s < 70 && ItemAt(s, r, k) == true && 0 <= k < LengthAt(r)
    ensures AdvanceAt(s, r, k) == true
  {
  }

  lemma Advances70(s: int, r: int, k: int)
    requires 70 <= s < 78 && ItemAt(s, r, k) == true && 0 <= k < LengthAt(r)
    ensures AdvanceAt(s, r, k) == true
  {
  }

  lemma Predicts0(s: int, r: int, k: int, q: int)
    requires 0 <= s < 17 && ItemAt(s, r, k) == true
    requires 0 <= k < LengthAt(r) && 1 <= q < 38 && SymbolAt(r, k) == R1At(q)
    ensures BarredAt(r, k, q) != ItemAt(s, q, 0)
  {
  }

  lemma Predicts17(s: int, r: int, k: int, q: int)
    requires 17 <= s < 26 && ItemAt(s, r, k) == true
    requires 0 <= k < LengthAt(r) && 1 <= q < 38 && SymbolAt(r, k) == R1At(q)
    ensures BarredAt(r, k, q) != ItemAt(s, q, 0)
  {
  }

  lemma Predicts26(s: int, r: int, k: int, q: int)
    requires 26 <= s < 41 && ItemAt(s, r, k) == true
    requires 0 <= k < LengthAt(r) && 1 <= q < 38 && SymbolAt(r, k) == R1At(q)
    ensures BarredAt(r, k, q) != ItemAt(s, q, 0)
  {
  }

  lemma Predicts41(s: int, r: int, k: int, q: int)
    requires 41 <= s < 48 && ItemAt(s, r, k) == true
    requires 0 <= k < LengthAt(r) && 1 <= q < 38 && SymbolAt(r, k) == R1At(q)
    ensures BarredAt(r, k, q) != ItemAt(s, q, 0)
  {
  }

  lemma Predicts48(s: int, r: int, k: int, q: int)
    requires 48 <= s < 58 && ItemAt(s, r, k) == true
    requires 0 <= k < LengthAt(r) && 1 <= q < 38 && SymbolAt(r, k) == R1At(q)
    ensures BarredAt(r, k, q) != ItemAt(s, q, 0)
  {
  }

  lemma Predicts58(s: int, r: int, k: int, q: int)
    requires 58 <= s < 67 && ItemAt(s, r, k) == true
    requires 0 <= k < LengthAt(r) && 1 <= q < 38 && SymbolAt(r, k) == R1At(q)
    ensures BarredAt(r, k, q) != ItemAt(s, q, 0)
  {
  }

  lemma Predicts67(s: int, r: int, k: int, q: int)
    requires 67 <= s < 78 && ItemAt(s, r, k) == true
    requires 0 <= k < LengthAt(r) && 1 <= q < 38 && SymbolAt(r, k) == R1At(q)
    ensures BarredAt(r, k, q) != ItemAt(s, q, 0)
  {
  }

  lemma Reduces0(s: int, r: int, a: int)
    requires 0 <= s < 18 && 1 <= r < 38 && ItemAt(s, r, LengthAt(r)) == true
    requires FollowAt(R1At(r), a) == true
    ensures ActionAt(s, a) == -r
  {
  }

  lemma Reduces18(s: int, r: int, a: int)
    requires 18 <= s < 29 && 1 <= r < 38 && ItemAt(s, r, LengthAt(r)) == true
    requires FollowAt(R1At(r), a) == true
    ensures ActionAt(s, a) == -r
  {
  }

  lemma Reduces29(s: int, r: int, a: int)
    requires 29 <= s < 40 && 1 <= r < 38 && ItemAt(s, r, LengthAt(r)) == true
    requires FollowAt(R1At(r), a) == true
    ensures ActionAt(s, a) == -r
  {
  }

  lemma Reduces40(s: int, r: int, a: int)
    requires 40 <= s < 52 && 1 <= r < 38 && ItemAt(s, r, LengthAt(r)) == true
    requires FollowAt(R1At(r), a) == true
    ensures ActionAt(s, a) == -r
  {
  }

  lemma Reduces52(s: int, r: int, a: int)
    requires 52 <= s < 64 && 1 <= r < 38 && ItemAt(s, r, LengthAt(r)) == true
    requires FollowAt(R1At(r), a) == true
    ensures ActionAt(s, a) == -r
  {
  }

  lemma Reduces64(s: int, r: int, a: int)
    requires 64 <= s < 75 && 1 <= r < 38 && ItemAt(s, r, LengthAt(r)) == true
    requires FollowAt(R1At(r), a) == true
    ensures ActionAt(s, a) == -r
  {
  }

  lemma Reduces75(s: int, r: int, a: int)
    requires 75 <= s < 78 && 1 <= r < 38 && ItemAt(s, r, LengthAt(r)) == true
    requires FollowAt(R1At(r), a) == true
    ensures ActionAt(s, a) == -r
  {
  }

  lemma Symbols1(r: int, k: int)
    requires 1 <= r < 38 && 0 <= k < LengthAt(r)
    ensures 0 < SymbolAt(r, k) < 47
  {
  }

  /** The symbols from `i` to `j` of a rule may all stand for nothing. */
  ghost predicate VanishAt(r: int, i: int, j: int) {
    forall m | i <= m < j :: NullableAt(SymbolAt(r, m))
  }

  lemma Vanishes1(r: int)
    requires 1 <= r < 38 && VanishAt(r, 0, LengthAt(r))
    ensures NullableAt(R1At(r)) == true
  {
    assert 0 < LengthAt(r) ==> NullableAt(SymbolAt(r, 0));
    assert 1 < LengthAt(r) ==> NullableAt(SymbolAt(r, 1));
  }

  lemma Starts1(r: int, j: int, b: int)
    requires 1 <= r < 38 && 0 <= j < LengthAt(r) && VanishAt(r, 0, j) && StartsAt(SymbolAt(r, j), b)
    ensures StartsAt(R1At(r), b) == true
  {
    assert 0 < j ==> NullableAt(SymbolAt(r, 0));
    assert 1 < j ==> NullableAt(SymbolAt(r, 1));
  }

  lemma Meets1(r: int, i: int, j: int, b: int)
    requires 1 <= r < 38 && 0 < i <= j < LengthAt(r) && VanishAt(r, i, j) && StartsAt(SymbolAt(r, j), b)
    ensures FollowsAt(SymbolAt(r, i - 1), b) == true
  {
    assert i < j ==> NullableAt(SymbolAt(r, i));
    assert i + 1 < j ==> NullableAt(SymbolAt(r, i + 1));
  }

  lemma Closes1(r: int, i: int, b: int)
    requires 1 <= r < 38 && 0 < i <= LengthAt(r) && VanishAt(r, i, LengthAt(r)) && FollowAt(R1At(r), b)
    ensures FollowsAt(SymbolAt(r, i - 1), b) == true
  {
    assert i < LengthAt(r) ==> NullableAt(SymbolAt(r, i));
    assert i + 1 < LengthAt(r) ==> NullableAt(SymbolAt(r, i + 1));
  }

  // ---- The packed tables pass the check -------------------------------------------------------------

  lemma AdvancesFit(s: int, r: int, k: int)
    requires 0 <= s < 78 && ItemAt(s, r, k) == true && 0 <= k < LengthAt(r)
    ensures AdvanceAt(s, r, k) == true
  {
    hide ItemAt, LengthAt, AdvanceAt;
    if s < 8 {
      Advances0(s, r, k);
    } else if s < 18 {
      Advances8(s, r, k);
    } else if s < 26 {
      Advances18(s, r, k);
    } else if s < 31 {
      Advances26(s, r, k);
    } else if s < 44 {
      Advances31(s, r, k);
    } else if s < 46 {
      Advances44(s, r, k);
    } else if s < 49 {
      Advances46(s, r, k);
    } else if s < 54 {
      Advances49(s, r, k);
    } else if s < 57 {
      Advances54(s, r, k);
    } else if s < 60 {
      Advances57(s, r, k);
    } else if s < 67 {
      Advances60(s, r, k);
    } else if s < 70 {
      Advances67(s, r, k);
    } else {
      Advances70(s, r, k);
    }
  }

  lemma PredictsFit(s: int, r: int, k: int, q: int)
    requires 0 <= s < 78 && ItemAt(s, r, k) == true && 0 <= k < LengthAt(r) && 1 <= q < 38 && SymbolAt(r, k) == R1At(q)
    ensures BarredAt(r, k, q) != ItemAt(s, q, 0)
  {
    hide ItemAt, LengthAt, SymbolAt, R1At, BarredAt;
    if s < 17 {
      Predicts0(s, r, k, q);
    } else if s < 26 {
      Predicts17(s, r, k, q);
    } else if s < 41 {
      Predicts26(s, r, k, q);
    } else if s < 48 {
      Predicts41(s, r, k, q);
    } else if s < 58 {
      Predicts48(s, r, k, q);
    } else if s < 67 {
      Predicts58(s, r, k, q);
    } else {
      Predicts67(s, r, k, q);
    }
  }

  lemma ReducesFit(s: int, r: int, a: int)
    requires 0 <= s < 78 && 1 <= r < 38 && ItemAt(s, r, LengthAt(r)) == true && FollowAt(R1At(r), a) == true
    ensures ActionAt(s, a) == -r
  {
    hide ItemAt, LengthAt, R1At, FollowAt, ActionAt;
    if s < 18 {
      Reduces0(s, r, a);
    } else if s < 29 {
      Reduces18(s, r, a);
    } else if s < 40 {
      Reduces29(s, r, a);
    } else if s < 52 {
      Reduces40(s, r, a);
    } else if s < 64 {
      Reduces52(s, r, a);
    } else if s < 75 {
      Reduces64(s, r, a);
    } else {
      Reduces75(s, r, a);
    }
  }

  lemma SizesAre()
    ensures |TABLES.rhs| == 38 && TABLES.ntBase == 26 && |TABLES.pgoto| == 21 && TABLES.final == 78
  {
  }

  lemma GotoIsFor(s: int, x: int)
    requires 0 <= s < 78 && 26 <= x < 47
    ensures IsNonterminal(TABLES, x) && Goto(TABLES, s, x) == GotoAt(s, x)
  {
  }

  lemma LookaheadIs(x: int, b: int)
    ensures Nullable(LOOKAHEAD, x) == NullableAt(x)
    ensures First(TABLES, LOOKAHEAD, x, b) == StartsAt(x, b)
    ensures Follow(TABLES, LOOKAHEAD, x, b) == FollowsAt(x, b)
  {
  }

  lemma BarredIs(r: int, k: int, q: int)
    ensures Barred(LOOKAHEAD, r, k, q) == BarredAt(r, k, q)
  {
  }

  lemma AdvancesAre(s: int, r: int, k: int)
    requires IsState(TABLES, s) && Item(CERT, s, r, k) && 0 <= r < |TABLES.rhs| && 0 <= k < |TABLES.rhs[r]|
    ensures AdvanceOk(TABLES, CERT, s, r, k)
  {
    hide ItemAt, LengthAt, SymbolAt, ActionAt, GotoAt, Lookup, Goto, IsState, IsNonterminal, Item;
    SizesAre();
    StatesAre(s);
    RulesAre(r);
    SymbolsAre(r, k);
    ItemIs(s, r, k);
    AdvancesFit(s, r, k);
    var x := SymbolAt(r, k);
    StatesAre(NextAt(s, x));
    ItemIs(NextAt(s, x), r, k + 1);
    if x < 26 {
      LookupIs(s, x);
    } else {
      GotoIsFor(s, x);
    }
  }

  lemma PredictsAre(s: int, r: int, k: int, q: int)
    requires IsState(TABLES, s) && Item(CERT, s, r, k)
    ensures Fits(TABLES, LOOKAHEAD, r, k, q) ==> Item(CERT, s, q, 0)
    ensures IsRule(TABLES, q) && Barred(LOOKAHEAD, r, k, q) ==> !Item(CERT, s, q, 0)
  {
    hide ItemAt, LengthAt, SymbolAt, R1At, IsState, IsRule, Item, Barred;
    SizesAre();
    StatesAre(s);
    ItemIs(s, r, k);
    ItemIs(s, q, 0);
    BarredIs(r, k, q);
    RulesAre(q);
    if Fits(TABLES, LOOKAHEAD, r, k, q) {
      RulesAre(r);
      SymbolsAre(r, k);
      PredictsFit(s, r, k, q);
    }
    if IsRule(TABLES, q) && Barred(LOOKAHEAD, r, k, q) {
      BarredRule();
      PredictsFit(s, r, k, q);
    }
  }

  lemma ReducesAre(s: int, r: int, a: int)
    requires IsState(TABLES, s) && IsRule(TABLES, r) && Item(CERT, s, r, |TABLES.rhs[r]|)
    requires Follow(TABLES, LOOKAHEAD, TABLES.r1[r], a)
    ensures Lookup(TABLES, s, a) == Reduce(r)
  {
    hide ItemAt, LengthAt, R1At, IsState, Item, ActionAt, Lookup, FollowAt;
    SizesAre();
    StatesAre(s);
    RulesAre(r);
    ItemIs(s, r, LengthAt(r));
    LookaheadIs(R1At(r), a);
    ReducesFit(s, r, a);
    LookupIs(s, a);
  }

  lemma VanishIs(r: int, i: int, j: int)
    requires IsRule(TABLES, r) && 0 <= i && j <= |TABLES.rhs[r]|
    ensures Vanish(TABLES, LOOKAHEAD, r, i, j) ==> VanishAt(r, i, j)
  {
    hide IsRule, LengthAt, SymbolAt, NullableAt, Nullable;
    RulesAre(r);
    if Vanish(TABLES, LOOKAHEAD, r, i, j) {
      forall m | i <= m < j ensures NullableAt(SymbolAt(r, m)) {
        SymbolsAre(r, m);
        LookaheadIs(SymbolAt(r, m), 0);
        assert Nullable(LOOKAHEAD, TABLES.rhs[r][m]);
      }
    }
  }

  lemma SymbolsOkAre(r: int, k: int)
    requires IsRule(TABLES, r) && 0 <= k < |TABLES.rhs[r]|
    ensures 0 < TABLES.rhs[r][k] < TABLES.ntBase + |TABLES.pgoto|
  {
    hide IsRule, LengthAt, SymbolAt;
    SizesAre();
    RulesAre(r);
    SymbolsAre(r, k);
    Symbols1(r, k);
  }

  lemma VanishesAre(r: int)
    requires IsRule(TABLES, r) && Vanish(TABLES, LOOKAHEAD, r, 0, |TABLES.rhs[r]|)
    ensures Nullable(LOOKAHEAD, TABLES.r1[r])
  {
    hide IsRule, LengthAt, R1At, NullableAt, Nullable, VanishAt, Vanish;
    RulesAre(r);
    VanishIs(r, 0, LengthAt(r));
    Vanishes1(r);
    LookaheadIs(R1At(r), 0);
  }

  lemma StartsAre(r: int, j: int, b: int)
    requires IsRule(TABLES, r) && 0 <= j < |TABLES.rhs[r]| && Begins(TABLES, LOOKAHEAD, r, 0, j, b)
    ensures First(TABLES, LOOKAHEAD, TABLES.r1[r], b)
  {
    hide IsRule, LengthAt, R1At, SymbolAt, StartsAt, First, VanishAt, Vanish;
    RulesAre(r);
    SymbolsAre(r, j);
    VanishIs(r, 0, j);
    LookaheadIs(SymbolAt(r, j), b);
    Starts1(r, j, b);
    LookaheadIs(R1At(r), b);
  }

  lemma MeetsAre(r: int, i: int, j: int, b: int)
    requires IsRule(TABLES, r) && 0 < i <= j < |TABLES.rhs[r]| && Begins(TABLES, LOOKAHEAD, r, i, j, b)
    ensures Follow(TABLES, LOOKAHEAD, TABLES.rhs[r][i - 1], b)
  {
    hide IsRule, LengthAt, SymbolAt, StartsAt, First, VanishAt, Vanish, Follow, FollowsAt;
    RulesAre(r);
    SymbolsAre(r, j);
    SymbolsAre(r, i - 1);
    VanishIs(r, i, j);
    LookaheadIs(SymbolAt(r, j), b);
    Meets1(r, i, j, b);
    LookaheadIs(SymbolAt(r, i - 1), b);
  }

  lemma ClosesAre(r: int, i: int, b: int)
    requires IsRule(TABLES, r) && 0 < i <= |TABLES.rhs[r]| && Passes(TABLES, LOOKAHEAD, r, i, b)
    ensures Follow(TABLES, LOOKAHEAD, TABLES.rhs[r][i - 1], b)
  {
    hide LengthAt, R1At, SymbolAt, VanishAt, Vanish, FollowAt;
    RulesAre(r);
    SymbolsAre(r, i - 1);
    VanishIs(r, i, LengthAt(r));
    LookaheadIs(R1At(r), b);
    SizesAre();
    Closes1(r, i, b);
    LookaheadIs(SymbolAt(r, i - 1), b);
  }

  lemma GrammarIs()
    ensures SymbolsOk(TABLES) && FirstsOk(TABLES, LOOKAHEAD) && FollowsOk(TABLES, LOOKAHEAD)
  {
    hide IsNonterminal, Vanish, Begins, Passes, Nullable, First, Follow, Start;
    forall r, k | IsRule(TABLES, r) && 0 <= k < |TABLES.rhs[r]|
      ensures 0 < TABLES.rhs[r][k] < TABLES.ntBase + |TABLES.pgoto|
    {
      SymbolsOkAre(r, k);
    }
    forall r | IsRule(TABLES, r) && Vanish(TABLES, LOOKAHEAD, r, 0, |TABLES.rhs[r]|)
      ensures Nullable(LOOKAHEAD, TABLES.r1[r])
    {
      VanishesAre(r);
    }
    forall r, j, b | IsRule(TABLES, r) && 0 <= j < |TABLES.rhs[r]| && Begins(TABLES, LOOKAHEAD, r, 0, j, b)
      ensures First(TABLES, LOOKAHEAD, TABLES.r1[r], b)
    {
      StartsAre(r, j, b);
    }
    forall r, i, j, b | IsRule(TABLES, r) && 0 < i <= j < |TABLES.rhs[r]| && Begins(TABLES, LOOKAHEAD, r, i, j, b)
      ensures Follow(TABLES, LOOKAHEAD, TABLES.rhs[r][i - 1], b)
    {
      MeetsAre(r, i, j, b);
    }
    forall r, i, b | IsRule(TABLES, r) && 0 < i <= |TABLES.rhs[r]| && Passes(TABLES, LOOKAHEAD, r, i, b)
      ensures Follow(TABLES, LOOKAHEAD, TABLES.rhs[r][i - 1], b)
    {
      ClosesAre(r, i, b);
    }
    EndFollows();
  }

  lemma EndFollows()
    ensures Follow(TABLES, LOOKAHEAD, Start(TABLES), YYEOF)
    ensures Item(CERT, 0, 0, 0)
  {
  }

  /** The tables pass the check for completeness. */
  lemma TablesComplete()
    ensures Complete(TABLES, CERT, LOOKAHEAD) == true
  {
    hide IsState, IsNonterminal, Item, Fits, Follow, AdvanceOk, Lookup, Barred, SymbolsOk, FirstsOk, FollowsOk, Start;
    GrammarIs();
    EndFollows();
    forall s, r, k | IsState(TABLES, s) && Item(CERT, s, r, k) && 0 <= r < |TABLES.rhs| && 0 <= k < |TABLES.rhs[r]|
      ensures AdvanceOk(TABLES, CERT, s, r, k)
    {
      AdvancesAre(s, r, k);
    }
    forall s, r, k, q | IsState(TABLES, s) && Item(CERT, s, r, k)
      ensures Fits(TABLES, LOOKAHEAD, r, k, q) ==> Item(CERT, s, q, 0)
      ensures IsRule(TABLES, q) && Barred(LOOKAHEAD, r, k, q) ==> !Item(CERT, s, q, 0)
    {
      PredictsAre(s, r, k, q);
    }
    forall s, r, a | IsState(TABLES, s) && IsRule(TABLES, r) && Item(CERT, s, r, |TABLES.rhs[r]|)
                     && Follow(TABLES, LOOKAHEAD, TABLES.r1[r], a)
      ensures Lookup(TABLES, s, a) == Reduce(r)
    {
      ReducesAre(s, r, a);
    }
    forall q ensures !Barred(LOOKAHEAD, 0, 0, q) {
      BarredIs(0, 0, q);
    }
  }
}
