/** The lookahead of the directive grammar, and the proof that the tables of src/analyzer/direc-tab.cc
    act on it: every file without an error is accepted. */
module DirecLookahead {
  import opened LrTables
  import opened LrCompleteness
  import opened DirecTables

  // ---- Lookahead ----------------------------------------------------------------------------------

  /** The nonterminals that may stand for nothing. */
  predicate NullableAt(x: int) {
    45 <= x <= 47 || x == 63 || x == 66 || x == 69 || x == 71
  }

  /** The tokens that each nonterminal may begin with. */
  predicate FirstAt(x: int, b: int) {
    match x
    case 45 => b == 1 || 3 <= b <= 17 || b == 19 || b == 22 || b == 25 || b == 28 || b == 32 || b == 39
    case 47 => b == 1 || 3 <= b <= 17 || b == 19 || b == 22 || b == 25 || b == 28 || b == 32 || b == 39
    case 48 => b == 1 || 3 <= b <= 17 || b == 19 || b == 22 || b == 25 || b == 28 || b == 32 || b == 39
    case 49 => b == 1 || 3 <= b <= 17 || b == 19 || b == 22 || b == 25 || b == 28 || b == 32 || b == 39
    case 50 => b == 1 || 3 <= b <= 17 || b == 19 || b == 22 || b == 25 || b == 28 || b == 32
    case 51 => b == 3
    case 52 => b == 3
    case 53 => b == 4
    case 54 => b == 4
    case 55 => 8 <= b <= 17
    case 56 => 8 <= b <= 17
    case 57 => 13 <= b <= 16
    case 58 => b == 8 || b == 9 || b == 12
    case 59 => b == 10 || b == 11 || b == 17
    case 60 => 8 <= b <= 17
    case 61 => b == 5 || b == 22
    case 62 => b == 20 || b == 21 || b == 26 || b == 27 || b == 37
    case 63 => b == 24 || b == 36 || b == 38 || b == 44
    case 64 => b == 24 || b == 36 || b == 38 || b == 44
    case 65 => b == 24 || b == 36 || b == 38 || b == 44
    case 66 => b == 43
    case 67 => b == 17
    case 68 => b == 19
    case 69 => b == 41
    case 70 => b == 20 || b == 21 || b == 26 || b == 27 || b == 37
    case _ => false
  }

  /** The tokens that may follow each nonterminal, 0 for the end of input. */
  predicate FollowAt(x: int, b: int) {
    match x
    case 45 => b == 0
    case 46 => b == 0 || b == 1 || 3 <= b <= 17 || b == 19 || b == 22 || b == 25 || b == 28 || b == 32 || b == 39
    case 47 => b == 0
    case 48 => b == 0 || b == 39
    case 49 => b == 0 || b == 1 || 3 <= b <= 17 || b == 19 || b == 22 || b == 25 || b == 28 || b == 32 || b == 39
    case 50 => b == 0 || b == 39
    case 51 => b == 0 || b == 35 || b == 39
    case 52 => b == 35
    case 53 => b == 0 || b == 35 || b == 39
    case 54 => b == 35
    case 55 => b == 0 || b == 20 || b == 21 || b == 26 || b == 27 || b == 37 || b == 39 || b == 43
    case 56 => b == 20 || b == 21 || b == 26 || b == 27 || b == 37 || b == 43
    case 57 => b == 0 || b == 8 || b == 9 || b == 12 || b == 40
    case 58 => b == 0 || 13 <= b <= 16 || b == 40
    case 59 => b == 0 || b == 40
    case 60 => b == 0 || b == 40
    case 61 => b == 0 || b == 21 || b == 39
    case 62 => b == 0 || b == 21 || b == 39
    case 63 => b == 42
    case 64 => b == 42 || b == 43
    case 65 => b == 42 || b == 43
    case 66 => b == 42 || b == 43
    case 67 => b == 0 || b == 20 || b == 21 || b == 26 || b == 27 || b == 37 || b == 39
    case 68 => b == 0 || b == 20 || b == 21 || b == 26 || b == 27 || b == 37 || b == 39
    case 69 => b == 21
    case 70 => b == 0 || b == 20 || b == 21 || b == 23 || b == 26 || b == 27 || b == 37 || b == 39 || b == 41 || b == 43
    case 71 => b == 20 || b == 21 || b == 26 || b == 27 || b == 35 || b == 37 || b == 41
    case _ => false
  }

  predicate StartsAt(x: int, b: int) {
    if x < 45 then b == x else FirstAt(x, b)
  }

  predicate FollowsAt(x: int, b: int) {
    x < 45 || FollowAt(x, b)
  }

  /** The grammar has no ambiguity to resolve. */
  predicate BarredAt(r: int, k: int, q: int) {
    false
  }

  const LOOKAHEAD: Lookahead := Lookahead(NullableAt, FirstAt, FollowAt, BarredAt)

  // ---- The local check, unpacked --------------------------------------------------------------------

  function NextAt(s: int, x: int): int {
    if x < 45 then ActionAt(s, x) else GotoAt(s, x)
  }

  predicate AdvanceAt(s: int, r: int, k: int) {
    var x := SymbolAt(r, k);
    0 <= x < 72 && 0 < NextAt(s, x) < 126 && ItemAt(NextAt(s, x), r, k + 1)
  }

  lemma Advances1x0(s: int, r: int, k: int)
    requires s == 1 && 0 <= r < 13 && ItemAt(s, r, k) == true && 0 <= k < LengthAt(r)
    ensures AdvanceAt(s, r, k) == true
  {
  }

  lemma Advances1x13(s: int, r: int, k: int)
    requires s == 1 && 13 <= r < 23 && ItemAt(s, r, k) == true && 0 <= k < LengthAt(r)
    ensures AdvanceAt(s, r, k) == true
  {
  }

  lemma Advances1x23(s: int, r: int, k: int)
    requires s == 1 && 23 <= r < 33 && ItemAt(s, r, k) == true && 0 <= k < LengthAt(r)
    ensures AdvanceAt(s, r, k) == true
  {
  }

  lemma Advances1x33(s: int, r: int, k: int)
    requires s == 1 && 33 <= r < 43 && ItemAt(s, r, k) == true && 0 <= k < LengthAt(r)
    ensures AdvanceAt(s, r, k) == true
  {
  }

  lemma Advances1x43(s: int, r: int, k: int)
    requires s == 1 && 43 <= r < 64 && ItemAt(s, r, k) == true && 0 <= k < LengthAt(r)
    ensures AdvanceAt(s, r, k) == true
  {
  }

  lemma Advances1x64(s: int, r: int, k: int)
    requires s == 1 && 64 <= r < 79 && ItemAt(s, r, k) == true && 0 <= k < LengthAt(r)
    ensures AdvanceAt(s, r, k) == true
  {
  }

  lemma Advances1(s: int, r: int, k: int)
    requires s == 1 && ItemAt(s, r, k) == true && 0 <= k < LengthAt(r)
    ensures AdvanceAt(s, r, k) == true
  {
    hide ItemAt, LengthAt, AdvanceAt;
    RuleOf(s, r, k);
    if r < 13 {
      Advances1x0(s, r, k);
    } else if r < 23 {
      Advances1x13(s, r, k);
    } else if r < 33 {
      Advances1x23(s, r, k);
    } else if r < 43 {
      Advances1x33(s, r, k);
    } else if r < 64 {
      Advances1x43(s, r, k);
    } else {
      Advances1x64(s, r, k);
    }
  }

  lemma Advances26x0(s: int, r: int, k: int)
    requires s == 26 && 0 <= r < 19 && ItemAt(s, r, k) == true && 0 <= k < LengthAt(r)
    ensures AdvanceAt(s, r, k) == true
  {
  }

  lemma Advances26x19(s: int, r: int, k: int)
    requires s == 26 && 19 <= r < 28 && ItemAt(s, r, k) == true && 0 <= k < LengthAt(r)
    ensures AdvanceAt(s, r, k) == true
  {
  }

  lemma Advances26x28(s: int, r: int, k: int)
    requires s == 26 && 28 <= r < 37 && ItemAt(s, r, k) == true && 0 <= k < LengthAt(r)
    ensures AdvanceAt(s, r, k) == true
  {
  }

  lemma Advances26x37(s: int, r: int, k: int)
    requires s == 26 && 37 <= r < 46 && ItemAt(s, r, k) == true && 0 <= k < LengthAt(r)
    ensures AdvanceAt(s, r, k) == true
  {
  }

  lemma Advances26x46(s: int, r: int, k: int)
    requires s == 26 && 46 <= r < 66 && ItemAt(s, r, k) == true && 0 <= k < LengthAt(r)
    ensures AdvanceAt(s, r, k) == true
  {
  }

  lemma Advances26x66(s: int, r: int, k: int)
    requires s == 26 && 66 <= r < 79 && ItemAt(s, r, k) == true && 0 <= k < LengthAt(r)
    ensures AdvanceAt(s, r, k) == true
  {
  }

  lemma Advances26(s: int, r: int, k: int)
    requires s == 26 && ItemAt(s, r, k) == true && 0 <= k < LengthAt(r)
    ensures AdvanceAt(s, r, k) == true
  {
    hide ItemAt, LengthAt, AdvanceAt;
    RuleOf(s, r, k);
    if r < 19 {
      Advances26x0(s, r, k);
    } else if r < 28 {
      Advances26x19(s, r, k);
    } else if r < 37 {
      Advances26x28(s, r, k);
    } else if r < 46 {
      Advances26x37(s, r, k);
    } else if r < 66 {
      Advances26x46(s, r, k);
    } else {
      Advances26x66(s, r, k);
    }
  }

  lemma RuleOf(s: int, r: int, k: int)
    requires 0 <= s < 126 && ItemAt(s, r, k) == true
    ensures 0 <= r < 79
  {
    hide ItemAt, LengthAt, SymbolAt, EntryAt;
    PrefixesFit(s, r, k);
  }

  lemma Advances0(s: int, r: int, k: int)
    requires 0 <= s < 1 && ItemAt(s, r, k) == true && 0 <= k < LengthAt(r)
    ensures AdvanceAt(s, r, k) == true
  {
  }

  lemma Advances2(s: int, r: int, k: int)
    requires 2 <= s < 7 && ItemAt(s, r, k) == true && 0 <= k < LengthAt(r)
    ensures AdvanceAt(s, r, k) == true
  {
  }

  lemma Advances7(s: int, r: int, k: int)
    requires 7 <= s < 13 && ItemAt(s, r, k) == true && 0 <= k < LengthAt(r)
    ensures AdvanceAt(s, r, k) == true
  {
  }

  lemma Advances13(s: int, r: int, k: int)
    requires 13 <= s < 19 && ItemAt(s, r, k) == true && 0 <= k < LengthAt(r)
    ensures AdvanceAt(s, r, k) == true
  {
  }

  lemma Advances19(s: int, r: int, k: int)
    requires 19 <= s < 25 && ItemAt(s, r, k) == true && 0 <= k < LengthAt(r)
    ensures AdvanceAt(s, r, k) == true
  {
  }

  lemma Advances25(s: int, r: int, k: int)
    requires 25 <= s < 26 && ItemAt(s, r, k) == true && 0 <= k < LengthAt(r)
    ensures AdvanceAt(s, r, k) == true
  {
  }

  lemma Advances27(s: int, r: int, k: int)
    requires 27 <= s < 33 && ItemAt(s, r, k) == true && 0 <= k < LengthAt(r)
    ensures AdvanceAt(s, r, k) == true
  {
  }

  lemma Advances33(s: int, r: int, k: int)
    requires 33 <= s < 34 && ItemAt(s, r, k) == true && 0 <= k < LengthAt(r)
    ensures AdvanceAt(s, r, k) == true
  {
  }

  lemma Advances34(s: int, r: int, k: int)
    requires 34 <= s < 35 && ItemAt(s, r, k) == true && 0 <= k < LengthAt(r)
    ensures AdvanceAt(s, r, k) == true
  {
  }

  lemma Advances35(s: int, r: int, k: int)
    requires 35 <= s < 38 && ItemAt(s, r, k) == true && 0 <= k < LengthAt(r)
    ensures AdvanceAt(s, r, k) == true
  {
  }

  lemma Advances38(s: int, r: int, k: int)
    requires 38 <= s < 39 && ItemAt(s, r, k) == true && 0 <= k < LengthAt(r)
    ensures AdvanceAt(s, r, k) == true
  {
  }

  lemma Advances39(s: int, r: int, k: int)
    requires 39 <= s < 40 && ItemAt(s, r, k) == true && 0 <= k < LengthAt(r)
    ensures AdvanceAt(s, r, k) == true
  {
  }

  lemma Advances40(s: int, r: int, k: int)
    requires 40 <= s < 43 && ItemAt(s, r, k) == true && 0 <= k < LengthAt(r)
    ensures AdvanceAt(s, r, k) == true
  {
  }

  lemma Advances43(s: int, r: int, k: int)
    requires 43 <= s < 50 && ItemAt(s, r, k) == true && 0 <= k < LengthAt(r)
    ensures AdvanceAt(s, r, k) == true
  {
  }

  lemma Advances50(s: int, r: int, k: int)
    requires 50 <= s < 51 && ItemAt(s, r, k) == true && 0 <= k < LengthAt(r)
    ensures AdvanceAt(s, r, k) == true
  {
  }

  lemma Advances51(s: int, r: int, k: int)
    requires 51 <= s < 53 && ItemAt(s, r, k) == true && 0 <= k < LengthAt(r)
    ensures AdvanceAt(s, r, k) == true
  {
  }

  lemma Advances53(s: int, r: int, k: int)
    requires 53 <= s < 59 && ItemAt(s, r, k) == true && 0 <= k < LengthAt(r)
    ensures AdvanceAt(s, r, k) == true
  {
  }

  lemma Advances59(s: int, r: int, k: int)
    requires 59 <= s < 67 && ItemAt(s, r, k) == true && 0 <= k < LengthAt(r)
    ensures AdvanceAt(s, r, k) == true
  {
  }

  lemma Advances67(s: int, r: int, k: int)
    requires 67 <= s < 71 && ItemAt(s, r, k) == true && 0 <= k < LengthAt(r)
    ensures AdvanceAt(s, r, k) == true
  {
  }

  lemma Advances71(s: int, r: int, k: int)
    requires 71 <= s < 73 && ItemAt(s, r, k) == true && 0 <= k < LengthAt(r)
    ensures AdvanceAt(s, r, k) == true
  {
  }

  lemma Advances73(s: int, r: int, k: int)
    requires 73 <= s < 76 && ItemAt(s, r, k) == true && 0 <= k < LengthAt(r)
    ensures AdvanceAt(s, r, k) == true
  {
  }

  lemma Advances76(s: int, r: int, k: int)
    requires 76 <= s < 79 && ItemAt(s, r, k) == true && 0 <= k < LengthAt(r)
    ensures AdvanceAt(s, r, k) == true
  {
  }

  lemma Advances79(s: int, r: int, k: int)
    requires 79 <= s < 80 && ItemAt(s, r, k) == true && 0 <= k < LengthAt(r)
    ensures AdvanceAt(s, r, k) == true
  {
  }

  lemma Advances80(s: int, r: int, k: int)
    requires 80 <= s < 83 && ItemAt(s, r, k) == true && 0 <= k < LengthAt(r)
    ensures AdvanceAt(s, r, k) == true
  {
  }

  lemma Advances83(s: int, r: int, k: int)
    requires 83 <= s < 86 && ItemAt(s, r, k) == true && 0 <= k < LengthAt(r)
    ensures AdvanceAt(s, r, k) == true
  {
  }

  lemma Advances86(s: int, r: int, k: int)
    requires 86 <= s < 93 && ItemAt(s, r, k) == true && 0 <= k < LengthAt(r)
    ensures AdvanceAt(s, r, k) == true
  {
  }

  lemma Advances93(s: int, r: int, k: int)
    requires 93 <= s < 98 && ItemAt(s, r, k) == true && 0 <= k < LengthAt(r)
    ensures AdvanceAt(s, r, k) == true
  {
  }

  lemma Advances98(s: int, r: int, k: int)
    requires 98 <= s < 99 && ItemAt(s, r, k) == true && 0 <= k < LengthAt(r)
    ensures AdvanceAt(s, r, k) == true
  {
  }

  lemma Advances99(s: int, r: int, k: int)
    requires 99 <= s < 101 && ItemAt(s, r, k) == true && 0 <= k < LengthAt(r)
    ensures AdvanceAt(s, r, k) == true
  {
  }

  lemma Advances101(s: int, r: int, k: int)
    requires 101 <= s < 105 && ItemAt(s, r, k) == true && 0 <= k < LengthAt(r)
    ensures AdvanceAt(s, r, k) == true
  {
  }

  lemma Advances105(s: int, r: int, k: int)
    requires 105 <= s < 107 && ItemAt(s, r, k) == true && 0 <= k < LengthAt(r)
    ensures AdvanceAt(s, r, k) == true
  {
  }

  lemma Advances107(s: int, r: int, k: int)
    requires 107 <= s < 114 && ItemAt(s, r, k) == true && 0 <= k < LengthAt(r)
    ensures AdvanceAt(s, r, k) == true
  {
  }

  lemma Advances114(s: int, r: int, k: int)
    requires 114 <= s < 120 && ItemAt(s, r, k) == true && 0 <= k < LengthAt(r)
    ensures AdvanceAt(s, r, k) == true
  {
  }

  lemma Advances120(s: int, r: int, k: int)
    requires 120 <= s < 124 && ItemAt(s, r, k) == true && 0 <= k < LengthAt(r)
    ensures AdvanceAt(s, r, k) == true
  {
  }

  lemma Advances124(s: int, r: int, k: int)
    requires 124 <= s < 126 && ItemAt(s, r, k) == true && 0 <= k < LengthAt(r)
    ensures AdvanceAt(s, r, k) == true
  {
  }

  lemma Predicts2x1(s: int, r: int, k: int, q: int)
    requires 2 <= s < 27 && ItemAt(s, r, k) == true
    requires 0 <= k < LengthAt(r) && 1 <= q < 20 && SymbolAt(r, k) == R1At(q)
    ensures BarredAt(r, k, q) != ItemAt(s, q, 0)
  {
  }

  lemma Predicts2x20(s: int, r: int, k: int, q: int)
    requires 2 <= s < 27 && ItemAt(s, r, k) == true
    requires 0 <= k < LengthAt(r) && 20 <= q < 79 && SymbolAt(r, k) == R1At(q)
    ensures BarredAt(r, k, q) != ItemAt(s, q, 0)
  {
  }

  lemma Predicts2(s: int, r: int, k: int, q: int)
    requires 2 <= s < 27 && ItemAt(s, r, k) == true
    requires 0 <= k < LengthAt(r) && 1 <= q < 79 && SymbolAt(r, k) == R1At(q)
    ensures BarredAt(r, k, q) != ItemAt(s, q, 0)
  {
    hide ItemAt, LengthAt, SymbolAt, R1At, BarredAt;
    if q < 20 {
      Predicts2x1(s, r, k, q);
    } else {
      Predicts2x20(s, r, k, q);
    }
  }

  lemma Predicts0(s: int, r: int, k: int, q: int)
    requires 0 <= s < 1 && ItemAt(s, r, k) == true
    requires 0 <= k < LengthAt(r) && 1 <= q < 79 && SymbolAt(r, k) == R1At(q)
    ensures BarredAt(r, k, q) != ItemAt(s, q, 0)
  {
  }

  lemma Predicts1(s: int, r: int, k: int, q: int)
    requires 1 <= s < 2 && ItemAt(s, r, k) == true
    requires 0 <= k < LengthAt(r) && 1 <= q < 79 && SymbolAt(r, k) == R1At(q)
    ensures BarredAt(r, k, q) != ItemAt(s, q, 0)
  {
  }

  lemma Predicts27(s: int, r: int, k: int, q: int)
    requires 27 <= s < 33 && ItemAt(s, r, k) == true
    requires 0 <= k < LengthAt(r) && 1 <= q < 79 && SymbolAt(r, k) == R1At(q)
    ensures BarredAt(r, k, q) != ItemAt(s, q, 0)
  {
  }

  lemma Predicts33(s: int, r: int, k: int, q: int)
    requires 33 <= s < 38 && ItemAt(s, r, k) == true
    requires 0 <= k < LengthAt(r) && 1 <= q < 79 && SymbolAt(r, k) == R1At(q)
    ensures BarredAt(r, k, q) != ItemAt(s, q, 0)
  {
  }

  lemma Predicts38(s: int, r: int, k: int, q: int)
    requires 38 <= s < 45 && ItemAt(s, r, k) == true
    requires 0 <= k < LengthAt(r) && 1 <= q < 79 && SymbolAt(r, k) == R1At(q)
    ensures BarredAt(r, k, q) != ItemAt(s, q, 0)
  {
  }

  lemma Predicts45(s: int, r: int, k: int, q: int)
    requires 45 <= s < 52 && ItemAt(s, r, k) == true
    requires 0 <= k < LengthAt(r) && 1 <= q < 79 && SymbolAt(r, k) == R1At(q)
    ensures BarredAt(r, k, q) != ItemAt(s, q, 0)
  {
  }

  lemma Predicts52(s: int, r: int, k: int, q: int)
    requires 52 <= s < 60 && ItemAt(s, r, k) == true
    requires 0 <= k < LengthAt(r) && 1 <= q < 79 && SymbolAt(r, k) == R1At(q)
    ensures BarredAt(r, k, q) != ItemAt(s, q, 0)
  {
  }

  lemma Predicts60(s: int, r: int, k: int, q: int)
    requires 60 <= s < 72 && ItemAt(s, r, k) == true
    requires 0 <= k < LengthAt(r) && 1 <= q < 79 && SymbolAt(r, k) == R1At(q)
    ensures BarredAt(r, k, q) != ItemAt(s, q, 0)
  {
  }

  lemma Predicts72(s: int, r: int, k: int, q: int)
    requires 72 <= s < 79 && ItemAt(s, r, k) == true
    requires 0 <= k < LengthAt(r) && 1 <= q < 79 && SymbolAt(r, k) == R1At(q)
    ensures BarredAt(r, k, q) != ItemAt(s, q, 0)
  {
  }

  lemma Predicts79(s: int, r: int, k: int, q: int)
    requires 79 <= s < 85 && ItemAt(s, r, k) == true
    requires 0 <= k < LengthAt(r) && 1 <= q < 79 && SymbolAt(r, k) == R1At(q)
    ensures BarredAt(r, k, q) != ItemAt(s, q, 0)
  {
  }

  lemma Predicts85(s: int, r: int, k: int, q: int)
    requires 85 <= s < 93 && ItemAt(s, r, k) == true
    requires 0 <= k < LengthAt(r) && 1 <= q < 79 && SymbolAt(r, k) == R1At(q)
    ensures BarredAt(r, k, q) != ItemAt(s, q, 0)
  {
  }

  lemma Predicts93(s: int, r: int, k: int, q: int)
    requires 93 <= s < 99 && ItemAt(s, r, k) == true
    requires 0 <= k < LengthAt(r) && 1 <= q < 79 && SymbolAt(r, k) == R1At(q)
    ensures BarredAt(r, k, q) != ItemAt(s, q, 0)
  {
  }

  lemma Predicts99(s: int, r: int, k: int, q: int)
    requires 99 <= s < 105 && ItemAt(s, r, k) == true
    requires 0 <= k < LengthAt(r) && 1 <= q < 79 && SymbolAt(r, k) == R1At(q)
    ensures BarredAt(r, k, q) != ItemAt(s, q, 0)
  {
  }

  lemma Predicts105(s: int, r: int, k: int, q: int)
    requires 105 <= s < 111 && ItemAt(s, r, k) == true
    requires 0 <= k < LengthAt(r) && 1 <= q < 79 && SymbolAt(r, k) == R1At(q)
    ensures BarredAt(r, k, q) != ItemAt(s, q, 0)
  {
  }

  lemma Predicts111(s: int, r: int, k: int, q: int)
    requires 111 <= s < 126 && ItemAt(s, r, k) == true
    requires 0 <= k < LengthAt(r) && 1 <= q < 79 && SymbolAt(r, k) == R1At(q)
    ensures BarredAt(r, k, q) != ItemAt(s, q, 0)
  {
  }

  lemma Reduces0(s: int, r: int, a: int)
    requires 0 <= s < 8 && 1 <= r < 79 && ItemAt(s, r, LengthAt(r)) == true
    requires FollowAt(R1At(r), a) == true
    ensures ActionAt(s, a) == -r
  {
  }

  lemma Reduces8(s: int, r: int, a: int)
    requires 8 <= s < 14 && 1 <= r < 79 && ItemAt(s, r, LengthAt(r)) == true
    requires FollowAt(R1At(r), a) == true
    ensures ActionAt(s, a) == -r
  {
  }

  lemma Reduces14(s: int, r: int, a: int)
    requires 14 <= s < 22 && 1 <= r < 79 && ItemAt(s, r, LengthAt(r)) == true
    requires FollowAt(R1At(r), a) == true
    ensures ActionAt(s, a) == -r
  {
  }

  lemma Reduces22(s: int, r: int, a: int)
    requires 22 <= s < 27 && 1 <= r < 79 && ItemAt(s, r, LengthAt(r)) == true
    requires FollowAt(R1At(r), a) == true
    ensures ActionAt(s, a) == -r
  {
  }

  lemma Reduces27(s: int, r: int, a: int)
    requires 27 <= s < 30 && 1 <= r < 79 && ItemAt(s, r, LengthAt(r)) == true
    requires FollowAt(R1At(r), a) == true
    ensures ActionAt(s, a) == -r
  {
  }

  lemma Reduces30(s: int, r: int, a: int)
    requires 30 <= s < 34 && 1 <= r < 79 && ItemAt(s, r, LengthAt(r)) == true
    requires FollowAt(R1At(r), a) == true
    ensures ActionAt(s, a) == -r
  {
  }

  lemma Reduces34(s: int, r: int, a: int)
    requires 34 <= s < 38 && 1 <= r < 79 && ItemAt(s, r, LengthAt(r)) == true
    requires FollowAt(R1At(r), a) == true
    ensures ActionAt(s, a) == -r
  {
  }

  lemma Reduces38(s: int, r: int, a: int)
    requires 38 <= s < 42 && 1 <= r < 79 && ItemAt(s, r, LengthAt(r)) == true
    requires FollowAt(R1At(r), a) == true
    ensures ActionAt(s, a) == -r
  {
  }

  lemma Reduces42(s: int, r: int, a: int)
    requires 42 <= s < 47 && 1 <= r < 79 && ItemAt(s, r, LengthAt(r)) == true
    requires FollowAt(R1At(r), a) == true
    ensures ActionAt(s, a) == -r
  {
  }

  lemma Reduces47(s: int, r: int, a: int)
    requires 47 <= s < 53 && 1 <= r < 79 && ItemAt(s, r, LengthAt(r)) == true
    requires FollowAt(R1At(r), a) == true
    ensures ActionAt(s, a) == -r
  {
  }

  lemma Reduces53(s: int, r: int, a: int)
    requires 53 <= s < 61 && 1 <= r < 79 && ItemAt(s, r, LengthAt(r)) == true
    requires FollowAt(R1At(r), a) == true
    ensures ActionAt(s, a) == -r
  {
  }

  lemma Reduces61(s: int, r: int, a: int)
    requires 61 <= s < 65 && 1 <= r < 79 && ItemAt(s, r, LengthAt(r)) == true
    requires FollowAt(R1At(r), a) == true
    ensures ActionAt(s, a) == -r
  {
  }

  lemma Reduces65(s: int, r: int, a: int)
    requires 65 <= s < 69 && 1 <= r < 79 && ItemAt(s, r, LengthAt(r)) == true
    requires FollowAt(R1At(r), a) == true
    ensures ActionAt(s, a) == -r
  {
  }

  lemma Reduces69(s: int, r: int, a: int)
    requires 69 <= s < 75 && 1 <= r < 79 && ItemAt(s, r, LengthAt(r)) == true
    requires FollowAt(R1At(r), a) == true
    ensures ActionAt(s, a) == -r
  {
  }

  lemma Reduces75(s: int, r: int, a: int)
    requires 75 <= s < 82 && 1 <= r < 79 && ItemAt(s, r, LengthAt(r)) == true
    requires FollowAt(R1At(r), a) == true
    ensures ActionAt(s, a) == -r
  {
  }

  lemma Reduces82(s: int, r: int, a: int)
    requires 82 <= s < 88 && 1 <= r < 79 && ItemAt(s, r, LengthAt(r)) == true
    requires FollowAt(R1At(r), a) == true
    ensures ActionAt(s, a) == -r
  {
  }

  lemma Reduces88(s: int, r: int, a: int)
    requires 88 <= s < 94 && 1 <= r < 79 && ItemAt(s, r, LengthAt(r)) == true
    requires FollowAt(R1At(r), a) == true
    ensures ActionAt(s, a) == -r
  {
  }

  lemma Reduces94(s: int, r: int, a: int)
    requires 94 <= s < 98 && 1 <= r < 79 && ItemAt(s, r, LengthAt(r)) == true
    requires FollowAt(R1At(r), a) == true
    ensures ActionAt(s, a) == -r
  {
  }

  lemma Reduces98(s: int, r: int, a: int)
    requires 98 <= s < 106 && 1 <= r < 79 && ItemAt(s, r, LengthAt(r)) == true
    requires FollowAt(R1At(r), a) == true
    ensures ActionAt(s, a) == -r
  {
  }

  lemma Reduces106(s: int, r: int, a: int)
    requires 106 <= s < 112 && 1 <= r < 79 && ItemAt(s, r, LengthAt(r)) == true
    requires FollowAt(R1At(r), a) == true
    ensures ActionAt(s, a) == -r
  {
  }

  lemma Reduces112(s: int, r: int, a: int)
    requires 112 <= s < 118 && 1 <= r < 79 && ItemAt(s, r, LengthAt(r)) == true
    requires FollowAt(R1At(r), a) == true
    ensures ActionAt(s, a) == -r
  {
  }

  lemma Reduces118(s: int, r: int, a: int)
    requires 118 <= s < 126 && 1 <= r < 79 && ItemAt(s, r, LengthAt(r)) == true
    requires FollowAt(R1At(r), a) == true
    ensures ActionAt(s, a) == -r
  {
  }

  lemma Symbols1(r: int, k: int)
    requires 1 <= r < 79 && 0 <= k < LengthAt(r)
    ensures 0 < SymbolAt(r, k) < 72
  {
  }

  /** The symbols from `i` to `j` of a rule may all stand for nothing. */
  ghost predicate VanishAt(r: int, i: int, j: int) {
    forall m | i <= m < j :: NullableAt(SymbolAt(r, m))
  }

  lemma Vanishes1(r: int)
    requires 1 <= r < 40 && VanishAt(r, 0, LengthAt(r))
    ensures NullableAt(R1At(r)) == true
  {
    assert 0 < LengthAt(r) ==> NullableAt(SymbolAt(r, 0));
    assert 1 < LengthAt(r) ==> NullableAt(SymbolAt(r, 1));
  }

  lemma Vanishes40(r: int)
    requires 40 <= r < 79 && VanishAt(r, 0, LengthAt(r))
    ensures NullableAt(R1At(r)) == true
  {
    assert 0 < LengthAt(r) ==> NullableAt(SymbolAt(r, 0));
    assert 1 < LengthAt(r) ==> NullableAt(SymbolAt(r, 1));
  }

  lemma Starts1(r: int, j: int, b: int)
    requires 1 <= r < 40 && 0 <= j < LengthAt(r) && VanishAt(r, 0, j) && StartsAt(SymbolAt(r, j), b)
    ensures StartsAt(R1At(r), b) == true
  {
    assert 0 < j ==> NullableAt(SymbolAt(r, 0));
    assert 1 < j ==> NullableAt(SymbolAt(r, 1));
  }

  lemma Starts40(r: int, j: int, b: int)
    requires 40 <= r < 79 && 0 <= j < LengthAt(r) && VanishAt(r, 0, j) && StartsAt(SymbolAt(r, j), b)
    ensures StartsAt(R1At(r), b) == true
  {
    assert 0 < j ==> NullableAt(SymbolAt(r, 0));
    assert 1 < j ==> NullableAt(SymbolAt(r, 1));
  }

  lemma Meets1(r: int, i: int, j: int, b: int)
    requires 1 <= r < 40 && 0 < i <= j < LengthAt(r) && VanishAt(r, i, j) && StartsAt(SymbolAt(r, j), b)
    ensures FollowsAt(SymbolAt(r, i - 1), b) == true
  {
    assert i < j ==> NullableAt(SymbolAt(r, i));
    assert i + 1 < j ==> NullableAt(SymbolAt(r, i + 1));
  }

  lemma Meets40(r: int, i: int, j: int, b: int)
    requires 40 <= r < 79 && 0 < i <= j < LengthAt(r) && VanishAt(r, i, j) && StartsAt(SymbolAt(r, j), b)
    ensures FollowsAt(SymbolAt(r, i - 1), b) == true
  {
    assert i < j ==> NullableAt(SymbolAt(r, i));
    assert i + 1 < j ==> NullableAt(SymbolAt(r, i + 1));
  }

  lemma Closes1(r: int, i: int, b: int)
    requires 1 <= r < 40 && 0 < i <= LengthAt(r) && VanishAt(r, i, LengthAt(r)) && FollowAt(R1At(r), b)
    ensures FollowsAt(SymbolAt(r, i - 1), b) == true
  {
    assert i < LengthAt(r) ==> NullableAt(SymbolAt(r, i));
    assert i + 1 < LengthAt(r) ==> NullableAt(SymbolAt(r, i + 1));
  }

  lemma Closes40(r: int, i: int, b: int)
    requires 40 <= r < 79 && 0 < i <= LengthAt(r) && VanishAt(r, i, LengthAt(r)) && FollowAt(R1At(r), b)
    ensures FollowsAt(SymbolAt(r, i - 1), b) == true
  {
    assert i < LengthAt(r) ==> NullableAt(SymbolAt(r, i));
    assert i + 1 < LengthAt(r) ==> NullableAt(SymbolAt(r, i + 1));
  }

  // ---- The packed tables pass the check -------------------------------------------------------------

  lemma AdvancesFit(s: int, r: int, k: int)
    requires 0 <= s < 126 && ItemAt(s, r, k) == true && 0 <= k < LengthAt(r)
    ensures AdvanceAt(s, r, k) == true
  {
    hide ItemAt, LengthAt, AdvanceAt;
    if s < 1 {
      Advances0(s, r, k);
    } else if s < 2 {
      Advances1(s, r, k);
    } else if s < 7 {
      Advances2(s, r, k);
    } else if s < 13 {
      Advances7(s, r, k);
    } else if s < 19 {
      Advances13(s, r, k);
    } else if s < 25 {
      Advances19(s, r, k);
    } else if s < 26 {
      Advances25(s, r, k);
    } else if s < 27 {
      Advances26(s, r, k);
    } else if s < 33 {
      Advances27(s, r, k);
    } else if s < 34 {
      Advances33(s, r, k);
    } else if s < 35 {
      Advances34(s, r, k);
    } else if s < 38 {
      Advances35(s, r, k);
    } else if s < 39 {
      Advances38(s, r, k);
    } else if s < 40 {
      Advances39(s, r, k);
    } else if s < 43 {
      Advances40(s, r, k);
    } else if s < 50 {
      Advances43(s, r, k);
    } else if s < 51 {
      Advances50(s, r, k);
    } else if s < 53 {
      Advances51(s, r, k);
    } else if s < 59 {
      Advances53(s, r, k);
    } else if s < 67 {
      Advances59(s, r, k);
    } else if s < 71 {
      Advances67(s, r, k);
    } else if s < 73 {
      Advances71(s, r, k);
    } else if s < 76 {
      Advances73(s, r, k);
    } else if s < 79 {
      Advances76(s, r, k);
    } else if s < 80 {
      Advances79(s, r, k);
    } else if s < 83 {
      Advances80(s, r, k);
    } else if s < 86 {
      Advances83(s, r, k);
    } else if s < 93 {
      Advances86(s, r, k);
    } else if s < 98 {
      Advances93(s, r, k);
    } else if s < 99 {
      Advances98(s, r, k);
    } else if s < 101 {
      Advances99(s, r, k);
    } else if s < 105 {
      Advances101(s, r, k);
    } else if s < 107 {
      Advances105(s, r, k);
    } else if s < 114 {
      Advances107(s, r, k);
    } else if s < 120 {
      Advances114(s, r, k);
    } else if s < 124 {
      Advances120(s, r, k);
    } else {
      Advances124(s, r, k);
    }
  }

  lemma PredictsFit(s: int, r: int, k: int, q: int)
    requires 0 <= s < 126 && ItemAt(s, r, k) == true && 0 <= k < LengthAt(r) && 1 <= q < 79 && SymbolAt(r, k) == R1At(q)
    ensures BarredAt(r, k, q) != ItemAt(s, q, 0)
  {
    hide ItemAt, LengthAt, SymbolAt, R1At, BarredAt;
    if s < 1 {
      Predicts0(s, r, k, q);
    } else if s < 2 {
      Predicts1(s, r, k, q);
    } else if s < 27 {
      Predicts2(s, r, k, q);
    } else if s < 33 {
      Predicts27(s, r, k, q);
    } else if s < 38 {
      Predicts33(s, r, k, q);
    } else if s < 45 {
      Predicts38(s, r, k, q);
    } else if s < 52 {
      Predicts45(s, r, k, q);
    } else if s < 60 {
      Predicts52(s, r, k, q);
    } else if s < 72 {
      Predicts60(s, r, k, q);
    } else if s < 79 {
      Predicts72(s, r, k, q);
    } else if s < 85 {
      Predicts79(s, r, k, q);
    } else if s < 93 {
      Predicts85(s, r, k, q);
    } else if s < 99 {
      Predicts93(s, r, k, q);
    } else if s < 105 {
      Predicts99(s, r, k, q);
    } else if s < 111 {
      Predicts105(s, r, k, q);
    } else {
      Predicts111(s, r, k, q);
    }
  }

  lemma ReducesFit(s: int, r: int, a: int)
    requires 0 <= s < 126 && 1 <= r < 79 && ItemAt(s, r, LengthAt(r)) == true && FollowAt(R1At(r), a) == true
    ensures ActionAt(s, a) == -r
  {
    hide ItemAt, LengthAt, R1At, FollowAt, ActionAt;
    if s < 8 {
      Reduces0(s, r, a);
    } else if s < 14 {
      Reduces8(s, r, a);
    } else if s < 22 {
      Reduces14(s, r, a);
    } else if s < 27 {
      Reduces22(s, r, a);
    } else if s < 30 {
      Reduces27(s, r, a);
    } else if s < 34 {
      Reduces30(s, r, a);
    } else if s < 38 {
      Reduces34(s, r, a);
    } else if s < 42 {
      Reduces38(s, r, a);
    } else if s < 47 {
      Reduces42(s, r, a);
    } else if s < 53 {
      Reduces47(s, r, a);
    } else if s < 61 {
      Reduces53(s, r, a);
    } else if s < 65 {
      Reduces61(s, r, a);
    } else if s < 69 {
      Reduces65(s, r, a);
    } else if s < 75 {
      Reduces69(s, r, a);
    } else if s < 82 {
      Reduces75(s, r, a);
    } else if s < 88 {
      Reduces82(s, r, a);
    } else if s < 94 {
      Reduces88(s, r, a);
    } else if s < 98 {
      Reduces94(s, r, a);
    } else if s < 106 {
      Reduces98(s, r, a);
    } else if s < 112 {
      Reduces106(s, r, a);
    } else if s < 118 {
      Reduces112(s, r, a);
    } else {
      Reduces118(s, r, a);
    }
  }

  lemma VanishesFit(r: int)
    requires 1 <= r < 79 && VanishAt(r, 0, LengthAt(r))
    ensures NullableAt(R1At(r)) == true
  {
    hide VanishAt, LengthAt, R1At, NullableAt;
    if r < 40 {
      Vanishes1(r);
    } else {
      Vanishes40(r);
    }
  }

  lemma StartsFit(r: int, j: int, b: int)
    requires 1 <= r < 79 && 0 <= j < LengthAt(r) && VanishAt(r, 0, j) && StartsAt(SymbolAt(r, j), b)
    ensures StartsAt(R1At(r), b) == true
  {
    hide VanishAt, LengthAt, SymbolAt, R1At, StartsAt;
    if r < 40 {
      Starts1(r, j, b);
    } else {
      Starts40(r, j, b);
    }
  }

  lemma MeetsFit(r: int, i: int, j: int, b: int)
    requires 1 <= r < 79 && 0 < i <= j < LengthAt(r) && VanishAt(r, i, j) && StartsAt(SymbolAt(r, j), b)
    ensures FollowsAt(SymbolAt(r, i - 1), b) == true
  {
    hide VanishAt, LengthAt, SymbolAt, StartsAt, FollowsAt;
    if r < 40 {
      Meets1(r, i, j, b);
    } else {
      Meets40(r, i, j, b);
    }
  }

  lemma ClosesFit(r: int, i: int, b: int)
    requires 1 <= r < 79 && 0 < i <= LengthAt(r) && VanishAt(r, i, LengthAt(r)) && FollowAt(R1At(r), b)
    ensures FollowsAt(SymbolAt(r, i - 1), b) == true
  {
    hide VanishAt, LengthAt, SymbolAt, R1At, FollowAt, FollowsAt;
    if r < 40 {
      Closes1(r, i, b);
    } else {
      Closes40(r, i, b);
    }
  }

  lemma SizesAre()
    ensures |TABLES.rhs| == 79 && TABLES.ntBase == 45 && |TABLES.pgoto| == 27 && TABLES.final == 126
  {
  }

  lemma GotoIsFor(s: int, x: int)
    requires 0 <= s < 126 && 45 <= x < 72
    ensures IsNonterminal(TABLES, x) && Goto(TABLES, s, x) == GotoAt(s, x)
  {
  }

  lemma LookaheadIs(x: int, b: int)
    ensures Nullable(LOOKAHEAD, x) == NullableAt(x)
    ensures First(TABLES, LOOKAHEAD, x, b) == StartsAt(x, b)
    ensures Follow(TABLES, LOOKAHEAD, x, b) == FollowsAt(x, b)
  {
  }

  lemma BarredIs(r: int, k: int, q: int)
    ensures Barred(LOOKAHEAD, r, k, q) == BarredAt(r, k, q)
  {
  }

  lemma AdvancesAre(s: int, r: int, k: int)
    requires IsState(TABLES, s) && Item(CERT, s, r, k) && 0 <= r < |TABLES.rhs| && 0 <= k < |TABLES.rhs[r]|
    ensures AdvanceOk(TABLES, CERT, s, r, k)
  {
    hide ItemAt, LengthAt, SymbolAt, ActionAt, GotoAt, Lookup, Goto, IsState, IsNonterminal, Item;
    SizesAre();
    StatesAre(s);
    RulesAre(r);
    SymbolsAre(r, k);
    ItemIs(s, r, k);
    AdvancesFit(s, r, k);
    var x := SymbolAt(r, k);
    StatesAre(NextAt(s, x));
    ItemIs(NextAt(s, x), r, k + 1);
    if x < 45 {
      LookupIs(s, x);
    } else {
      GotoIsFor(s, x);
    }
  }

  lemma PredictsAre(s: int, r: int, k: int, q: int)
    requires IsState(TABLES, s) && Item(CERT, s, r, k)
    ensures Fits(TABLES, LOOKAHEAD, r, k, q) ==> Item(CERT, s, q, 0)
    ensures IsRule(TABLES, q) && Barred(LOOKAHEAD, r, k, q) ==> !Item(CERT, s, q, 0)
  {
    hide ItemAt, LengthAt, SymbolAt, R1At, IsState, IsRule, Item, Barred;
    SizesAre();
    StatesAre(s);
    ItemIs(s, r, k);
    ItemIs(s, q, 0);
    BarredIs(r, k, q);
    RulesAre(q);
    if Fits(TABLES, LOOKAHEAD, r, k, q) {
      RulesAre(r);
      SymbolsAre(r, k);
      PredictsFit(s, r, k, q);
    }
  }

  lemma ReducesAre(s: int, r: int, a: int)
    requires IsState(TABLES, s) && IsRule(TABLES, r) && Item(CERT, s, r, |TABLES.rhs[r]|)
    requires Follow(TABLES, LOOKAHEAD, TABLES.r1[r], a)
    ensures Lookup(TABLES, s, a) == Reduce(r)
  {
    hide ItemAt, LengthAt, R1At, IsState, Item, ActionAt, Lookup, FollowAt;
    SizesAre();
    StatesAre(s);
    RulesAre(r);
    ItemIs(s, r, LengthAt(r));
    LookaheadIs(R1At(r), a);
    ReducesFit(s, r, a);
    LookupIs(s, a);
  }

  lemma VanishIs(r: int, i: int, j: int)
    requires IsRule(TABLES, r) && 0 <= i && j <= |TABLES.rhs[r]|
    ensures Vanish(TABLES, LOOKAHEAD, r, i, j) ==> VanishAt(r, i, j)
  {
    hide IsRule, LengthAt, SymbolAt, NullableAt, Nullable;
    RulesAre(r);
    if Vanish(TABLES, LOOKAHEAD, r, i, j) {
      forall m | i <= m < j ensures NullableAt(SymbolAt(r, m)) {
        SymbolsAre(r, m);
        LookaheadIs(SymbolAt(r, m), 0);
        assert Nullable(LOOKAHEAD, TABLES.rhs[r][m]);
      }
    }
  }

  lemma SymbolsOkAre(r: int, k: int)
    requires IsRule(TABLES, r) && 0 <= k < |TABLES.rhs[r]|
    ensures 0 < TABLES.rhs[r][k] < TABLES.ntBase + |TABLES.pgoto|
  {
    hide IsRule, LengthAt, SymbolAt;
    SizesAre();
    RulesAre(r);
    SymbolsAre(r, k);
    Symbols1(r, k);
  }

  lemma VanishesAre(r: int)
    requires IsRule(TABLES, r) && Vanish(TABLES, LOOKAHEAD, r, 0, |TABLES.rhs[r]|)
    ensures Nullable(LOOKAHEAD, TABLES.r1[r])
  {
    hide IsRule, LengthAt, R1At, NullableAt, Nullable, VanishAt, Vanish;
    RulesAre(r);
    VanishIs(r, 0, LengthAt(r));
    VanishesFit(r);
    LookaheadIs(R1At(r), 0);
  }

  lemma StartsAre(r: int, j: int, b: int)
    requires IsRule(TABLES, r) && 0 <= j < |TABLES.rhs[r]| && Begins(TABLES, LOOKAHEAD, r, 0, j, b)
    ensures First(TABLES, LOOKAHEAD, TABLES.r1[r], b)
  {
    hide IsRule, LengthAt, R1At, SymbolAt, StartsAt, First, VanishAt, Vanish;
    RulesAre(r);
    SymbolsAre(r, j);
    VanishIs(r, 0, j);
    LookaheadIs(SymbolAt(r, j), b);
    StartsFit(r, j, b);
    LookaheadIs(R1At(r), b);
  }

  lemma MeetsAre(r: int, i: int, j: int, b: int)
    requires IsRule(TABLES, r) && 0 < i <= j < |TABLES.rhs[r]| && Begins(TABLES, LOOKAHEAD, r, i, j, b)
    ensures Follow(TABLES, LOOKAHEAD, TABLES.rhs[r][i - 1], b)
  {
    hide IsRule, LengthAt, SymbolAt, StartsAt, First, VanishAt, Vanish, Follow, FollowsAt;
    RulesAre(r);
    SymbolsAre(r, j);
    SymbolsAre(r, i - 1);
    VanishIs(r, i, j);
    LookaheadIs(SymbolAt(r, j), b);
    MeetsFit(r, i, j, b);
    LookaheadIs(SymbolAt(r, i - 1), b);
  }

  lemma ClosesAre(r: int, i: int, b: int)
    requires IsRule(TABLES, r) && 0 < i <= |TABLES.rhs[r]| && Passes(TABLES, LOOKAHEAD, r, i, b)
    ensures Follow(TABLES, LOOKAHEAD, TABLES.rhs[r][i - 1], b)
  {
    hide LengthAt, R1At, SymbolAt, VanishAt, Vanish, FollowAt;
    RulesAre(r);
    SymbolsAre(r, i - 1);
    VanishIs(r, i, LengthAt(r));
    LookaheadIs(R1At(r), b);
    SizesAre();
    ClosesFit(r, i, b);
    LookaheadIs(SymbolAt(r, i - 1), b);
  }

  lemma GrammarIs()
    ensures SymbolsOk(TABLES) && FirstsOk(TABLES, LOOKAHEAD) && FollowsOk(TABLES, LOOKAHEAD)
  {
    hide IsNonterminal, Vanish, Begins, Passes, Nullable, First, Follow, Start;
    forall r, k | IsRule(TABLES, r) && 0 <= k < |TABLES.rhs[r]|
      ensures 0 < TABLES.rhs[r][k] < TABLES.ntBase + |TABLES.pgoto|
    {
      SymbolsOkAre(r, k);
    }
    forall r | IsRule(TABLES, r) && Vanish(TABLES, LOOKAHEAD, r, 0, |TABLES.rhs[r]|)
      ensures Nullable(LOOKAHEAD, TABLES.r1[r])
    {
      VanishesAre(r);
    }
    forall r, j, b | IsRule(TABLES, r) && 0 <= j < |TABLES.rhs[r]| && Begins(TABLES, LOOKAHEAD, r, 0, j, b)
      ensures First(TABLES, LOOKAHEAD, TABLES.r1[r], b)
    {
      StartsAre(r, j, b);
    }
    forall r, i, j, b | IsRule(TABLES, r) && 0 < i <= j < |TABLES.rhs[r]| && Begins(TABLES, LOOKAHEAD, r, i, j, b)
      ensures Follow(TABLES, LOOKAHEAD, TABLES.rhs[r][i - 1], b)
    {
      MeetsAre(r, i, j, b);
    }
    forall r, i, b | IsRule(TABLES, r) && 0 < i <= |TABLES.rhs[r]| && Passes(TABLES, LOOKAHEAD, r, i, b)
      ensures Follow(TABLES, LOOKAHEAD, TABLES.rhs[r][i - 1], b)
    {
      ClosesAre(r, i, b);
    }
    EndFollows();
  }

  lemma EndFollows()
    ensures Follow(TABLES, LOOKAHEAD, Start(TABLES), YYEOF)
    ensures Item(CERT, 0, 0, 0)
  {
  }

  /** The tables pass the check for completeness. */
  lemma TablesComplete()
    ensures Complete(TABLES, CERT, LOOKAHEAD) == true
  {
    hide IsState, IsNonterminal, Item, Fits, Follow, AdvanceOk, Lookup, Barred, SymbolsOk, FirstsOk, FollowsOk, Start;
    GrammarIs();
    EndFollows();
    forall s, r, k | IsState(TABLES, s) && Item(CERT, s, r, k) && 0 <= r < |TABLES.rhs| && 0 <= k < |TABLES.rhs[r]|
      ensures AdvanceOk(TABLES, CERT, s, r, k)
    {
      AdvancesAre(s, r, k);
    }
    forall s, r, k, q | IsState(TABLES, s) && Item(CERT, s, r, k)
      ensures Fits(TABLES, LOOKAHEAD, r, k, q) ==> Item(CERT, s, q, 0)
      ensures IsRule(TABLES, q) && Barred(LOOKAHEAD, r, k, q) ==> !Item(CERT, s, q, 0)
    {
      PredictsAre(s, r, k, q);
    }
    forall s, r, a | IsState(TABLES, s) && IsRule(TABLES, r) && Item(CERT, s, r, |TABLES.rhs[r]|)
                     && Follow(TABLES, LOOKAHEAD, TABLES.r1[r], a)
      ensures Lookup(TABLES, s, a) == Reduce(r)
    {
      ReducesAre(s, r, a);
    }
    forall q ensures !Barred(LOOKAHEAD, 0, 0, q) {
      BarredIs(0, 0, q);
    }
  }
}
