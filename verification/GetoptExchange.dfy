/** The block rotation at the heart of getopt's permutation, src/analyzer/getopt.c. */
module GetoptExchange {

  /** Two adjacent segments of a row, [first, middle) and [middle, top), in swapped order. */
  function Exchanged<T>(row: seq<T>, first: int, middle: int, top: int): seq<T>
    requires 0 <= first <= middle <= top <= |row|
  {
    row[..first] + row[middle..top] + row[first..middle] + row[top..]
  }

  /** The greatest common divisor, by subtraction; Gcd(0, n) is n. */
  function Gcd(a: nat, b: nat): nat
    decreases a + b
  {
    if a == 0 then b else if b == 0 then a
    else if a < b then Gcd(a, b - a) else Gcd(a - b, b)
  }

  ghost predicate Divides(d: nat, n: nat) {
    exists k: nat :: Multiple(d, k) == n
  }

  function Multiple(d: nat, k: nat): nat {
    d * k
  }

  lemma DividesSum(d: nat, a: nat, b: nat)
    requires Divides(d, a)
    ensures Divides(d, b) <==> Divides(d, a + b)
  {
    var k: nat :| Multiple(d, k) == a;
    if Divides(d, b) {
      var l: nat :| Multiple(d, l) == b;
      assert Multiple(d, k + l) == a + b;
    }
    if Divides(d, a + b) {
      var l: nat :| Multiple(d, l) == a + b;
      if l < k {
        assert d * k == d * l + d * (k - l);
        assert b == 0 && Multiple(d, 0) == b;
      } else {
        assert d * l == d * k + d * (l - k);
        assert Multiple(d, l - k) == b;
      }
    }
  }

  /** Gcd is what its name says: the common divisors of `a` and `b` are the divisors of it. */
  lemma {:induction false} GcdIsGreatest(a: nat, b: nat, d: nat)
    ensures Divides(d, a) && Divides(d, b) <==> Divides(d, Gcd(a, b))
    decreases a + b
  {
    if a == 0 || b == 0 {
      assert Multiple(d, 0) == 0;
    } else if a < b {
      GcdIsGreatest(a, b - a, d);
      if Divides(d, a) {
        DividesSum(d, a, b - a);
      }
    } else {
      GcdIsGreatest(a - b, b, d);
      if Divides(d, b) {
        DividesSum(d, b, a - b);
      }
    }
  }

  /** A row with the blocks of length `len` at `x` and at `y` exchanged. */
  function Swapped<T>(row: seq<T>, x: int, y: int, len: nat): (r: seq<T>)
    requires 0 <= x <= x + len <= y <= y + len <= |row|
    ensures |r| == |row|
  {
    row[..x] + row[y..y + len] + row[x + len..y] + row[x..x + len] + row[y + len..]
  }

  lemma SwappedAt<T>(row: seq<T>, x: int, y: int, len: nat, j: int)
    requires 0 <= x <= x + len <= y <= y + len <= |row| && 0 <= j < |row|
    ensures Swapped(row, x, y, len)[j] ==
            row[if x <= j < x + len then j + (y - x) else if y <= j < y + len then j - (y - x) else j]
  {
  }

  /** Exchanges two disjoint blocks of equal length, element by element. */
  method SwapBlocks<T>(row: array<T>, x: int, y: int, len: nat)
    requires 0 <= x <= x + len <= y <= y + len <= row.Length
    modifies row
    ensures row[..] == Swapped(old(row[..]), x, y, len)
  {
    hide Swapped;
    ghost var was := row[..];
    var i := 0;
    while i < len
      invariant 0 <= i <= len
      invariant forall j | x <= j < x + i :: row[j] == was[j + (y - x)]
      invariant forall j | y <= j < y + i :: row[j] == was[j - (y - x)]
      invariant forall j | 0 <= j < row.Length && !(x <= j < x + i) && !(y <= j < y + i) :: row[j] == was[j]
    {
      row[x + i], row[y + i] := row[y + i], row[x + i];
      i := i + 1;
    }
    forall j | 0 <= j < row.Length ensures row[j] == Swapped(was, x, y, len)[j] {
      SwappedAt(was, x, y, len, j);
    }
  }

  lemma ExchangeParts<T>(a: seq<T>, b: seq<T>, c: seq<T>, d: seq<T>)
    ensures Exchanged(a + b + c + d, |a|, |a + b|, |a + b + c|) == a + c + b + d
  {
    var row := a + b + c + d;
    assert row[..|a|] == a && row[|a|..|a + b|] == b && row[|a + b|..|a + b + c|] == c && row[|a + b + c|..] == d;
  }

  lemma SwapParts<T>(a: seq<T>, b: seq<T>, c: seq<T>, d: seq<T>, e: seq<T>)
    requires |b| == |d|
    ensures Swapped(a + b + c + d + e, |a|, |a + b + c|, |b|) == a + d + c + b + e
  {
    var row := a + b + c + d + e;
    assert row[..|a|] == a && row[|a + b|..|a + b + c|] == c && row[|a + b + c + d|..] == e;
    assert row[|a|..|a + b|] == b && row[|a + b + c|..|a + b + c + d|] == d;
  }

  /** Swapping the short bottom segment with the far end of the top one leaves less to do. */
  lemma BottomRound<T>(row: seq<T>, bottom: int, middle: int, top: int)
    requires 0 <= bottom <= middle <= top <= |row| && middle - bottom <= top - middle
    ensures var len := middle - bottom;
            Exchanged(Swapped(row, bottom, top - len, len), bottom, middle, top - len) == Exchanged(row, bottom, middle, top)
  {
    var len := middle - bottom;
    hide Exchanged, Swapped;
    var a, b, c, d, e := row[..bottom], row[bottom..middle], row[middle..top - len], row[top - len..top], row[top..];
    assert row == a + b + c + d + e;
    BottomParts(a, b, c, d, e);
  }

  lemma BottomParts<T>(a: seq<T>, b: seq<T>, c: seq<T>, d: seq<T>, e: seq<T>)
    requires |b| == |d|
    ensures var row := a + b + c + d + e;
            Exchanged(Swapped(row, |a|, |a + b + c|, |b|), |a|, |a + b|, |a + b + c|)
              == Exchanged(row, |a|, |a + b|, |a + b + c + d|)
  {
    hide Exchanged, Swapped;
    SwapParts(a, b, c, d, e);
    assert a + d + c + b + e == a + d + c + (b + e);
    ExchangeParts(a, d, c, b + e);
    assert a + b + c + d + e == a + b + (c + d) + e;
    ExchangeParts(a, b, c + d, e);
    assert a + c + d + (b + e) == a + (c + d) + b + e;
  }

  /** Swapping the short top segment with the near end of the bottom one leaves less to do. */
  lemma TopRound<T>(row: seq<T>, bottom: int, middle: int, top: int)
    requires 0 <= bottom <= middle <= top <= |row| && top - middle <= middle - bottom
    ensures var len := top - middle;
            Exchanged(Swapped(row, bottom, middle, len), bottom + len, middle, top) == Exchanged(row, bottom, middle, top)
  {
    var len := top - middle;
    hide Exchanged, Swapped;
    var a, b, c, d, e := row[..bottom], row[bottom..bottom + len], row[bottom + len..middle], row[middle..top],
        row[top..];
    assert row == a + b + c + d + e == a + (b + c) + d + e;
    SwapParts(a, b, c, d, e);
    assert a + d + c + b + e == (a + d) + c + b + e;
    ExchangeParts(a + d, c, b, e);
    ExchangeParts(a, b + c, d, e);
    assert (a + d) + b + c + e == a + d + (b + c) + e;
  }

  lemma NothingLeft<T>(row: seq<T>, bottom: int, middle: int, top: int)
    requires 0 <= bottom <= middle <= top <= |row| && (bottom == middle || middle == top)
    ensures Exchanged(row, bottom, middle, top) == row
  {
  }

  /** One round: the shorter segment goes to the far end of the longer one, where it belongs. */
  method Round<T>(row: array<T>, bottom: int, middle: int, top: int) returns (bottom': int, top': int, ghost swaps: nat)
    requires 0 <= bottom < middle < top <= row.Length
    modifies row
    ensures bottom <= bottom' <= middle <= top' <= top && top' - bottom' == top - bottom - swaps && swaps > 0
    ensures Exchanged(row[..], bottom', middle, top') == Exchanged(old(row[..]), bottom, middle, top)
    ensures Gcd(middle - bottom', top' - middle) == Gcd(middle - bottom, top - middle)
  {
    hide Exchanged, Swapped;
    bottom', top' := bottom, top;
    if top - middle > middle - bottom {
      var len := middle - bottom;
      BottomRound(row[..], bottom, middle, top);
      SwapBlocks(row, bottom, top - len, len);
      top' := top - len;
      swaps := len;
    } else {
      var len := top - middle;
      TopRound(row[..], bottom, middle, top);
      SwapBlocks(row, bottom, middle, len);
      bottom' := bottom + len;
      swaps := len;
    }
  }

  /** exchange: swaps the two segments in place. It counts its element swaps: the length of both
      segments less the greatest common divisor of their lengths. */
  method Exchange<T>(row: array<T>, first: int, last: int, optind: int) returns (ghost swaps: nat)
    requires 0 <= first <= last <= optind <= row.Length
    modifies row
    ensures row[..] == Exchanged(old(row[..]), first, last, optind)
    ensures swaps == (optind - first) - Gcd(last - first, optind - last)
  {
    hide Exchanged;
    var bottom, middle, top := first, last, optind;
    swaps := 0;
    while top > middle && middle > bottom
      invariant 0 <= first <= bottom <= middle == last <= top <= optind
      invariant Exchanged(row[..], bottom, middle, top) == Exchanged(old(row[..]), first, last, optind)
      invariant Gcd(middle - bottom, top - middle) == Gcd(last - first, optind - last)
      invariant swaps + (top - bottom) == optind - first
      decreases top - bottom
    {
      ghost var done;
      bottom, top, done := Round(row, bottom, middle, top);
      swaps := swaps + done;
    }
    NothingLeft(row[..], bottom, middle, top);
  }
}
