/** Sets of objects as the analyses keep them, src/analyzer/Pset.h and src/analyzer/ygtree.cc: a row
    in increasing order of the objects' numbers, which stand for the objects here. The balanced
    tree that holds the row is not part of this model; an iterator is an index into the row. */
module Psets {

  ghost predicate Sorted(s: seq<int>) {
    forall i, j | 0 <= i < j < |s| :: s[i] < s[j]
  }

  function Elements(s: seq<int>): set<int> {
    set x | x in s
  }

  lemma InsertKeepsOrder(s: seq<int>, i: nat, x: int)
    requires Sorted(s) && i <= |s| && (i > 0 ==> s[i - 1] < x) && (i < |s| ==> x < s[i])
    ensures Sorted(s[..i] + [x] + s[i..])
  {
    var t := s[..i] + [x] + s[i..];
    forall j, k | 0 <= j < k < |t| ensures t[j] < t[k] {
      assert t[j] == if j < i then s[j] else if j == i then x else s[j - 1];
      assert t[k] == if k < i then s[k] else if k == i then x else s[k - 1];
    }
  }

  lemma InsertAdds(s: seq<int>, i: nat, x: int)
    requires i <= |s|
    ensures Elements(s[..i] + [x] + s[i..]) == Elements(s) + {x}
  {
    var t := s[..i] + [x] + s[i..];
    forall y ensures y in t <==> y == x || y in s {
      assert s == s[..i] + s[i..];
      assert y in t <==> y in s[..i] || y == x || y in s[i..];
      assert y in s <==> y in s[..i] || y in s[i..];
    }
  }

  lemma InsertInOrder(s: seq<int>, i: nat, x: int)
    requires Sorted(s) && i <= |s| && (i > 0 ==> s[i - 1] < x) && (i < |s| ==> x < s[i])
    ensures Sorted(s[..i] + [x] + s[i..]) && Elements(s[..i] + [x] + s[i..]) == Elements(s) + {x}
  {
    hide Sorted, Elements;
    InsertKeepsOrder(s, i, x);
    InsertAdds(s, i, x);
  }

  lemma RemoveInOrder(s: seq<int>, i: nat)
    requires Sorted(s) && i < |s|
    ensures Sorted(s[..i] + s[i + 1..]) && Elements(s[..i] + s[i + 1..]) == Elements(s) - {s[i]}
  {
    var t := s[..i] + s[i + 1..];
    forall x ensures x in t <==> x in s && x != s[i] {
      if x in s && x != s[i] {
        var k :| 0 <= k < |s| && s[k] == x;
        assert k < i ==> t[k] == x;
        assert k > i ==> t[k - 1] == x;
      }
      if x in t {
        var k :| 0 <= k < |t| && t[k] == x;
        assert x == if k < i then s[k] else s[k + 1];
      }
    }
  }

  /** An object between two neighbours is not in the row. */
  lemma NotThere(s: seq<int>, i: nat, x: int)
    requires Sorted(s) && i <= |s| && (forall j | 0 <= j < i :: s[j] < x) && (i < |s| ==> x < s[i])
    ensures x !in Elements(s)
  {
  }

  lemma Passed(b: seq<int>, i: nat, x: int)
    requires Sorted(b) && i <= |b| && (forall j | 0 <= j < i :: b[j] < x) && (i < |b| ==> x < b[i])
    ensures x !in b
  {
  }

  /** The state of a merge of the row `b` into a row that held `was`: everything before place `ia`
      precedes what is left of `b`, the row holds what it held and the part of `b` passed so far,
      and `changed` tells whether that part brought anything new. */
  ghost predicate Merging(was: set<int>, row: seq<int>, ia: nat, b: seq<int>, ib: nat, changed: bool) {
    && ia <= |row| && ib <= |b| && Sorted(row) && Sorted(b)
    && (forall i, j | 0 <= i < ia && ib <= j < |b| :: row[i] < b[j])
    && Elements(row) == was + Elements(b[..ib])
    && (forall i | ia <= i < |row| :: row[i] in was)
    && changed == !(Elements(b[..ib]) <= was)
  }

  lemma OneMore(b: seq<int>, ib: nat)
    requires ib < |b|
    ensures Elements(b[..ib + 1]) == Elements(b[..ib]) + {b[ib]}
  {
    assert b[..ib + 1] == b[..ib] + [b[ib]];
  }

  lemma BothHave(was: set<int>, row: seq<int>, ia: nat, b: seq<int>, ib: nat, changed: bool)
    requires Merging(was, row, ia, b, ib, changed) && ia < |row| && ib < |b| && row[ia] == b[ib]
    ensures Merging(was, row, ia + 1, b, ib + 1, changed)
  {
    OneMore(b, ib);
  }

  lemma FirstPasses(was: set<int>, row: seq<int>, ia: nat, b: seq<int>, ib: nat, changed: bool)
    requires Merging(was, row, ia, b, ib, changed) && ia < |row| && ib < |b| && row[ia] < b[ib]
    ensures Merging(was, row, ia + 1, b, ib, changed)
  {
    forall j | ib <= j < |b| ensures row[ia] < b[j] {
    }
  }

  lemma SecondBrings(was: set<int>, row: seq<int>, ia: nat, b: seq<int>, ib: nat, changed: bool)
    requires Merging(was, row, ia, b, ib, changed) && ib < |b| && (ia < |row| ==> b[ib] < row[ia])
    ensures Merging(was, row[..ia] + [b[ib]] + row[ia..], ia + 1, b, ib + 1, true)
  {
    OneMore(b, ib);
    NotThere(row, ia, b[ib]);
    InsertInOrder(row, ia, b[ib]);
    Elsewhere(row, ia, b[ib], b, ib + 1, was);
    hide Elements, Sorted;
  }

  lemma Elsewhere(row: seq<int>, i: nat, x: int, b: seq<int>, k: nat, was: set<int>)
    requires i <= |row| && 0 < k <= |b| && x == b[k - 1] && Sorted(b)
    requires forall j, l | 0 <= j < i && k - 1 <= l < |b| :: row[j] < b[l]
    requires forall j | i <= j < |row| :: row[j] in was
    ensures var t := row[..i] + [x] + row[i..];
      && (forall j, l | 0 <= j < i + 1 && k <= l < |b| :: t[j] < b[l])
      && (forall j | i + 1 <= j < |t| :: t[j] in was)
  {
  }

  lemma MergeStarts(row: seq<int>, b: seq<int>)
    requires Sorted(row) && Sorted(b)
    ensures Merging(Elements(row), row, 0, b, 0, false)
  {
    assert b[..0] == [];
    assert Elements(b[..0]) == {};
  }

  lemma MergeEnds(was: set<int>, row: seq<int>, ia: nat, b: seq<int>, changed: bool)
    requires Merging(was, row, ia, b, |b|, changed)
    ensures Sorted(row) && Elements(row) == was + Elements(b) && changed == !(Elements(b) <= was)
  {
    assert b[..|b|] == b;
  }

  /** The state of dropping from a row that held `was` what is in the row `b`, or what is not: what
      is left before place `ia` is wanted, everything wanted is still there, what lies before place
      `ib` of `b` precedes the rest, and `changed` tells whether anything was dropped. */
  ghost predicate Filtering(was: set<int>, row: seq<int>, ia: nat, b: seq<int>, ib: nat, inB: bool, changed: bool) {
    && ia <= |row| && ib <= |b| && Sorted(row) && Sorted(b)
    && (forall i, j | ia <= i < |row| && 0 <= j < ib :: b[j] < row[i])
    && (forall i | 0 <= i < ia :: (row[i] in b) == inB)
    && Elements(row) <= was && (forall x | x in was && (x in b) == inB :: x in row)
    && changed == !(was <= Elements(row))
  }

  lemma FilterStarts(row: seq<int>, b: seq<int>, inB: bool)
    requires Sorted(row) && Sorted(b)
    ensures Filtering(Elements(row), row, 0, b, 0, inB, false)
  {
  }

  /** The next object of the second row tells whether it has the next one of the first. */
  lemma At(was: set<int>, row: seq<int>, ia: nat, b: seq<int>, ib: nat, inB: bool, changed: bool)
    requires Filtering(was, row, ia, b, ib, inB, changed) && ia < |row|
    ensures (ib < |b| && b[ib] < row[ia]) || (row[ia] in b <==> ib < |b| && row[ia] == b[ib])
  {
    hide Elements;
    if ib == |b| || row[ia] < b[ib] {
      Passed(b, ib, row[ia]);
    }
  }

  lemma Keeps(was: set<int>, row: seq<int>, ia: nat, b: seq<int>, ib: nat, inB: bool, changed: bool, step: nat)
    requires Filtering(was, row, ia, b, ib, inB, changed) && ia < |row| && (row[ia] in b) == inB
    requires step == 0 || (step == 1 && ib < |b| && row[ia] == b[ib])
    ensures Filtering(was, row, ia + 1, b, ib + step, inB, changed)
  {
    hide Elements;
  }

  lemma Drops(was: set<int>, row: seq<int>, ia: nat, b: seq<int>, ib: nat, inB: bool, changed: bool, step: nat)
    requires Filtering(was, row, ia, b, ib, inB, changed) && ia < |row| && (row[ia] in b) != inB
    requires step == 0 || (step == 1 && ib < |b| && row[ia] == b[ib])
    ensures Filtering(was, row[..ia] + row[ia + 1..], ia, b, ib + step, inB, true)
  {
    RemoveInOrder(row, ia);
    var t := row[..ia] + row[ia + 1..];
    assert row[ia] in Elements(row) && row[ia] !in Elements(t);
    forall x | x in was && (x in b) == inB ensures x in t {
      assert x in Elements(row);
      assert x in Elements(t);
    }
  }

  lemma Passes(was: set<int>, row: seq<int>, ia: nat, b: seq<int>, ib: nat, inB: bool, changed: bool)
    requires Filtering(was, row, ia, b, ib, inB, changed) && ia < |row| && ib < |b| && b[ib] < row[ia]
    ensures Filtering(was, row, ia, b, ib + 1, inB, changed)
  {
    hide Elements;
  }

  /** The filter is through when it has come to the end of the row, or of the unwanted ones. */
  lemma FilterEnds(was: set<int>, row: seq<int>, ia: nat, b: seq<int>, ib: nat, inB: bool, changed: bool)
    requires Filtering(was, row, ia, b, ib, inB, changed) && (ia == |row| || (!inB && ib == |b|))
    ensures Sorted(row) && Elements(row) == if inB then was * Elements(b) else was - Elements(b)
    ensures changed == !if inB then was <= Elements(b) else was !! Elements(b)
  {
    forall i | 0 <= i < |row| ensures (row[i] in b) == inB {
    }
    assert forall x :: x in Elements(row) <==> x in was && (x in b) == inB;
  }

  class Pset {
    var row: seq<int>

    ghost predicate Valid()
      reads this
    {
      Sorted(row)
    }

    function Content(): set<int>
      reads this
    {
      Elements(row)
    }

    constructor ()
      ensures Valid() && Content() == {}
    {
      row := [];
    }

    /** The first place whose object does not come before `x`. */
    method LowerBound(x: int) returns (i: nat)
      requires Valid()
      ensures i <= |row| && (forall j | 0 <= j < i :: row[j] < x) && (i < |row| ==> x <= row[i])
      ensures x in Content() <==> i < |row| && row[i] == x
    {
      i := 0;
      while i < |row| && !(x <= row[i])
        invariant i <= |row| && forall j | 0 <= j < i :: row[j] < x
      {
        i := i + 1;
      }
    }

    /** Pset_insert: true if the object was there already. */
    method Insert(x: int) returns (same: bool)
      requires Valid()
      modifies this
      ensures Valid() && Content() == old(Content()) + {x} && same == (x in old(Content()))
    {
      var i := LowerBound(x);
      if i < |row| && row[i] == x {
        return true;
      }
      InsertInOrder(row, i, x);
      row := row[..i] + [x] + row[i..];
      same := false;
    }

    /** Pset_find */
    method Contains(x: int) returns (found: bool)
      requires Valid()
      ensures found == (x in Content())
    {
      var i := LowerBound(x);
      found := i < |row| && row[i] == x;
    }

    /** Pset_erase asserts that the object is there. */
    method Erase(x: int)
      requires Valid() && x in Content()
      modifies this
      ensures Valid() && Content() == old(Content()) - {x}
    {
      var i := LowerBound(x);
      RemoveInOrder(row, i);
      row := row[..i] + row[i + 1..];
    }

    method Clear()
      modifies this
      ensures Valid() && Content() == {}
    {
      row := [];
    }

    /** Pset_union: merges the other row in; true if it brought nothing new. */
    method Union(other: Pset) returns (same: bool)
      requires Valid() && other.Valid()
      modifies this
      ensures Valid() && Content() == old(Content()) + old(other.Content())
      ensures same == (old(other.Content()) <= old(Content()))
    {
      hide Merging, Elements, Sorted;
      if this == other {
        return true;
      }
      var b := other.row;
      var changed := false;
      var ia, ib := 0, 0;
      ghost var was := Content();
      MergeStarts(row, b);
      while ia < |row| && ib < |b|
        invariant ia <= |row| && ib <= |b| && other.row == b && Merging(was, row, ia, b, ib, changed)
        decreases |b| - ib, |row| - ia
      {
        if row[ia] == b[ib] {
          BothHave(was, row, ia, b, ib, changed);
          ia, ib := ia + 1, ib + 1;
        } else if row[ia] <= b[ib] {
          FirstPasses(was, row, ia, b, ib, changed);
          ia := ia + 1;
        } else {
          SecondBrings(was, row, ia, b, ib, changed);
          row := row[..ia] + [b[ib]] + row[ia..];
          ia, ib, changed := ia + 1, ib + 1, true;
        }
      }
      while ib < |b|
        invariant ib <= |b| && (ib < |b| ==> ia == |row|)
        invariant other.row == b && Merging(was, row, ia, b, ib, changed)
      {
        SecondBrings(was, row, ia, b, ib, changed);
        row := row[..ia] + [b[ib]] + row[ia..];
        ia, ib, changed := ia + 1, ib + 1, true;
      }
      MergeEnds(was, row, ia, b, changed);
      same := !changed;
    }

    /** Pset_intersect: drops what the other row lacks; true if nothing was dropped. */
    method Intersect(other: Pset) returns (same: bool)
      requires Valid() && other.Valid()
      modifies this
      ensures Valid() && Content() == old(Content()) * old(other.Content())
      ensures same == (old(Content()) <= old(other.Content()))
    {
      hide Filtering, Elements, Sorted;
      if this == other {
        return true;
      }
      var b := other.row;
      var changed := false;
      var ia, ib := 0, 0;
      ghost var was := Content();
      FilterStarts(row, b, true);
      while ia < |row| && ib < |b|
        invariant ia <= |row| && ib <= |b| && other.row == b && Filtering(was, row, ia, b, ib, true, changed)
        decreases |row| - ia, |b| - ib
      {
        At(was, row, ia, b, ib, true, changed);
        if row[ia] == b[ib] {
          Keeps(was, row, ia, b, ib, true, changed, 1);
          ia, ib := ia + 1, ib + 1;
        } else if row[ia] <= b[ib] {
          Drops(was, row, ia, b, ib, true, changed, 0);
          row := row[..ia] + row[ia + 1..];
          changed := true;
        } else {
          Passes(was, row, ia, b, ib, true, changed);
          ib := ib + 1;
        }
      }
      while ia < |row|
        invariant ia <= |row| && (ia < |row| ==> ib == |b|) && Filtering(was, row, ia, b, ib, true, changed)
        decreases |row| - ia
      {
        At(was, row, ia, b, ib, true, changed);
        Drops(was, row, ia, b, ib, true, changed, 0);
        row := row[..ia] + row[ia + 1..];
        changed := true;
      }
      FilterEnds(was, row, ia, b, ib, true, changed);
      same := !changed;
    }

    /** Pset_minus: drops what the other row has; true if nothing was dropped, except that taking a
        set from itself empties it and still answers true. */
    method Minus(other: Pset) returns (same: bool)
      requires Valid() && other.Valid()
      modifies this
      ensures Valid() && Content() == old(Content()) - old(other.Content())
      ensures same == (this == other || old(Content()) !! old(other.Content()))
    {
      if this == other {
        row := [];
        return true;
      }
      hide Filtering, Elements, Sorted;
      var b := other.row;
      var changed := false;
      var ia, ib := 0, 0;
      ghost var was := Content();
      FilterStarts(row, b, false);
      while ia < |row| && ib < |b|
        invariant ia <= |row| && ib <= |b| && other.row == b && Filtering(was, row, ia, b, ib, false, changed)
        decreases |row| - ia + |b| - ib
      {
        At(was, row, ia, b, ib, false, changed);
        if row[ia] == b[ib] {
          Drops(was, row, ia, b, ib, false, changed, 1);
          row := row[..ia] + row[ia + 1..];
          ib := ib + 1;
          changed := true;
        } else if row[ia] <= b[ib] {
          Keeps(was, row, ia, b, ib, false, changed, 0);
          ia := ia + 1;
        } else {
          Passes(was, row, ia, b, ib, false, changed);
          ib := ib + 1;
        }
      }
      FilterEnds(was, row, ia, b, ib, false, changed);
      same := !changed;
    }
  }
}
