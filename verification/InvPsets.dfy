/** Sets given either by what they hold or by what they lack, src/analyzer/InvPset.h. The must-write
    analysis starts from sets of all objects without knowing how many objects there are; here the
    objects are the integers, so there are always more of them than a set holds or lacks. */
module InvPsets {
  import opened Psets

  /** The two fields of an InvPset. */
  datatype Rep = Rep(inverse: bool, held: set<int>)

  /** The objects that the two fields stand for. */
  ghost function Denotes(r: Rep): iset<int> {
    iset x: int | (x in r.held) != r.inverse
  }

  class InvPset {
    var inverse: bool
    const held: Pset

    ghost predicate Valid()
      reads this, held
    {
      held.Valid()
    }

    function Value(): Rep
      reads this, held
    {
      Rep(inverse, held.Content())
    }

    ghost function Meaning(): iset<int>
      reads this, held
    {
      Denotes(Value())
    }

    /** Two objects of the class share nothing, as each holds its own Pset. */
    ghost predicate Apart(other: InvPset) {
      other == this || other.held != held
    }

    constructor ()
      ensures Valid() && Meaning() == iset{} && fresh(held)
    {
      inverse := false;
      held := new Pset();
    }

    /** True if the object was a member already. */
    method Insert(x: int) returns (same: bool)
      requires Valid()
      modifies this, held
      ensures Valid() && Meaning() == old(Meaning()) + iset{x} && same == (x in old(Meaning()))
    {
      if inverse {
        var found := held.Contains(x);
        if found {
          held.Erase(x);
          return false;
        } else {
          return true;
        }
      } else {
        same := held.Insert(x);
      }
    }

    /** A finite set must have the object, by the assertion in Pset_erase. */
    method Erase(x: int)
      requires Valid() && (inverse || x in Meaning())
      modifies this, held
      ensures Valid() && Meaning() == old(Meaning()) - iset{x}
    {
      if inverse {
        var _ := held.Insert(x);
      } else {
        held.Erase(x);
      }
    }

    method Clear()
      modifies this, held
      ensures Valid() && Meaning() == iset{}
    {
      inverse := false;
      held.Clear();
    }

    method Fill()
      modifies this, held
      ensures Valid() && forall x: int :: x in Meaning()
    {
      inverse := true;
      held.Clear();
    }

    /** True exactly if nothing changed. */
    method Union(other: InvPset) returns (same: bool)
      requires Valid() && other.Valid() && Apart(other)
      modifies this, held
      ensures Valid() && Meaning() == old(Meaning()) + old(other.Meaning())
      ensures same == (Meaning() == old(Meaning()))
    {
      ghost var was := Value();
      if inverse {
        if other.inverse {
          same := held.Intersect(other.held);
        } else {
          same := held.Minus(other.held);
        }
      } else {
        if other.inverse {
          Rebuild(other, true);
          same := false;
        } else {
          same := held.Union(other.held);
        }
      }
      SameMeaning(was, Value());
    }

    /** True exactly if nothing changed. */
    method Intersect(other: InvPset) returns (same: bool)
      requires Valid() && other.Valid() && Apart(other)
      modifies this, held
      ensures Valid() && Meaning() == old(Meaning()) * old(other.Meaning())
      ensures same == (Meaning() == old(Meaning()))
    {
      ghost var was := Value();
      if inverse {
        if other.inverse {
          same := held.Union(other.held);
        } else {
          Rebuild(other, false);
          same := false;
        }
      } else {
        if other.inverse {
          same := held.Minus(other.held);
        } else {
          same := held.Intersect(other.held);
        }
      }
      SameMeaning(was, Value());
    }

    /** True if nothing changed; also when a finite set was taken from itself, however much that
        removed. */
    method Minus(other: InvPset) returns (same: bool)
      requires Valid() && other.Valid() && Apart(other)
      modifies this, held
      ensures Valid() && Meaning() == old(Meaning()) - old(other.Meaning())
      ensures same == (Meaning() == old(Meaning()) || (other == this && !old(inverse)))
      ensures same == (Meaning() == old(Meaning()))
        <==> !(other == this && !old(inverse) && old(Meaning()) != iset{})
    {
      ghost var was := Value();
      if inverse {
        if other.inverse {
          Rebuild(other, false);
          same := false;
        } else {
          same := held.Union(other.held);
        }
      } else {
        if other.inverse {
          same := held.Intersect(other.held);
        } else {
          same := held.Minus(other.held);
        }
      }
      SameMeaning(was, Value());
    }

    /** The step shared by the mixed cases: what was held is saved in a set of its own, and then what
        `other` holds and was not held before is put in its place. When `other` is this object,
        there is nothing left to put there. */
    method Rebuild(other: InvPset, inverted: bool)
      requires Valid() && other.Valid() && Apart(other)
      modifies this, held
      ensures Valid()
      ensures Value() == Rep(inverted, old(other.held.Content()) - old(held.Content()))
    {
      var saved := new Pset();
      var _ := saved.Union(held);
      inverse := inverted;
      held.Clear();
      var _ := held.Union(other.held);
      var _ := held.Minus(saved);
    }

    method Empty() returns (e: bool)
      requires Valid()
      ensures e == (Meaning() == iset{})
    {
      SameMeaning(Value(), Rep(false, {}));
      EmptyRow(held.row);
      assert Denotes(Rep(false, {})) == iset{};
      e := if inverse then false else |held.row| == 0;
    }

    method Full() returns (f: bool)
      requires Valid()
      ensures f == forall x: int :: x in Meaning()
    {
      EmptyRow(held.row);
      ghost var x := Unmentioned(held.Content());
      assert x in Meaning() <==> inverse;
      if |held.row| > 0 {
        assert held.row[0] in Meaning() <==> !inverse;
      }
      f := if inverse then |held.row| == 0 else false;
    }
  }

  lemma EmptyRow(row: seq<int>)
    ensures |row| == 0 <==> Elements(row) == {}
  {
    if |row| > 0 {
      assert row[0] in Elements(row);
    }
  }

  /** Some object is in neither of two finite sets. */
  lemma Unmentioned(s: set<int>) returns (x: int)
    ensures forall y | y in s :: y < x
  {
    x := 0;
    if z :| z in s {
      var w := Unmentioned(s - {z});
      x := if w > z then w else z + 1;
      assert forall y | y in s :: y == z || y in s - {z};
    }
  }

  /** Equal sets of objects have equal fields, so the fields are as good as the set. */
  lemma SameMeaning(a: Rep, b: Rep)
    ensures Denotes(a) == Denotes(b) <==> a == b
  {
    if Denotes(a) == Denotes(b) {
      var x := Unmentioned(a.held + b.held);
      assert x in Denotes(a) <==> a.inverse;
      assert x in Denotes(b) <==> b.inverse;
      forall y ensures y in a.held <==> y in b.held {
        assert y in Denotes(a) <==> y in Denotes(b);
      }
    }
  }

  /** An instance of the one case in which an operation denies a change that it made. */
  method TakeFromItself(x: int) returns (s: InvPset, same: bool, ghost before: iset<int>)
    ensures fresh(s) && s.Valid() && before == iset{x} && s.Meaning() == iset{} && same
  {
    s := new InvPset();
    var _ := s.Insert(x);
    before := s.Meaning();
    assert Denotes(Rep(false, {x})) == iset{x};
    SameMeaning(s.Value(), Rep(false, {x}));
    same := s.Minus(s);
  }

  // ---- how often an intersection can change a set ----

  /** The values that a set takes when it is intersected with `operands` one after the other. */
  ghost predicate Descends(values: seq<Rep>, operands: seq<Rep>) {
    && |values| == |operands| + 1
    && forall i | 0 <= i < |operands| :: Denotes(values[i + 1]) == Denotes(values[i]) * Denotes(operands[i])
  }

  /** How many of the intersections changed the set. */
  function Changes(values: seq<Rep>): nat {
    if |values| < 2 then 0
    else (if values[0] != values[1] then 1 else 0) + Changes(values[1..])
  }

  /** How often the value can still change, when all sets speak only of the objects in `d`. */
  function Room(r: Rep, d: set<int>): nat
    requires r.held <= d
  {
    Smaller(r.held, d);
    if r.inverse then |d| - |r.held| + 1 else |r.held|
  }

  lemma Smaller(a: set<int>, b: set<int>)
    requires a <= b
    ensures |a| <= |b| && (|a| == |b| ==> a == b)
  {
    assert b == a + (b - a);
  }

  lemma IntersectionNarrows(a: Rep, b: Rep, r: Rep, d: set<int>)
    requires a.held <= d && b.held <= d && Denotes(r) == Denotes(a) * Denotes(b)
    ensures r.held <= d && Room(r, d) <= Room(a, d) && (Room(r, d) == Room(a, d) ==> r == a)
  {
    var meet := if a.inverse
      then if b.inverse then Rep(true, a.held + b.held) else Rep(false, b.held - a.held)
      else if b.inverse then Rep(false, a.held - b.held) else Rep(false, a.held * b.held);
    assert Denotes(meet) == Denotes(a) * Denotes(b);
    SameMeaning(r, meet);
    if r.inverse == a.inverse {
      if a.inverse {
        Smaller(a.held, r.held);
      } else {
        Smaller(r.held, a.held);
      }
    } else {
      assert r.held !! a.held && r.held + a.held <= d;
      Smaller(r.held + a.held, d);
    }
  }

  /** Whatever the sets are, a set that speaks only of the objects in `d` changes at most Room times
      when it is intersected with such sets. */
  lemma {:induction false} ChangesFitRoom(values: seq<Rep>, operands: seq<Rep>, d: set<int>)
    requires Descends(values, operands) && values[0].held <= d
    requires forall i | 0 <= i < |operands| :: operands[i].held <= d
    ensures Changes(values) <= Room(values[0], d)
  {
    if |values| >= 2 {
      IntersectionNarrows(values[0], operands[0], values[1], d);
      ChangesFitRoom(values[1..], operands[1..], d);
    }
  }

  /** A set that is filled and then intersected with sets that speak only of the objects in `d`
      changes at most once for each of them and once more. */
  lemma DescentEnds(values: seq<Rep>, operands: seq<Rep>, d: set<int>)
    requires Descends(values, operands) && values[0] == Rep(true, {})
    requires forall i | 0 <= i < |operands| :: operands[i].held <= d
    ensures Changes(values) <= |d| + 1
  {
    ChangesFitRoom(values, operands, d);
  }

  /** The bound is reached by every set of objects, whose members `row` lists in order: first the full
      set becomes that set, and then the members go one by one. */
  lemma BoundIsReached(row: seq<int>) returns (values: seq<Rep>, operands: seq<Rep>)
    requires Sorted(row)
    ensures Descends(values, operands) && values[0] == Rep(true, {})
    ensures forall i | 0 <= i < |operands| :: operands[i].held <= Elements(row)
    ensures Changes(values) == |Elements(row)| + 1
  {
    values, operands := ShrinkOneByOne(row);
    FirstChange(Rep(true, {}), Rep(false, Elements(row)), values, operands);
    values, operands := [Rep(true, {})] + values, [Rep(false, Elements(row))] + operands;
  }

  lemma FirstChange(r: Rep, operand: Rep, values: seq<Rep>, operands: seq<Rep>)
    requires Descends(values, operands) && Denotes(values[0]) == Denotes(r) * Denotes(operand) && values[0] != r
    ensures Descends([r] + values, [operand] + operands) && Changes([r] + values) == Changes(values) + 1
  {
    var vs, os := [r] + values, [operand] + operands;
    assert vs[1..] == values;
    forall i | 0 <= i < |os| ensures Denotes(vs[i + 1]) == Denotes(vs[i]) * Denotes(os[i]) {
      if i > 0 {
        assert vs[i] == values[i - 1] && vs[i + 1] == values[i] && os[i] == operands[i - 1];
      }
    }
  }

  lemma {:induction false} ShrinkOneByOne(row: seq<int>) returns (values: seq<Rep>, operands: seq<Rep>)
    requires Sorted(row)
    ensures Descends(values, operands) && values[0] == Rep(false, Elements(row))
    ensures forall i | 0 <= i < |operands| :: operands[i].held <= Elements(row)
    ensures Changes(values) == |Elements(row)|
  {
    if row == [] {
      assert Elements(row) == {};
      return [Rep(false, Elements(row))], [];
    }
    RemoveInOrder(row, 0);
    assert row[..0] + row[1..] == row[1..] && row[0] in Elements(row);
    values, operands := ShrinkOneByOne(row[1..]);
    FirstChange(Rep(false, Elements(row)), Rep(true, {row[0]}), values, operands);
    values, operands := [Rep(false, Elements(row))] + values, [Rep(true, {row[0]})] + operands;
  }

  /** Where there are no objects but those in `d`, the code can report a change that is none: the full
      set and `d` itself are told apart although they then have the same members. */
  lemma SameOverFinite(d: set<int>, a: Rep, b: Rep)
    requires a.held <= d && b.held <= d
    ensures (forall x | x in d :: x in Denotes(a) <==> x in Denotes(b))
      <==> (a == b || (a.inverse != b.inverse && a.held == d - b.held))
  {
    if forall x | x in d :: x in Denotes(a) <==> x in Denotes(b) {
      if a.inverse == b.inverse {
        forall x ensures x in a.held <==> x in b.held {
          if x in d {
            assert x in Denotes(a) <==> x in Denotes(b);
          }
        }
      } else {
        forall x ensures x in a.held <==> x in d - b.held {
          if x in d {
            assert x in Denotes(a) <==> x in Denotes(b);
          }
        }
      }
    }
  }
}
