/** The lists of type definitions that the annotation parser builds: src/cmixshow/annohash.c lines
    12-43 (the table of type records) and action 4 of src/cmixshow/y-tab.c. A type that names itself
    as its parent goes to the front of the list of root types, any other to the front of its
    parent's children. The lists run through the records themselves, and number 0 ends them. */
module TypeLists {

  /** A definition as the action sees it: the number of the type and of its parent. */
  datatype TypeDef = TypeDef(number: nat, parent: nat)

  /** What is kept about one number; a record that is not there yet is as good as a fresh one. */
  datatype Links = Links(defined: bool, next: nat, first: nat)

  datatype Forest = Forest(root: nat, at: imap<nat, Links>)

  function NoLinks(n: nat): Links {
    Links(false, 0, 0)
  }

  ghost predicate Total(f: Forest) {
    forall n: nat :: n in f.at
  }

  ghost function EmptyForest(): Forest {
    Forest(0, imap n: nat :: NoLinks(n))
  }

  /** Where the list that a definition joins starts. */
  ghost function Head(f: Forest, d: TypeDef): nat
    requires Total(f)
  {
    if d.number == d.parent then f.root else f.at[d.parent].first
  }

  /** The definition put at the front of its list. */
  ghost function Joined(f: Forest, d: TypeDef): Forest
    requires Total(f)
  {
    var at := f.at[d.number := Links(true, Head(f, d), f.at[d.number].first)];
    if d.number == d.parent then Forest(d.number, at)
    else Forest(f.root, at[d.parent := at[d.parent].(first := d.number)])
  }

  // ---- the lists, read off the links and read off the definitions ----

  /** Following the links from `start` gives `members`, and then the list ends. */
  ghost predicate Lists(f: Forest, start: nat, members: seq<nat>)
    requires Total(f)
    decreases |members|
  {
    if members == [] then start == 0
    else start != 0 && start == members[0] && Lists(f, f.at[start].next, members[1..])
  }

  /** The root types, the last one defined first. */
  function Roots(defs: seq<TypeDef>): seq<nat> {
    if defs == [] then []
    else
      var d := defs[|defs| - 1];
      (if d.number == d.parent then [d.number] else []) + Roots(defs[..|defs| - 1])
  }

  /** The children of `p`, the last one defined first. */
  function Children(defs: seq<TypeDef>, p: nat): seq<nat> {
    if defs == [] then []
    else
      var d := defs[|defs| - 1];
      (if d.parent == p && d.number != p then [d.number] else []) + Children(defs[..|defs| - 1], p)
  }

  ghost predicate Numbers(defs: seq<TypeDef>, n: nat) {
    exists i | 0 <= i < |defs| :: defs[i].number == n
  }

  ghost predicate Distinct(defs: seq<TypeDef>) {
    forall i, j | 0 <= i < j < |defs| :: defs[i].number != defs[j].number
  }

  /** The links hold exactly the lists that the definitions give. */
  ghost predicate Represents(f: Forest, defs: seq<TypeDef>) {
    && Total(f)
    && (forall n: nat :: f.at[n].defined <==> Numbers(defs, n))
    && Lists(f, f.root, Roots(defs))
    && (forall p: nat :: Lists(f, f.at[p].first, Children(defs, p)))
  }

  /** The definitions made one after the other; None once a number is defined again, which ends the
      program. */
  datatype Result = Died | Left(forest: Forest)

  ghost function After(defs: seq<TypeDef>): (r: Result)
    ensures r.Left? ==> Total(r.forest)
  {
    if defs == [] then Left(EmptyForest())
    else
      var d, before := defs[|defs| - 1], After(defs[..|defs| - 1]);
      if before.Died? || before.forest.at[d.number].defined then Died
      else Left(Joined(before.forest, d))
  }

  // ---- what the definitions give ----

  lemma {:induction false} RootsAre(defs: seq<TypeDef>, n: nat)
    ensures n in Roots(defs) <==> TypeDef(n, n) in defs
  {
    if defs != [] {
      RootsAre(defs[..|defs| - 1], n);
      assert defs == defs[..|defs| - 1] + [defs[|defs| - 1]];
    }
  }

  lemma {:induction false} ChildrenAre(defs: seq<TypeDef>, p: nat, n: nat)
    ensures n in Children(defs, p) <==> n != p && TypeDef(n, p) in defs
  {
    if defs != [] {
      ChildrenAre(defs[..|defs| - 1], p, n);
      assert defs == defs[..|defs| - 1] + [defs[|defs| - 1]];
    }
  }

  /** Every defined type is on one list only, that of its parent or the root list, and there once. */
  lemma OnOneList(defs: seq<TypeDef>, i: nat)
    requires Distinct(defs) && i < |defs|
    ensures var d := defs[i];
      && multiset(Roots(defs))[d.number] == (if d.parent == d.number then 1 else 0)
      && forall p :: multiset(Children(defs, p))[d.number] == if p == d.parent != d.number then 1 else 0
  {
    hide Roots, Children;
    var d := defs[i];
    RootsAre(defs, d.number);
    RootsOnce(defs, d.number);
    OneDefinition(defs, i, d.number);
    forall p ensures multiset(Children(defs, p))[d.number] == if p == d.parent != d.number then 1 else 0 {
      ChildrenAre(defs, p, d.number);
      ChildrenOnce(defs, p, d.number);
      OneDefinition(defs, i, p);
    }
  }

  lemma OneDefinition(defs: seq<TypeDef>, i: nat, p: nat)
    requires Distinct(defs) && i < |defs|
    ensures TypeDef(defs[i].number, p) in defs <==> p == defs[i].parent
  {
    assert p == defs[i].parent ==> TypeDef(defs[i].number, p) == defs[i];
  }

  lemma {:induction false} RootsOnce(defs: seq<TypeDef>, n: nat)
    requires Distinct(defs)
    ensures multiset(Roots(defs))[n] == if n in Roots(defs) then 1 else 0
  {
    if defs != [] {
      var d, before := defs[|defs| - 1], defs[..|defs| - 1];
      RootsOnce(before, n);
      RootsAre(before, n);
    }
  }

  lemma {:induction false} ChildrenOnce(defs: seq<TypeDef>, p: nat, n: nat)
    requires Distinct(defs)
    ensures multiset(Children(defs, p))[n] == if n in Children(defs, p) then 1 else 0
  {
    if defs != [] {
      var d, before := defs[|defs| - 1], defs[..|defs| - 1];
      ChildrenOnce(before, p, n);
      ChildrenAre(before, p, n);
    }
  }

  /** A later definition is further to the front of its list. */
  lemma {:induction false} LaterFirst(defs: seq<TypeDef>, i: nat, j: nat, p: nat)
    requires i < j < |defs| && defs[i].parent == p == defs[j].parent && defs[i].number != p && defs[j].number != p
    ensures exists k, l | 0 <= k < l < |Children(defs, p)| ::
      Children(defs, p)[k] == defs[j].number && Children(defs, p)[l] == defs[i].number
  {
    var before := defs[..|defs| - 1];
    var now, was := Children(defs, p), Children(before, p);
    if j == |defs| - 1 {
      ChildrenAre(before, p, defs[i].number);
      assert before[i] == defs[i];
      var l :| 0 <= l < |was| && was[l] == defs[i].number;
      assert now[0] == defs[j].number && now[l + 1] == defs[i].number;
    } else {
      LaterFirst(before, i, j, p);
      var k, l :| 0 <= k < l < |was| && was[k] == defs[j].number && was[l] == defs[i].number;
      var s := |now| - |was|;
      assert now[k + s] == was[k] && now[l + s] == was[l];
    }
  }

  // ---- the links against the definitions ----

  lemma {:induction false} ListKept(f: Forest, g: Forest, start: nat, members: seq<nat>)
    requires Total(f) && Total(g) && Lists(f, start, members)
    requires forall n | n in members :: g.at[n].next == f.at[n].next
    ensures Lists(g, start, members)
    decreases |members|
  {
    if members != [] {
      ListKept(f, g, f.at[start].next, members[1..]);
    }
  }

  /** No list holds the number 0. */
  lemma {:induction false} ListsAvoidZero(f: Forest, start: nat, members: seq<nat>)
    requires Total(f) && Lists(f, start, members)
    ensures 0 !in members
    decreases |members|
  {
    if members != [] {
      ListsAvoidZero(f, f.at[start].next, members[1..]);
      assert members == [members[0]] + members[1..];
    }
  }

  lemma ListGrows(f: Forest, n: nat, members: seq<nat>)
    requires Total(f) && n != 0 && Lists(f, f.at[n].next, members)
    ensures Lists(f, n, [n] + members)
  {
    assert ([n] + members)[1..] == members;
  }

  lemma JoinedLinks(f: Forest, d: TypeDef, n: nat)
    requires Total(f)
    ensures var g := Joined(f, d);
      && Total(g)
      && g.root == (if d.number == d.parent then d.number else f.root)
      && g.at[n].next == (if n == d.number then Head(f, d) else f.at[n].next)
      && g.at[n].first == (if n == d.parent != d.number then d.number else f.at[n].first)
      && g.at[n].defined == (n == d.number || f.at[n].defined)
  {
  }

  lemma JoinedKeeps(f: Forest, d: TypeDef, start: nat, members: seq<nat>)
    requires Total(f) && Lists(f, start, members) && d.number !in members
    ensures Total(Joined(f, d)) && Lists(Joined(f, d), start, members)
  {
    hide Joined, Lists;
    JoinedLinks(f, d, start);
    forall n | n in members ensures Joined(f, d).at[n].next == f.at[n].next {
      JoinedLinks(f, d, n);
    }
    ListKept(f, Joined(f, d), start, members);
  }

  lemma JoinedRoots(f: Forest, defs: seq<TypeDef>, d: TypeDef)
    requires Represents(f, defs) && !Numbers(defs, d.number) && d.number != 0
    ensures Total(Joined(f, d)) && Lists(Joined(f, d), Joined(f, d).root, Roots(defs + [d]))
  {
    hide Joined, Lists;
    assert (defs + [d])[..|defs|] == defs;
    RootsAre(defs, d.number);
    JoinedKeeps(f, d, f.root, Roots(defs));
    JoinedLinks(f, d, d.number);
    if d.number == d.parent {
      ListGrows(Joined(f, d), d.number, Roots(defs));
    } else {
      assert Roots(defs + [d]) == Roots(defs);
    }
  }

  lemma JoinedChildren(f: Forest, defs: seq<TypeDef>, d: TypeDef, p: nat)
    requires Represents(f, defs) && !Numbers(defs, d.number) && d.number != 0
    ensures Total(Joined(f, d)) && Lists(Joined(f, d), Joined(f, d).at[p].first, Children(defs + [d], p))
  {
    hide Joined, Lists;
    assert (defs + [d])[..|defs|] == defs;
    ChildrenAre(defs, p, d.number);
    JoinedKeeps(f, d, f.at[p].first, Children(defs, p));
    JoinedLinks(f, d, p);
    JoinedLinks(f, d, d.number);
    if d.parent == p && d.number != p {
      ListGrows(Joined(f, d), d.number, Children(defs, p));
    } else {
      assert Children(defs + [d], p) == Children(defs, p);
    }
  }

  lemma JoinedRepresents(f: Forest, defs: seq<TypeDef>, d: TypeDef)
    requires Represents(f, defs) && !Numbers(defs, d.number) && d.number != 0
    ensures Represents(Joined(f, d), defs + [d])
  {
    hide Joined, Lists, Roots, Children;
    JoinedRoots(f, defs, d);
    forall p: nat ensures Lists(Joined(f, d), Joined(f, d).at[p].first, Children(defs + [d], p)) {
      JoinedChildren(f, defs, d, p);
    }
    forall n: nat ensures Joined(f, d).at[n].defined <==> Numbers(defs + [d], n) {
      NumbersGrow(defs, d, n);
      JoinedLinks(f, d, n);
    }
  }

  lemma NumbersGrow(defs: seq<TypeDef>, d: TypeDef, n: nat)
    ensures Numbers(defs + [d], n) <==> Numbers(defs, n) || n == d.number
  {
    var all := defs + [d];
    if Numbers(defs, n) {
      var i :| 0 <= i < |defs| && defs[i].number == n;
      assert all[i].number == n;
    }
    assert all[|defs|] == d;
  }

  /** The program survives the definitions exactly if no number is defined twice. */
  lemma {:induction false} SurvivesIfDistinct(defs: seq<TypeDef>)
    ensures After(defs).Left? <==> Distinct(defs)
    ensures After(defs).Left? ==> forall n: nat :: After(defs).forest.at[n].defined <==> Numbers(defs, n)
  {
    if defs != [] {
      var d, before := defs[|defs| - 1], defs[..|defs| - 1];
      assert defs == before + [d];
      SurvivesIfDistinct(before);
      forall n: nat ensures Numbers(defs, n) <==> Numbers(before, n) || n == d.number {
        NumbersGrow(before, d, n);
      }
      if Distinct(before) && !Numbers(before, d.number) {
        assert forall i | 0 <= i < |before| :: before[i].number != d.number;
      }
      if i :| 0 <= i < |before| && before[i].number == d.number {
        assert defs[i].number == defs[|defs| - 1].number;
      }
    }
  }

  /** Without the number 0 the lists come out right. */
  lemma {:induction false} DefinitionsListed(defs: seq<TypeDef>)
    requires Distinct(defs) && !Numbers(defs, 0)
    ensures After(defs).Left? && Represents(After(defs).forest, defs)
  {
    SurvivesIfDistinct(defs);
    if defs != [] {
      var d, before := defs[|defs| - 1], defs[..|defs| - 1];
      assert defs == before + [d];
      NumbersGrow(before, d, 0);
      NumbersGrow(before, d, d.number);
      DefinitionsListed(before);
      SurvivesIfDistinct(before);
      JoinedRepresents(After(before).forest, before, d);
    }
  }

  /** The lists come out right exactly if 0, the number that ends them, is not defined itself. */
  lemma {:induction false} ListedIffNoZero(defs: seq<TypeDef>)
    requires Distinct(defs)
    ensures After(defs).Left? && (Represents(After(defs).forest, defs) <==> !Numbers(defs, 0))
  {
    SurvivesIfDistinct(defs);
    if !Numbers(defs, 0) {
      DefinitionsListed(defs);
    } else if Represents(After(defs).forest, defs) {
      var f := After(defs).forest;
      var i :| 0 <= i < |defs| && defs[i].number == 0;
      RootsAre(defs, 0);
      ChildrenAre(defs, defs[i].parent, 0);
      ListsAvoidZero(f, f.root, Roots(defs));
      ListsAvoidZero(f, f.at[defs[i].parent].first, Children(defs, defs[i].parent));
    }
  }

  /** An instance: once type 0 is defined as a root, the list of roots looks empty. */
  lemma ZeroHidesRoots(defs: seq<TypeDef>)
    requires defs == [TypeDef(5, 5), TypeDef(0, 0)]
    ensures After(defs).Left? && Roots(defs) == [0, 5] && Lists(After(defs).forest, After(defs).forest.root, [])
  {
    var first := defs[..1];
    assert first == [TypeDef(5, 5)] && first[..0] == [];
    assert Roots(first) == [5] && After(first) == Left(Joined(EmptyForest(), first[0]));
    JoinedLinks(EmptyForest(), first[0], 0);
  }

  // ---- the records and the action ----

  /** A type record; its other fields are not part of this model. */
  class TypeRec {
    var defined: bool
    var nextSibling: nat
    var firstChild: nat

    constructor ()
      ensures !defined && nextSibling == 0 && firstChild == 0
    {
      defined, nextSibling, firstChild := false, 0, 0;
    }
  }

  class TypeTable {
    var rootType: nat
    var allTypes: array<TypeRec?>
    ghost var owned: set<TypeRec>

    ghost predicate Valid()
      reads this, allTypes
    {
      && (forall i | 0 <= i < allTypes.Length && allTypes[i] != null :: allTypes[i] in owned)
      && (forall i, j | 0 <= i < j < allTypes.Length && allTypes[i] != null :: allTypes[i] != allTypes[j])
    }

    ghost function At(n: nat): Links
      requires Valid()
      reads this, allTypes, owned
    {
      if n < allTypes.Length && allTypes[n] != null
      then Links(allTypes[n].defined, allTypes[n].nextSibling, allTypes[n].firstChild)
      else NoLinks(n)
    }

    ghost function Value(): (f: Forest)
      requires Valid()
      reads this, allTypes, owned
      ensures Total(f)
    {
      Forest(rootType, imap n: nat :: At(n))
    }

    constructor ()
      ensures Valid() && Value() == EmptyForest() && fresh(allTypes) && fresh(owned)
    {
      rootType := 0;
      allTypes := new TypeRec?[0];
      owned := {};
    }

    /** typerec: the record of a number, made when it is first asked for; the table grows for it. */
    method Record(number: nat) returns (r: TypeRec)
      requires Valid()
      modifies this`allTypes, this`owned, allTypes
      ensures Valid() && Value() == old(Value())
      ensures number < allTypes.Length && allTypes[number] == r && r in owned
      ensures allTypes.Length == if number < old(allTypes.Length) then old(allTypes.Length)
                                 else if number > 10 then 2 * (number + 1) else number + 5
      ensures fresh(owned - old(owned)) && (allTypes == old(allTypes) || fresh(allTypes))
      ensures forall i | 0 <= i < old(allTypes.Length) && old(allTypes[i]) != null ::
                i < allTypes.Length && allTypes[i] == old(allTypes[i])
    {
      if number >= allTypes.Length {
        Grow(if number > 10 then 2 * (number + 1) else number + 5);
      }
      if allTypes[number] == null {
        Make(number);
      }
      r := allTypes[number];
    }

    method Make(number: nat)
      requires Valid() && number < allTypes.Length && allTypes[number] == null
      modifies this`owned, allTypes
      ensures Valid() && Value() == old(Value()) && allTypes[number] != null && fresh(owned - old(owned))
      ensures forall i | 0 <= i < allTypes.Length && i != number :: allTypes[i] == old(allTypes[i])
    {
      var made := new TypeRec();
      allTypes[number] := made;
      owned := owned + {made};
      assert forall n :: At(n) == old(At(n));
    }

    method Grow(length: nat)
      requires Valid() && allTypes.Length < length
      modifies this`allTypes
      ensures Valid() && Value() == old(Value()) && fresh(allTypes) && allTypes.Length == length
      ensures forall i | 0 <= i < length ::
                allTypes[i] == if i < old(allTypes.Length) then old(allTypes[i]) else null
    {
      hide NoLinks;
      var longer := new TypeRec?[length];
      for i := 0 to length
        modifies longer
        invariant forall j | 0 <= j < i :: longer[j] == if j < allTypes.Length then allTypes[j] else null
      {
        longer[i] := if i < allTypes.Length then allTypes[i] else null;
      }
      allTypes := longer;
      assert Valid();
      assert forall n :: At(n) == old(At(n));
    }

    method Link(number: nat, next: nat)
      requires Valid() && number < allTypes.Length && allTypes[number] != null
      modifies allTypes[number]
      ensures Valid() && Value() == old(Value()).(at :=
                old(Value()).at[number := Links(true, next, old(Value()).at[number].first)])
    {
      allTypes[number].defined := true;
      allTypes[number].nextSibling := next;
      assert forall n | n != number :: At(n) == old(At(n));
    }

    method Adopt(parent: nat, number: nat)
      requires Valid() && parent < allTypes.Length && allTypes[parent] != null
      modifies allTypes[parent]
      ensures Valid() && Value() == old(Value()).(at :=
                old(Value()).at[parent := old(Value()).at[parent].(first := number)])
    {
      allTypes[parent].firstChild := number;
      assert forall n | n != parent :: At(n) == old(At(n));
    }

    /** Action 4: false stands for the program dying of a second definition. */
    method Define(d: TypeDef) returns (ok: bool)
      requires Valid()
      modifies this, allTypes, owned
      ensures Valid() && fresh(owned - old(owned)) && (allTypes == old(allTypes) || fresh(allTypes))
      ensures ok == !old(Value()).at[d.number].defined
      ensures Value() == if ok then Joined(old(Value()), d) else old(Value())
    {
      hide NoLinks;
      var record := Record(d.number);
      assert At(d.number).defined == record.defined;
      if record.defined {
        return false;
      }
      if d.number == d.parent {
        Link(d.number, rootType);
        rootType := d.number;
      } else {
        LinkChild(d);
      }
      ok := true;
    }

    method LinkChild(d: TypeDef)
      requires Valid() && d.number < allTypes.Length && allTypes[d.number] != null && d.number != d.parent
      modifies this`allTypes, this`owned, allTypes, owned
      ensures Valid() && fresh(owned - old(owned)) && (allTypes == old(allTypes) || fresh(allTypes))
      ensures Value() == Joined(old(Value()), d)
    {
      hide NoLinks;
      var parent := Record(d.parent);
      assert At(d.parent).first == parent.firstChild;
      Link(d.number, parent.firstChild);
      Adopt(d.parent, d.number);
    }

    /** All definitions of a file; the program dies of the first that repeats a number. */
    method DefineAll(defs: seq<TypeDef>) returns (ok: bool)
      requires Valid() && Value() == EmptyForest()
      modifies this, allTypes, owned
      ensures Valid() && ok == Distinct(defs) && (ok ==> After(defs) == Left(Value()))
      ensures ok ==> (Represents(Value(), defs) <==> !Numbers(defs, 0))
    {
      hide Joined, Represents, Valid;
      var i := 0;
      ok := true;
      while ok && i < |defs|
        invariant i <= |defs| && Valid()
        invariant fresh(owned - old(owned)) && (allTypes == old(allTypes) || fresh(allTypes))
        invariant if ok then After(defs[..i]) == Left(Value()) else !Distinct(defs)
      {
        assert defs[..i + 1][..i] == defs[..i];
        ok := Define(defs[i]);
        i := i + 1;
        SurvivesIfDistinct(defs[..i]);
      }
      assert defs[..|defs|] == defs;
      SurvivesIfDistinct(defs);
      if ok {
        ListedIffNoZero(defs);
      }
    }

    /** The loops over a list, as in src/cmixshow/annocut.c: they visit the members in turn and end. */
    method Visit(start: nat, ghost members: seq<nat>) returns (seen: seq<nat>)
      requires Valid() && Lists(Value(), start, members)
      requires forall n | n in members :: Value().at[n].defined
      ensures seen == members
    {
      seen := [];
      var i := start;
      ghost var rest := members;
      while i != 0
        invariant Lists(Value(), i, rest) && seen + rest == members
        decreases |rest|
      {
        assert i == rest[0] && i in members;
        assert Value().at[i] == At(i);
        seen := seen + [i];
        i, rest := allTypes[i].nextSibling, rest[1..];
      }
    }
  }
}
