/** pkg/objectset: the objects a caller wants, filed by kind and by version. */
module ObjectSet {
  import opened Common
  import opened Kube
  import opened Sorting

  /** ObjectByGVK.Add, and the same for any other way of filing: the last object added under a key is
      the one that is kept. */
  function File<G(==)>(m: map<G, Objs>, g: G, o: Object): map<G, Objs> {
    var objs := if g in m then m[g] else map[];
    m[g := objs[o.MetaKey() := o]]
  }

  function FiledByGVK(order: seq<Object>): map<GVK, Objs> {
    if order == [] then map[]
    else
      var o := order[|order| - 1];
      File(FiledByGVK(order[..|order| - 1]), o.gvk, o)
  }

  function FiledByGK(order: seq<Object>): map<GroupKind, Objs> {
    if order == [] then map[]
    else
      var o := order[|order| - 1];
      File(FiledByGK(order[..|order| - 1]), o.gvk.GK(), o)
  }

  /** The kinds in the order in which they first appear. */
  function FirstSeen(order: seq<Object>): seq<GVK> {
    if order == [] then []
    else
      var rest, gvk := FirstSeen(order[..|order| - 1]), order[|order| - 1].gvk;
      if gvk in rest then rest else rest + [gvk]
  }

  function At<G(==)>(m: map<G, Objs>, g: G, k: Key): Option<Object> {
    if g in m then Find(m[g], k) else None
  }

  /** What a caller hands to Add. */
  datatype Candidate = Nil | Broken | Present(o: Object)

  class ObjectSet {
    var errs: nat
    var objects: map<GVK, Objs>
    var objectsByGK: map<GroupKind, Objs>
    var order: seq<Object>
    var gvkOrder: seq<GVK>
    var gvkSeen: set<GVK>

    /** Every field is determined by the list of objects added. */
    ghost predicate Valid()
      reads this
    {
      && objects == FiledByGVK(order)
      && objectsByGK == FiledByGK(order)
      && gvkOrder == FirstSeen(order)
      && gvkSeen == Elements(gvkOrder)
    }

    constructor ()
      ensures Valid() && order == [] && errs == 0
    {
      errs, objects, objectsByGK, order, gvkOrder, gvkSeen := 0, map[], map[], [], [], {};
    }

    method AddOne(c: Candidate)
      requires Valid()
      modifies this
      ensures Valid()
      ensures order == old(order) + (if c.Present? then [c.o] else [])
      ensures errs == old(errs) + (if c.Broken? then 1 else 0)
    {
      match c
      case Nil =>
      case Broken => errs := errs + 1;
      case Present(o) =>
        var gvk := o.gvk;
        assert (order + [o])[..|order|] == order;
        objects := File(objects, gvk, o);
        objectsByGK := File(objectsByGK, gvk.GK(), o);
        order := order + [o];
        if gvk !in gvkSeen {
          gvkSeen := gvkSeen + {gvk};
          gvkOrder := gvkOrder + [gvk];
        }
    }

    method Add(objs: seq<Candidate>)
      requires Valid()
      modifies this
      ensures Valid()
      ensures order == old(order) + Accepted(objs)
      ensures errs == old(errs) + Count(objs, Broken)
    {
      for i := 0 to |objs|
        invariant Valid()
        invariant order == old(order) + Accepted(objs[..i])
        invariant errs + Count(objs[i..], Broken) == old(errs) + Count(objs, Broken)
      {
        AddOne(objs[i]);
        assert objs[i..][1..] == objs[i + 1..];
        assert objs[..i + 1][..i] == objs[..i];
      }
      assert objs[..|objs|] == objs;
    }

    method Contains(gk: GroupKind, key: Key) returns (b: bool)
      requires Valid()
      ensures b <==> exists o :: o in order && o.gvk.GK() == gk && o.MetaKey() == key
    {
      b := gk in objectsByGK && key in objectsByGK[gk];
      IndexHolds(order, gk, key);
    }

    /** Desired kinds first, in the order of their first object, then the other known kinds by name. */
    method GVKOrder(known: seq<GVK>) returns (r: seq<GVK>)
      requires Valid()
      ensures Distinct(known) ==> ProcessingOrder(order, known, r)
    {
      var rest := [];
      for i := 0 to |known|
        invariant forall g :: g in rest <==> g in known[..i] && g !in gvkSeen
        invariant Distinct(known) ==> Distinct(rest)
      {
        assert known[..i + 1] == known[..i] + [known[i]];
        if known[i] !in gvkSeen {
          assert Distinct(known) ==> known[i] !in known[..i];
          rest := rest + [known[i]];
        }
      }
      assert known[..|known|] == known;
      var sorted := Sort(rest, (g: GVK) => g.Text());
      PermutationFacts(sorted, rest);
      r := gvkOrder + sorted;
      assert r[..|gvkOrder|] == gvkOrder && r[|gvkOrder|..] == sorted;
      FirstSeenFacts(order);
      if Distinct(known) {
        DistinctConcat(gvkOrder, sorted);
      }
    }
  }

  function Accepted(objs: seq<Candidate>): seq<Object> {
    if objs == [] then []
    else
      var c := objs[|objs| - 1];
      Accepted(objs[..|objs| - 1]) + if c.Present? then [c.o] else []
  }

  /** The kinds a run processes, given the kinds that are known for pruning. */
  ghost predicate ProcessingOrder(order: seq<Object>, known: seq<GVK>, r: seq<GVK>) {
    var n := |FirstSeen(order)|;
    && n <= |r| && r[..n] == FirstSeen(order)
    && Distinct(r)
    && (forall g :: g in r <==> g in known || exists o :: o in order && o.gvk == g)
    && Sorted(r[n..], (g: GVK) => g.Text())
  }

  /** gvkOrder holds the kind of every object once, and no other; each kind stands where its first
      object came. */
  lemma {:induction false} FirstSeenFacts(order: seq<Object>)
    ensures Distinct(FirstSeen(order))
    ensures forall g :: g in FirstSeen(order) <==> exists o :: o in order && o.gvk == g
    ensures Elements(FirstSeen(order)) == FiledByGVK(order).Keys
  {
    if order != [] {
      var n := |order| - 1;
      FirstSeenFacts(order[..n]);
      assert order == order[..n] + [order[n]];
      forall g ensures g in FirstSeen(order) <==> exists o :: o in order && o.gvk == g {
        if g == order[n].gvk {
          assert order[n] in order;
        }
      }
    }
  }

  /** x stands somewhere before y. */
  ghost predicate Before<T>(s: seq<T>, x: T, y: T) {
    exists a, b :: 0 <= a < b < |s| && s[a] == x && s[b] == y
  }

  lemma BeforeInLonger<T>(s: seq<T>, x: T, y: T, z: T)
    requires Before(s, x, y)
    ensures Before(s + [z], x, y)
  {
    var a, b :| 0 <= a < b < |s| && s[a] == x && s[b] == y;
    assert (s + [z])[a] == x && (s + [z])[b] == y;
  }

  lemma BeforeLast<T>(s: seq<T>, x: T, z: T)
    requires x in s
    ensures Before(s + [z], x, z)
  {
    var a :| 0 <= a < |s| && s[a] == x;
    assert (s + [z])[a] == x && (s + [z])[|s|] == z;
  }

  /** A kind whose first object came later than some object of another kind stands after that kind. */
  lemma {:induction false} FirstSeenInOrder(order: seq<Object>, i: nat, j: nat)
    requires i < j < |order|
    requires forall h :: 0 <= h < j ==> order[h].gvk != order[j].gvk
    ensures Before(FirstSeen(order), order[i].gvk, order[j].gvk)
  {
    hide Before;
    var n := |order| - 1;
    var seen := FirstSeen(order[..n]);
    FirstSeenFacts(order[..n]);
    if j < n {
      FirstSeenInOrder(order[..n], i, j);
      BeforeInLonger(seen, order[i].gvk, order[j].gvk, order[n].gvk);
    } else {
      assert order[..n][i] in order[..n];
      assert order[j].gvk !in seen;
      BeforeLast(seen, order[i].gvk, order[j].gvk);
    }
  }

  /** The group/kind index is the union over the versions: a key is under a group and kind exactly if it
      is under one of its versions, and the object is the newest of those. */
  lemma {:induction false} IndexIsUnion(order: seq<Object>, gk: GroupKind, k: Key)
    ensures At(FiledByGK(order), gk, k).Some? <==>
      exists gvk: GVK :: gvk.GK() == gk && At(FiledByGVK(order), gvk, k).Some?
    ensures At(FiledByGK(order), gk, k).Some? ==>
      var o := At(FiledByGK(order), gk, k).value;
      o.gvk.GK() == gk && o.MetaKey() == k && At(FiledByGVK(order), o.gvk, k) == Some(o)
  {
    if order != [] {
      var n := |order| - 1;
      IndexIsUnion(order[..n], gk, k);
      var o, before, after := order[n], FiledByGVK(order[..n]), FiledByGVK(order);
      forall gvk: GVK
        ensures At(after, gvk, k) == if gvk == o.gvk && o.MetaKey() == k then Some(o) else At(before, gvk, k) {}
      if gk == o.gvk.GK() && k == o.MetaKey() {
        assert At(after, o.gvk, k) == Some(o);
      }
    }
  }

  lemma {:induction false} IndexHolds(order: seq<Object>, gk: GroupKind, k: Key)
    ensures At(FiledByGK(order), gk, k).Some? <==> exists o :: o in order && o.gvk.GK() == gk && o.MetaKey() == k
  {
    if order != [] {
      var n := |order| - 1;
      IndexHolds(order[..n], gk, k);
      assert order == order[..n] + [order[n]];
      if order[n].gvk.GK() == gk && order[n].MetaKey() == k {
        assert order[n] in order;
      }
    }
  }

  /** What is filed is what was added, under its own kind and key, and everything added is filed. */
  lemma {:induction false} FiledFacts(order: seq<Object>)
    ensures forall gvk, k {:trigger At(FiledByGVK(order), gvk, k)} :: At(FiledByGVK(order), gvk, k).Some? ==>
      var o := At(FiledByGVK(order), gvk, k).value;
      o in order && o.gvk == gvk && o.MetaKey() == k
    ensures forall o :: o in order ==> At(FiledByGVK(order), o.gvk, o.MetaKey()).Some?
  {
    if order != [] {
      var n := |order| - 1;
      FiledFacts(order[..n]);
      assert order == order[..n] + [order[n]];
      var o, before, after := order[n], FiledByGVK(order[..n]), FiledByGVK(order);
      forall gvk, k
        ensures At(after, gvk, k) == if gvk == o.gvk && o.MetaKey() == k then Some(o) else At(before, gvk, k) {}
    }
  }

  /** The object was added, and none was added later under its kind and key. */
  ghost predicate Latest(order: seq<Object>, o: Object) {
    exists n :: 0 <= n < |order| && order[n] == o &&
      forall m :: n < m < |order| ==> order[m].gvk != o.gvk || order[m].MetaKey() != o.MetaKey()
  }

  /** What is filed under a kind and a key is the object added last under them. */
  lemma {:induction false} LastOneIsFiled(order: seq<Object>, gvk: GVK, k: Key, o: Object)
    ensures At(FiledByGVK(order), gvk, k) == Some(o) <==> o.gvk == gvk && o.MetaKey() == k && Latest(order, o)
  {
    if order != [] {
      var n := |order| - 1;
      var before := order[..n];
      LastOneIsFiled(before, gvk, k, o);
      assert At(FiledByGVK(order), gvk, k) ==
        if order[n].gvk == gvk && order[n].MetaKey() == k then Some(order[n]) else At(FiledByGVK(before), gvk, k);
      LatestOfLonger(order, o);
    }
  }

  lemma LatestOfLonger(order: seq<Object>, o: Object)
    requires order != []
    ensures var n := |order| - 1;
      Latest(order, o) <==>
        order[n] == o || ((order[n].gvk != o.gvk || order[n].MetaKey() != o.MetaKey()) && Latest(order[..n], o))
  {
    var n := |order| - 1;
    var before := order[..n];
    assert forall m :: 0 <= m < n ==> before[m] == order[m];
    if Latest(order, o) {
      var m :| 0 <= m < |order| && order[m] == o &&
        forall l :: m < l < |order| ==> order[l].gvk != o.gvk || order[l].MetaKey() != o.MetaKey();
      if m < n {
        assert before[m] == o;
      }
    }
    if Latest(before, o) && (order[n].gvk != o.gvk || order[n].MetaKey() != o.MetaKey()) {
      var m :| 0 <= m < n && before[m] == o &&
        forall l :: m < l < n ==> before[l].gvk != o.gvk || before[l].MetaKey() != o.MetaKey();
      assert order[m] == o;
    }
    if order[n] == o {
      assert order[n] == o;
    }
  }
}
