/** How process normalises the desired objects of one kind before it compares them with the cluster
    (desiredset_process.go): owner references, default namespaces, cluster scope.

    Each of the three functions rewrites a Go map while ranging over it.  Such a range visits every
    entry that was there from the start in an arbitrary order, and may or may not also visit an entry
    created on the way.  The loops below pick both nondeterministically. */
module Namespaces {
  import opened Common
  import opened Kube

  /** One visit of a range loop: an object may be rewritten, and one without a namespace is filed again
      under the namespace dest (when moves is set). */
  datatype Visit = Visit(fix: (Key, Object) -> Object, moves: bool, dest: string) {
    function Target(k: Key): Key {
      if moves && k.ns == "" then Key(dest, k.name) else k
    }

    /** What the body of the loop does to the map when it is given key k. */
    function At(m: Objs, k: Key): Objs
      requires k in m
    {
      var v := fix(k, m[k]);
      var m' := m[k := v];
      if Target(k) == k then m' else (m' - {k})[Target(k) := v]
    }

    /** A second look at a rewritten entry changes nothing more. */
    ghost predicate Settles() {
      forall k, o {:trigger fix(k, o)} :: fix(Target(k), fix(k, o)) == fix(k, o)
    }

    /** The entry that ends up at q: an object declared without a namespace wins over one that was
        declared in the namespace it moves to. */
    function Source(m: Objs, q: Key): Key {
      if moves && q.ns == dest && Key("", q.name) in m then Key("", q.name) else q
    }

    /** The map after the loop, whatever the order. */
    function All(m: Objs): (r: Objs) {
      map q | q in (set k | k in m :: Target(k)) :: fix(Source(m, q), m[Source(m, q)])
    }

    ghost predicate Arrived(m: Objs, todo: set<Key>, q: Key) {
      moves && q.ns == dest && Key("", q.name) in m && Key("", q.name) !in todo
    }

    /** What is filed at q while the entries in todo have not been visited. */
    ghost function Entry(m: Objs, todo: set<Key>, q: Key): Option<Object> {
      if Arrived(m, todo, q) then Some(fix(Key("", q.name), m[Key("", q.name)]))
      else if q in m && q in todo then Some(m[q])
      else if q in m && Target(q) == q then Some(fix(q, m[q]))
      else None
    }

    ghost predicate Halfway(m: Objs, todo: set<Key>, h: Objs) {
      forall q :: Find(h, q) == Entry(m, todo, q)
    }

    lemma Finish(m: Objs, h: Objs)
      requires Halfway(m, {}, h)
      ensures h == All(m)
    {
      forall q ensures Find(h, q) == Find(All(m), q) {
        assert Find(h, q) == Entry(m, {}, q);
        if Arrived(m, {}, q) { assert Target(Key("", q.name)) == q; }
      }
      forall q ensures q in h <==> q in All(m) { assert Find(h, q) == Find(All(m), q); }
      forall q | q in h ensures h[q] == All(m)[q] { assert Find(h, q) == Find(All(m), q); }
    }

    lemma CameFrom(m: Objs, q: Key)
      requires q in All(m)
      ensures Source(m, q) in m && Target(Source(m, q)) == q && All(m)[q] == fix(Source(m, q), m[Source(m, q)])
    {
      var k :| k in m && Target(k) == q;
    }

    lemma FirstVisit(m: Objs, todo: set<Key>, k: Key, h: Objs)
      requires k in todo && todo <= m.Keys && Halfway(m, todo, h)
      ensures k in h && (Settles() ==> Halfway(m, todo - {k}, At(h, k)))
    {
      assert Find(h, k) == Entry(m, todo, k);
      if Settles() {
        forall q ensures Find(At(h, k), q) == Entry(m, todo - {k}, q) {
          assert Find(h, q) == Entry(m, todo, q);
          FirstVisitAt(m, todo, k, h, q);
        }
      }
    }

    lemma FirstVisitAt(m: Objs, todo: set<Key>, k: Key, h: Objs, q: Key)
      requires k in todo && todo <= m.Keys && k in h && Settles()
      requires Some(h[k]) == Entry(m, todo, k) && Find(h, q) == Entry(m, todo, q)
      ensures Find(At(h, k), q) == Entry(m, todo - {k}, q)
    {
      if q == Target(k) {
        var b := Key("", k.name);
        assert Find(At(h, k), q) == Some(fix(k, h[k]));
        if Arrived(m, todo, k) {
          assert Target(b) == k && h[k] == fix(b, m[b]);
        }
      } else if q == k {
        assert Find(At(h, k), q) == None;
      } else {
        assert Find(At(h, k), q) == Find(h, q);
      }
    }

    lemma Revisit(m: Objs, todo: set<Key>, k: Key, h: Objs)
      requires k !in todo && k in h && Halfway(m, todo, h) && Settles()
      ensures At(h, k) == h
    {
      assert Find(h, k) == Entry(m, todo, k);
      if Arrived(m, todo, k) {
        assert Target(Key("", k.name)) == k;
      }
      assert Target(k) == k && fix(k, h[k]) == h[k];
      assert h[k := h[k]] == h;
    }
  }

  /** The loop that makes the visits: the set of keys still to come after a visit to k. */
  lemma VisitHolds(v: Visit, declared: Objs, todo: set<Key>, k: Key, h: Objs)
    requires v.Settles() && todo <= declared.Keys && v.Halfway(declared, todo, h)
    requires k in todo || k in h
    ensures k in h && v.Halfway(declared, todo - {k}, v.At(h, k))
  {
    hide v.Halfway, v.Settles, v.At;
    if k in todo {
      v.FirstVisit(declared, todo, k, h);
    } else {
      v.Revisit(declared, todo, k, h);
      assert todo - {k} == todo;
    }
  }

  /** The next entry of the range: one not visited yet, or any entry again (a superset of what Go may
      visit again). */
  method Next(objs: Objs, todo: set<Key>, revisits: nat) returns (k: Key)
    requires todo != {} || (revisits > 0 && objs != map[])
    ensures k in todo || (revisits > 0 && k in objs)
  {
    var again: bool := *;
    if todo == {} || (again && revisits > 0 && objs != map[]) {
      assert objs.Keys != {};
      k :| k in objs.Keys;
    } else {
      k :| k in todo;
    }
  }

  // -------- owner references --------

  /** The owner as assignOwnerReference sees it. */
  datatype Ownership = Ownership(ns: string, nsed: bool, ref: OwnerRef)

  function WithOwner(ref: OwnerRef, o: Object): Object {
    if exists i :: 0 <= i < |o.owners| && o.owners[i].uid == ref.uid then o
    else o.(owners := o.owners + [ref])
  }

  /** Owners cannot be set across the boundary of their own namespace. */
  predicate Reaches(own: Ownership, nsed: bool, k: Key) {
    !own.nsed || (nsed && (k.ns == "" || k.ns == own.ns))
  }

  function Adopt(own: Ownership, nsed: bool, k: Key, o: Object): Object {
    if !Reaches(own, nsed, k) then o
    else WithOwner(own.ref, if nsed && k.ns == "" then o.(ns := own.ns) else o)
  }

  function Adoption(own: Ownership, nsed: bool): Visit {
    Visit((k, o) => Adopt(own, nsed, k, o), nsed, own.ns)
  }

  lemma AdoptionSettles(own: Ownership, nsed: bool)
    ensures Adoption(own, nsed).Settles()
  {
    var v := Adoption(own, nsed);
    forall k, o ensures v.fix(v.Target(k), v.fix(k, o)) == v.fix(k, o) {
      if Reaches(own, nsed, k) {
        var p := if nsed && k.ns == "" then o.(ns := own.ns) else o;
        var a := WithOwner(own.ref, p);
        assert a.owners == p.owners + [own.ref] ==> a.owners[|p.owners|].uid == own.ref.uid;
      }
    }
  }

  /** Append the owner unless one of the references already has its UID. */
  method AppendOwner(ref: OwnerRef, o: Object) returns (r: Object)
    ensures r == WithOwner(ref, o)
  {
    for i := 0 to |o.owners|
      invariant forall j :: 0 <= j < i ==> o.owners[j].uid != ref.uid
    {
      if o.owners[i].uid == ref.uid {
        return o;
      }
    }
    r := o.(owners := o.owners + [ref]);
  }

  /** One turn of the loop in assignOwnerReference. */
  method AdoptOne(own: Ownership, nsed: bool, k: Key, before: Objs) returns (objs: Objs)
    requires k in before
    ensures objs == Adoption(own, nsed).At(before, k)
  {
    objs := before;
    // can't set owners across boundaries
    if own.nsed && (!nsed || (k.ns != "" && k.ns != own.ns)) {
      assert before[k := before[k]] == before;
      return;
    }
    var o, target := objs[k], k;
    if nsed && k.ns == "" {
      o, target := o.(ns := own.ns), Key(own.ns, k.name);
    }
    o := AppendOwner(own.ref, o);
    objs := objs[k := o];
    if nsed && k.ns == "" {
      assert objs - {k} == before - {k};
      objs := objs - {k};
      objs := objs[target := o];
      assert target == k ==> objs == before[k := o];
    }
  }

  method AssignOwnerReference(own: Ownership, nsed: bool, declared: Objs) returns (objs: Objs)
    ensures objs == Adoption(own, nsed).All(declared)
  {
    hide Adopt, WithOwner;
    ghost var v := Adoption(own, nsed);
    AdoptionSettles(own, nsed);
    objs := declared;
    var todo, revisits: nat := objs.Keys, *;
    while todo != {} || (revisits > 0 && objs != map[])
      invariant todo <= declared.Keys
      invariant v.Halfway(declared, todo, objs)
      decreases revisits, |todo|
    {
      var k := Next(objs, todo, revisits);
      VisitHolds(v, declared, todo, k, objs);
      if k !in todo {
        revisits := revisits - 1;
      }
      todo := todo - {k};
      objs := AdoptOne(own, nsed, k, objs);
    }
    v.Finish(declared, objs);
  }

  // -------- namespaces --------

  function Defaulting(ns: string): Visit {
    Visit((k: Key, o: Object) => if k.ns == "" then o.(ns := ns) else o, true, ns)
  }

  lemma DefaultingSettles(ns: string)
    ensures Defaulting(ns).Settles()
  {
  }

  /** One turn of the loop in adjustNamespace. */
  method DefaultOne(ns: string, k: Key, before: Objs) returns (objs: Objs)
    requires k in before
    ensures objs == Defaulting(ns).At(before, k)
  {
    objs := before;
    if k.ns != "" {
      assert before[k := before[k]] == before;
      return;
    }
    var o, target := objs[k].(ns := ns), Key(ns, k.name);
    assert before[k := o] - {k} == before - {k};
    objs := objs - {k};
    objs := objs[target := o];
    assert target == k ==> objs == before[k := o];
  }

  method AdjustNamespace(ns: string, declared: Objs) returns (objs: Objs)
    ensures objs == Defaulting(ns).All(declared)
  {
    ghost var v := Defaulting(ns);
    DefaultingSettles(ns);
    hide Defaulting;
    objs := declared;
    var todo, revisits: nat := objs.Keys, *;
    while todo != {} || (revisits > 0 && objs != map[])
      invariant todo <= declared.Keys
      invariant v.Halfway(declared, todo, objs)
      decreases revisits, |todo|
    {
      var k := Next(objs, todo, revisits);
      VisitHolds(v, declared, todo, k, objs);
      if k !in todo {
        revisits := revisits - 1;
      }
      todo := todo - {k};
      objs := DefaultOne(ns, k, objs);
    }
    v.Finish(declared, objs);
  }

  /** The namespaced objects of a name that have been visited, without their namespaces. */
  ghost function Candidates(declared: Objs, todo: set<Key>, name: string): set<Object> {
    set k | k in declared && k !in todo && k.name == name && k.ns != "" :: declared[k].(ns := "")
  }

  /** o is a possible entry for a name while the keys in todo have not been visited. */
  ghost predicate ClearedFrom(declared: Objs, todo: set<Key>, name: string, o: Object) {
    if Candidates(declared, todo, name) != {} then o in Candidates(declared, todo, name)
    else Key("", name) in declared && o == declared[Key("", name)]
  }

  /** What clearNamespace can leave behind: one entry a name, and where some object of that name had a
      namespace, one such object. */
  ghost predicate Cleared(declared: Objs, r: Objs) {
    && (forall q :: q in r <==> q.ns == "" && exists k :: k in declared && k.name == q.name)
    && forall q :: q in r ==> ClearedFrom(declared, {}, q.name, r[q])
  }

  method ClearNamespace(declared: Objs) returns (objs: Objs)
    ensures Cleared(declared, objs)
  {
    hide Cleared, Clearing;
    objs := declared;
    ClearingStarts(declared);
    var todo, revisits: nat := objs.Keys, *;
    while todo != {} || (revisits > 0 && objs != map[])
      invariant todo <= declared.Keys
      invariant Clearing(declared, todo, objs)
      decreases revisits, |todo|
    {
      var k := Next(objs, todo, revisits);
      ghost var before, pending := objs, todo;
      ClearingFinds(declared, todo, k, objs);
      if k !in todo {
        revisits := revisits - 1;
      }
      todo := todo - {k};
      if k.ns == "" {
        ClearingBlank(declared, pending, k, objs);
        continue;
      }
      var o, target := objs[k].(ns := ""), Key("", k.name);
      objs := objs - {k};
      objs := objs[target := o];
      ClearingMoves(declared, pending, k, before);
    }
    ClearingEnds(declared, objs);
  }

  /** clearNamespace with the entries in todo still unvisited. */
  ghost predicate Clearing(declared: Objs, todo: set<Key>, h: Objs) {
    && (forall q :: q in todo && q.ns != "" ==> Find(h, q) == Find(declared, q))
    && (forall q :: q in h && q.ns != "" ==> q in todo)
    && (forall q :: q in h && q.ns == "" ==> ClearedFrom(declared, todo, q.name, h[q]))
    && (forall k :: k in declared && (k !in todo || k.ns == "") ==> Key("", k.name) in h)
  }

  lemma ClearingStarts(declared: Objs)
    ensures Clearing(declared, declared.Keys, declared)
  {
    forall name ensures Candidates(declared, declared.Keys, name) == {} {}
    forall k | k in declared && k.ns == "" ensures Key("", k.name) == k {}
  }

  /** A key that is visited is there, and one that is visited again has no namespace. */
  lemma ClearingFinds(declared: Objs, todo: set<Key>, k: Key, h: Objs)
    requires Clearing(declared, todo, h) && todo <= declared.Keys && (k in todo || k in h)
    ensures k.ns != "" ==> k in todo && k in h
    ensures k.ns == "" ==> k in h
  {
    hide ClearedFrom;
    assert Find(h, k) == Find(declared, k) || k !in todo || k.ns == "";
    if k.ns == "" && k in declared {
      assert Key("", k.name) == k;
    }
  }

  lemma ClearingBlank(declared: Objs, todo: set<Key>, k: Key, h: Objs)
    requires k.ns == "" && Clearing(declared, todo, h)
    ensures Clearing(declared, todo - {k}, h)
  {
    forall q | q in h && q.ns == "" ensures ClearedFrom(declared, todo - {k}, q.name, h[q]) {
      assert ClearedFrom(declared, todo, q.name, h[q]);
      assert Candidates(declared, todo - {k}, q.name) == Candidates(declared, todo, q.name);
    }
  }

  lemma ClearingMoves(declared: Objs, todo: set<Key>, k: Key, h: Objs)
    requires k.ns != "" && k in todo && k in declared && k in h && Clearing(declared, todo, h)
    ensures Clearing(declared, todo - {k}, (h - {k})[Key("", k.name) := h[k].(ns := "")])
  {
    hide ClearedFrom;
    var h' := (h - {k})[Key("", k.name) := h[k].(ns := "")];
    assert Find(h, k) == Find(declared, k);
    forall q | q in h' && q.ns == "" ensures ClearedFrom(declared, todo - {k}, q.name, h'[q]) {
      if q.name == k.name {
        assert q == Key("", k.name);
        MovesIn(declared, todo, k);
      } else {
        assert ClearedFrom(declared, todo, q.name, h[q]);
        MovesPast(declared, todo, k, q.name, h[q]);
      }
    }
  }

  lemma MovesIn(declared: Objs, todo: set<Key>, k: Key)
    requires k in declared && k.ns != ""
    ensures ClearedFrom(declared, todo - {k}, k.name, declared[k].(ns := ""))
  {
    assert declared[k].(ns := "") in Candidates(declared, todo - {k}, k.name);
  }

  lemma MovesPast(declared: Objs, todo: set<Key>, k: Key, name: string, o: Object)
    requires name != k.name && ClearedFrom(declared, todo, name, o)
    ensures ClearedFrom(declared, todo - {k}, name, o)
  {
    assert Candidates(declared, todo - {k}, name) == Candidates(declared, todo, name);
  }

  lemma ClearingEnds(declared: Objs, h: Objs)
    requires Clearing(declared, {}, h)
    ensures Cleared(declared, h)
  {
    forall q ensures q in h <==> q.ns == "" && exists k :: k in declared && k.name == q.name {
      if q in h {
        assert q.ns == "" && ClearedFrom(declared, {}, q.name, h[q]);
        CandidateOf(declared, q.name, h[q]);
      }
      if k :| k in declared && k.name == q.name && q.ns == "" {
        assert Key("", k.name) == q;
      }
    }
  }

  lemma CandidateOf(declared: Objs, name: string, o: Object)
    requires ClearedFrom(declared, {}, name, o)
    ensures exists k :: k in declared && k.name == name
  {
  }

  // -------- what the three functions mean --------

  function UidCount(refs: seq<OwnerRef>, uid: string): nat {
    if refs == [] then 0 else UidCount(refs[..|refs| - 1], uid) + if refs[|refs| - 1].uid == uid then 1 else 0
  }

  lemma {:induction false} NoUid(refs: seq<OwnerRef>, uid: string)
    ensures UidCount(refs, uid) == 0 <==> forall i :: 0 <= i < |refs| ==> refs[i].uid != uid
  {
    if refs != [] {
      NoUid(refs[..|refs| - 1], uid);
      var last := |refs| - 1;
      assert forall i :: 0 <= i < last ==> refs[..last][i] == refs[i];
    }
  }

  /** Whatever the order of the range, every object ends up under the key its metadata spells; one
      inside the owner's boundary keeps its references in order and gains the owner exactly when none
      of them had its UID, and one outside is untouched. */
  lemma OwnersAfter(own: Ownership, nsed: bool, declared: Objs, q: Key)
    requires WellKeyed(declared)
    ensures var v, r := Adoption(own, nsed), Adoption(own, nsed).All(declared);
      q in r ==>
        var k := v.Source(declared, q);
        && k in declared && v.Target(k) == q && r[q].MetaKey() == q
        && declared[k].owners <= r[q].owners
        && r[q].labels == declared[k].labels && r[q].annotations == declared[k].annotations
        && (if !Reaches(own, nsed, k) then r[q] == declared[k]
            else var before := UidCount(declared[k].owners, own.ref.uid);
              && |r[q].owners| == |declared[k].owners| + (if before == 0 then 1 else 0)
              && UidCount(r[q].owners, own.ref.uid) == (if before == 0 then 1 else before))
  {
    var v := Adoption(own, nsed);
    if q in v.All(declared) {
      v.CameFrom(declared, q);
      var k := v.Source(declared, q);
      assert v.All(declared)[q] == Adopt(own, nsed, k, declared[k]);
      AdoptedFacts(own, nsed, k, declared[k]);
    }
  }

  /** One object, adopted. */
  lemma AdoptedFacts(own: Ownership, nsed: bool, k: Key, o: Object)
    requires o.MetaKey() == k
    ensures var r := Adopt(own, nsed, k, o);
      && r.MetaKey() == Adoption(own, nsed).Target(k)
      && o.owners <= r.owners && r.labels == o.labels && r.annotations == o.annotations
      && (if !Reaches(own, nsed, k) then r == o
          else var before := UidCount(o.owners, own.ref.uid);
            && |r.owners| == |o.owners| + (if before == 0 then 1 else 0)
            && UidCount(r.owners, own.ref.uid) == (if before == 0 then 1 else before))
  {
    NoUid(o.owners, own.ref.uid);
    var r := Adopt(own, nsed, k, o);
    assert r.owners == o.owners || r.owners[..|r.owners| - 1] == o.owners;
  }

  /** Any two namespaced objects of one name are the same but for their namespace. */
  ghost predicate NoRivals(declared: Objs) {
    forall j, k :: j in declared && k in declared && j.ns != "" && k.ns != "" && j.name == k.name ==>
      declared[j].(ns := "") == declared[k].(ns := "")
  }

  ghost predicate OneOutcome(declared: Objs) {
    forall a, b :: Cleared(declared, a) && Cleared(declared, b) ==> a == b
  }

  /** clearNamespace has one possible outcome exactly when no two namespaced objects are rivals for one
      name; otherwise the order of the range decides which one is kept. */
  lemma ClearingIsDeterminedExactlyWhen(declared: Objs)
    ensures OneOutcome(declared) <==> NoRivals(declared)
  {
    if NoRivals(declared) {
      forall a, b | Cleared(declared, a) && Cleared(declared, b) ensures a == b {
        ClearingAgrees(declared, a, b);
      }
    } else {
      var j, k :| j in declared && k in declared && j.ns != "" && k.ns != "" && j.name == k.name &&
                  declared[j].(ns := "") != declared[k].(ns := "");
      RivalsDisagree(declared, j, k);
    }
  }

  lemma ClearingAgrees(declared: Objs, a: Objs, b: Objs)
    requires NoRivals(declared) && Cleared(declared, a) && Cleared(declared, b)
    ensures a == b
  {
    forall q ensures q in a <==> q in b {}
    forall q | q in a ensures a[q] == b[q] {
      OneCandidate(declared, q.name, a[q], b[q]);
    }
  }

  lemma OneCandidate(declared: Objs, name: string, a: Object, b: Object)
    requires NoRivals(declared) && ClearedFrom(declared, {}, name, a) && ClearedFrom(declared, {}, name, b)
    ensures a == b
  {
  }

  lemma RivalsDisagree(declared: Objs, j: Key, k: Key)
    requires j in declared && k in declared && j.ns != "" && k.ns != "" && j.name == k.name
    requires declared[j].(ns := "") != declared[k].(ns := "")
    ensures !OneOutcome(declared)
  {
    hide Cleared;
    var q := Key("", j.name);
    var r := SomeClearing(declared);
    ClearingMayKeep(declared, r, j);
    ClearingMayKeep(declared, r, k);
    var a, b := r[q := declared[j].(ns := "")], r[q := declared[k].(ns := "")];
    assert Cleared(declared, a) && Cleared(declared, b) && a[q] != b[q];
  }

  lemma ClearingMayKeep(declared: Objs, r: Objs, k: Key)
    requires Cleared(declared, r) && k in declared && k.ns != ""
    ensures Cleared(declared, r[Key("", k.name) := declared[k].(ns := "")])
  {
    hide ClearedFrom;
    var r' := r[Key("", k.name) := declared[k].(ns := "")];
    forall q | q in r' ensures ClearedFrom(declared, {}, q.name, r'[q]) {
      if q.name == k.name && q.ns == "" {
        MovesIn(declared, {}, k);
        assert {} - {k} == {};
      } else {
        assert r'[q] == r[q];
      }
    }
  }

  ghost function Keep(declared: Objs, name: string): (o: Object)
    requires exists k :: k in declared && k.name == name
    ensures ClearedFrom(declared, {}, name, o)
  {
    var all := Candidates(declared, {}, name);
    var k :| k in declared && k.name == name;
    assert k.ns != "" ==> declared[k].(ns := "") in all;
    assert k.ns == "" ==> k == Key("", name);
    if o :| o in all then o else declared[Key("", name)]
  }

  lemma SomeClearing(declared: Objs) returns (r: Objs)
    ensures Cleared(declared, r)
  {
    hide ClearedFrom, Keep;
    r := map q | q in (set k | k in declared :: Key("", k.name)) :: Keep(declared, q.name);
    forall q ensures q in r <==> q.ns == "" && exists k :: k in declared && k.name == q.name {
      if k :| k in declared && k.name == q.name && q.ns == "" { assert Key("", k.name) == q; }
    }
  }
}
