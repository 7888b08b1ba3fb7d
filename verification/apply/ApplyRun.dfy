/** apply and dryRun (desiredset_apply.go): stamp the objects, file them by kind, process kind after kind. */
module ApplyRun {
  import opened Common
  import opened Kube
  import opened Engine
  import opened DesiredSet
  import OS = ObjectSet

  // -------- identity of a set --------

  function OwnerAnnotations(o: Owner): map<string, string> {
    map[LABEL_GVK := o.gvk.Text(), LABEL_NAME := o.name, LABEL_NAMESPACE := o.ns]
  }

  /** GetLabelsAndAnnotations: the annotations that name the set. */
  function AnnotationsFor(setID: string, owner: Option<Owner>): map<string, string> {
    map[LABEL_ID := setID] + (if owner.Some? then OwnerAnnotations(owner.value) else map[])
  }

  function Text(annotations: map<string, string>, key: string): string {
    if key in annotations then annotations[key] else ""
  }

  /** objectSetHash: one digest over the four values, one after the other. */
  function HashFor(digest: string -> string, annotations: map<string, string>): string {
    digest(Text(annotations, LABEL_ID) + Text(annotations, LABEL_GVK) +
           Text(annotations, LABEL_NAME) + Text(annotations, LABEL_NAMESPACE))
  }

  lemma TextsOf(setID: string, o: Owner)
    ensures var a := AnnotationsFor(setID, Some(o));
      && Text(a, LABEL_ID) == setID && Text(a, LABEL_GVK) == o.gvk.Text()
      && Text(a, LABEL_NAME) == o.name && Text(a, LABEL_NAMESPACE) == o.ns
  {
  }

  /** Nothing separates the four values, so sets whose owners' names and namespaces run together share
      their hash, whatever the digest: isolation is between hashes, not between owners. */
  lemma NeighbouringOwnersShareAHash(digest: string -> string, setID: string, gvk: GVK, uid: string, name: string,
                                     ns: string, cut: nat)
    requires cut <= |ns|
    ensures HashFor(digest, AnnotationsFor(setID, Some(Owner(gvk, ns, name, uid)))) ==
            HashFor(digest, AnnotationsFor(setID, Some(Owner(gvk, ns[cut..], name + ns[..cut], uid))))
  {
    hide HashFor, AnnotationsFor;
    HashOfIdentity(digest, setID, Some(Owner(gvk, ns, name, uid)));
    HashOfIdentity(digest, setID, Some(Owner(gvk, ns[cut..], name + ns[..cut], uid)));
    assert ns == ns[..cut] + ns[cut..];
    var text := gvk.group + "/" + gvk.version + ", Kind=" + gvk.kind;
    assert setID + text + name + ns == setID + text + (name + ns[..cut]) + ns[cut..];
  }

  /** What the digest is taken of, for an injective digest all that tells sets apart. */
  function IdentityOf(setID: string, owner: Option<Owner>): string {
    match owner
    case None => setID
    case Some(o) => setID + (o.gvk.group + "/" + o.gvk.version + ", Kind=" + o.gvk.kind) + o.name + o.ns
  }

  ghost predicate Injective(digest: string -> string) {
    forall x, y {:trigger digest(x), digest(y)} :: digest(x) == digest(y) ==> x == y
  }

  /** Two sets share their hash exactly when their texts run together alike. */
  lemma HashSharedExactlyWhen(digest: string -> string, idA: string, a: Option<Owner>, idB: string, b: Option<Owner>)
    requires Injective(digest)
    ensures HashFor(digest, AnnotationsFor(idA, a)) == HashFor(digest, AnnotationsFor(idB, b)) <==>
            IdentityOf(idA, a) == IdentityOf(idB, b)
  {
    HashOfIdentity(digest, idA, a);
    HashOfIdentity(digest, idB, b);
  }

  lemma HashOfIdentity(digest: string -> string, setID: string, owner: Option<Owner>)
    ensures HashFor(digest, AnnotationsFor(setID, owner)) == digest(IdentityOf(setID, owner))
  {
    hide AnnotationsFor, Text;
    match owner
    case None =>
      NoOwnerTexts(setID);
      assert setID + "" + "" + "" == setID;
    case Some(o) => TextsOf(setID, o);
  }

  lemma NoOwnerTexts(setID: string)
    ensures var a := AnnotationsFor(setID, None);
      && Text(a, LABEL_ID) == setID && Text(a, LABEL_GVK) == "" && Text(a, LABEL_NAME) == "" &&
        Text(a, LABEL_NAMESPACE) == ""
  {
  }

  function SetupFor(base: Setup, setID: string, digest: string -> string, order: seq<Object>): Setup {
    var annotations := AnnotationsFor(setID, base.owner);
    base.(hash := HashFor(digest, annotations), stamps := annotations, declared := DeclaredIds(order))
  }

  /** The keys of the group/kind index. */
  function DeclaredIds(order: seq<Object>): set<Id> {
    set o | o in order :: Id(o.gvk.GK(), o.MetaKey())
  }

  // -------- stamping and filing --------

  function StampAll(s: Setup, objects: map<GVK, Objs>): map<GVK, Objs> {
    map gvk | gvk in objects :: map k | k in objects[gvk] :: Stamped(s, objects[gvk][k])
  }

  /** Every object is filed under its own kind and key, and no kind is there without an object. */
  ghost predicate Filed(objects: map<GVK, Objs>) {
    forall gvk :: gvk in objects ==>
      objects[gvk] != map[] && forall k :: k in objects[gvk] ==>
        objects[gvk][k].gvk == gvk && objects[gvk][k].MetaKey() == k
  }

  lemma {:induction false} FiledRight(order: seq<Object>)
    ensures Filed(OS.FiledByGVK(order))
  {
    if order != [] {
      var n := |order| - 1;
      FiledRight(order[..n]);
      var o, m := order[n], OS.FiledByGVK(order[..n]);
      forall gvk | gvk in OS.FiledByGVK(order) ensures OS.FiledByGVK(order)[gvk] != map[] {
        if gvk == o.gvk {
          assert o.MetaKey() in OS.FiledByGVK(order)[gvk];
        }
      }
    }
  }

  predicate IsCopy(s: Setup, objects: map<GVK, Objs>, o: Object) {
    var source := OS.At(objects, o.gvk, o.MetaKey());
    source.Some? && o == Stamped(s, source.value)
  }

  /** The list holds a stamped copy of each of these objects and nothing else. */
  ghost predicate Copies(s: Setup, objects: map<GVK, Objs>, list: seq<Object>) {
    forall o :: o in list <==> IsCopy(s, objects, o)
  }

  /** The part of a range over two levels of maps that is behind us. */
  ghost function Visited(objects: map<GVK, Objs>, kinds: set<GVK>, gvk: GVK, keys: set<Key>): map<GVK, Objs> {
    map g | g in objects && g !in kinds ::
      if g == gvk then map k | k in objects[g] && k !in keys :: objects[g][k] else objects[g]
  }

  lemma VisitedAt(objects: map<GVK, Objs>, kinds: set<GVK>, gvk: GVK, keys: set<Key>, g: GVK, k: Key)
    ensures OS.At(Visited(objects, kinds, gvk, keys), g, k) ==
            if g in kinds || (g == gvk && k in keys) then None else OS.At(objects, g, k)
  {
  }

  lemma OneMoreCopy(s: Setup, objects: map<GVK, Objs>, kinds: set<GVK>, gvk: GVK, keys: set<Key>, k: Key,
                    list: seq<Object>)
    requires Filed(objects) && gvk in objects && gvk !in kinds && keys <= objects[gvk].Keys && k in keys
    requires Copies(s, Visited(objects, kinds, gvk, keys), list)
    ensures Copies(s, Visited(objects, kinds, gvk, keys - {k}), list + [Stamped(s, objects[gvk][k])])
  {
    hide Visited;
    var copy := Stamped(s, objects[gvk][k]);
    assert copy.gvk == gvk && copy.MetaKey() == k;
    forall o
      ensures IsCopy(s, Visited(objects, kinds, gvk, keys - {k}), o) <==>
              IsCopy(s, Visited(objects, kinds, gvk, keys), o) || o == copy
    {
      VisitedAt(objects, kinds, gvk, keys, o.gvk, o.MetaKey());
      VisitedAt(objects, kinds, gvk, keys - {k}, o.gvk, o.MetaKey());
    }
  }

  /** Visiting a kind, from the first key to the last. */
  lemma VisitedEnds(objects: map<GVK, Objs>, kinds: set<GVK>, gvk: GVK, g: GVK, k: Key)
    requires gvk in objects
    ensures OS.At(Visited(objects, kinds, gvk, objects[gvk].Keys), g, k) == OS.At(Behind(objects, kinds + {gvk}), g, k)
    ensures OS.At(Visited(objects, kinds, gvk, {}), g, k) == OS.At(Behind(objects, kinds), g, k)
  {
    VisitedAt(objects, kinds, gvk, objects[gvk].Keys, g, k);
    VisitedAt(objects, kinds, gvk, {}, g, k);
  }

  ghost function Behind(objects: map<GVK, Objs>, kinds: set<GVK>): map<GVK, Objs> {
    map g | g in objects && g !in kinds :: objects[g]
  }

  lemma SameCopies(s: Setup, a: map<GVK, Objs>, b: map<GVK, Objs>, list: seq<Object>)
    requires Copies(s, a, list)
    requires forall g, k :: OS.At(a, g, k) == OS.At(b, g, k)
    ensures Copies(s, b, list)
  {
    forall o ensures IsCopy(s, a, o) == IsCopy(s, b, o) {
      assert OS.At(a, o.gvk, o.MetaKey()) == OS.At(b, o.gvk, o.MetaKey());
    }
  }

  /** injectLabelsAndAnnotations: the stamped copies, in the order of two ranges over maps. */
  method InjectLabelsAndAnnotations(s: Setup, objects: map<GVK, Objs>) returns (result: seq<Object>)
    requires Filed(objects)
    ensures Copies(s, objects, result)
  {
    hide IsCopy, Copies, Visited, Filed, Stamped;
    result := [];
    var kinds := objects.Keys;
    assert Behind(objects, kinds) == map[];
    NoCopies(s);
    while kinds != {}
      invariant kinds <= objects.Keys
      invariant Copies(s, Behind(objects, kinds), result)
      decreases |kinds|
    {
      var gvk :| gvk in kinds;
      var keys := objects[gvk].Keys;
      assert kinds == (kinds - {gvk}) + {gvk};
      kinds := kinds - {gvk};
      forall g, k { VisitedEnds(objects, kinds, gvk, g, k); }
      SameCopies(s, Behind(objects, kinds + {gvk}), Visited(objects, kinds, gvk, keys), result);
      while keys != {}
        invariant keys <= objects[gvk].Keys
        invariant Copies(s, Visited(objects, kinds, gvk, keys), result)
        decreases |keys|
      {
        var k :| k in keys;
        OneMoreCopy(s, objects, kinds, gvk, keys, k, result);
        keys := keys - {k};
        result := result + [Stamped(s, objects[gvk][k])];
      }
      SameCopies(s, Visited(objects, kinds, gvk, {}), Behind(objects, kinds), result);
    }
    assert Behind(objects, kinds) == objects;
  }

  lemma NoCopies(s: Setup)
    ensures Copies(s, map[], [])
  {
  }

  /** collect: file the list by kind. */
  method Collect(list: seq<Object>) returns (result: map<GVK, Objs>)
    ensures result == OS.FiledByGVK(list)
  {
    result := map[];
    for i := 0 to |list|
      invariant result == OS.FiledByGVK(list[..i])
    {
      result := OS.File(result, list[i].gvk, list[i]);
      assert list[..i + 1][..i] == list[..i];
    }
    assert list[..|list|] == list;
  }

  /** Filing the stamped copies gives every kind its declared objects, stamped, whatever the order. */
  lemma CollectedIsStamped(s: Setup, objects: map<GVK, Objs>, list: seq<Object>)
    requires Filed(objects) && Copies(s, objects, list)
    ensures OS.FiledByGVK(list) == StampAll(s, objects)
  {
    hide Stamped, Copies, Filed;
    var filed, stamped := OS.FiledByGVK(list), StampAll(s, objects);
    FiledRight(list);
    forall gvk, k ensures OS.At(filed, gvk, k) == OS.At(stamped, gvk, k) {
      CollectedAt(s, objects, list, gvk, k);
    }
    StampAllFull(s, objects);
    SameFiling(filed, stamped);
  }

  ghost predicate NoEmptyKind(m: map<GVK, Objs>) {
    forall gvk :: gvk in m ==> exists k :: k in m[gvk]
  }

  lemma FullKinds(objects: map<GVK, Objs>)
    requires Filed(objects)
    ensures NoEmptyKind(objects)
  {
    forall gvk | gvk in objects ensures exists k :: k in objects[gvk] {
      assert objects[gvk].Keys != {};
    }
  }

  lemma StampAllFull(s: Setup, objects: map<GVK, Objs>)
    requires Filed(objects)
    ensures NoEmptyKind(StampAll(s, objects))
  {
    FullKinds(objects);
    forall gvk | gvk in StampAll(s, objects) ensures exists k :: k in StampAll(s, objects)[gvk] {
      var k :| k in objects[gvk];
      assert k in StampAll(s, objects)[gvk];
    }
  }

  lemma SameFiling(a: map<GVK, Objs>, b: map<GVK, Objs>)
    requires Filed(a) && NoEmptyKind(b)
    requires forall gvk, k :: OS.At(a, gvk, k) == OS.At(b, gvk, k)
    ensures a == b
  {
    FullKinds(a);
    forall gvk ensures gvk in a <==> gvk in b {
      if gvk in a {
        var k :| k in a[gvk];
        assert OS.At(b, gvk, k) == OS.At(a, gvk, k);
      }
      if gvk in b {
        var k :| k in b[gvk];
        assert OS.At(b, gvk, k) == OS.At(a, gvk, k);
      }
    }
    forall gvk | gvk in a ensures a[gvk] == b[gvk] {
      forall k ensures Find(a[gvk], k) == Find(b[gvk], k) {
        assert OS.At(a, gvk, k) == OS.At(b, gvk, k);
      }
      SameEntries(a[gvk], b[gvk]);
    }
  }

  lemma SameEntries(a: Objs, b: Objs)
    requires forall k :: Find(a, k) == Find(b, k)
    ensures a == b
  {
    forall k ensures k in a <==> k in b { assert Find(a, k) == Find(b, k); }
    forall k | k in a ensures a[k] == b[k] { assert Find(a, k) == Find(b, k); }
  }

  lemma CollectedAt(s: Setup, objects: map<GVK, Objs>, list: seq<Object>, gvk: GVK, k: Key)
    requires Filed(objects) && Copies(s, objects, list)
    ensures OS.At(OS.FiledByGVK(list), gvk, k) == OS.At(StampAll(s, objects), gvk, k)
  {
    OS.FiledFacts(list);
    var found, source := OS.At(OS.FiledByGVK(list), gvk, k), OS.At(objects, gvk, k);
    assert OS.At(StampAll(s, objects), gvk, k) == if source.Some? then Some(Stamped(s, source.value)) else None;
    if found.Some? {
      assert IsCopy(s, objects, found.value);
    }
    if source.Some? {
      var copy := Stamped(s, source.value);
      assert copy.gvk == gvk && copy.MetaKey() == k;
      assert IsCopy(s, objects, copy);
      assert OS.At(OS.FiledByGVK(list), copy.gvk, copy.MetaKey()).Some?;
    }
  }

  // -------- the run --------

  /** A caller's desired set: everything Apply and DryRun need to know. */
  class Applier {
    const base: Setup
    const setID: string
    const digest: string -> string
    const known: seq<GVK>
    const o: DesiredSet

    constructor (base: Setup, setID: string, digest: string -> string, known: seq<GVK>, o: DesiredSet)
      ensures this.base == base && this.setID == setID && this.digest == digest && this.known == known && this.o == o
    {
      this.base, this.setID, this.digest, this.known, this.o := base, setID, digest, known, o;
    }

    ghost function SetupOf(set_: OS.ObjectSet): Setup
      reads set_
    {
      SetupFor(base, setID, digest, set_.order)
    }

    /** apply: nothing is touched if the set has errors or no identity; otherwise the outcome is a run
        over the stamped objects in the processing order. */
    method Run(set_: OS.ObjectSet)
      returns (started: bool, ghost order: seq<GVK>, ghost choices: seq<Choice>, ghost states: seq<Engine.Run>)
      requires set_.Valid() && Distinct(known)
      modifies o`errs, o`plan, o.cluster
      ensures started <==> old(o.errs) == [] && set_.errs == 0 && (setID != "" || base.owner.Some?)
      ensures !started ==> o.cluster.Now() == old(o.cluster.Now()) && o.plan == old(o.plan)
      ensures started ==>
        && OS.ProcessingOrder(set_.order, known, order)
        && IsRun(SetupOf(set_), o.createPlan, order, StampAll(SetupOf(set_), OS.FiledByGVK(set_.order)),
                 choices, states)
        && states[0] == old(o.Now()) && o.Now() == states[|order|]
    {
      hide ProcessKind, Legal, StampAll;
      started, order, choices, states := false, [], [], [o.Now()];
      if o.errs != [] || set_.errs != 0 {
        return;
      }
      if setID == "" && base.owner.None? {
        o.errs := o.errs + [NoIdentity];
        return;
      }
      started := true;
      var annotations := AnnotationsFor(setID, base.owner);
      var s := base.(hash := HashFor(digest, annotations), stamps := annotations, declared := DeclaredIds(set_.order));
      FiledRight(set_.order);
      var list := InjectLabelsAndAnnotations(s, set_.objects);
      var objs := Collect(list);
      CollectedIsStamped(s, set_.objects, list);
      var kinds := set_.GVKOrder(known);
      order := kinds;
      choices, states := ProcessAll(s, kinds, objs);
    }

    /** The loop of apply, kind after kind. */
    method ProcessAll(s: Setup, kinds: seq<GVK>, objs: map<GVK, Objs>)
      returns (ghost choices: seq<Choice>, ghost states: seq<Engine.Run>)
      modifies o`errs, o`plan, o.cluster
      ensures IsRun(s, o.createPlan, kinds, objs, choices, states)
      ensures states[0] == old(o.Now()) && o.Now() == states[|kinds|]
    {
      hide ProcessKind, Legal;
      choices, states := [], [o.Now()];
      for i := 0 to |kinds|
        invariant |choices| == i && |states| == i + 1
        invariant states[0] == old(o.Now()) && states[i] == o.Now()
        invariant IsRun(s, o.createPlan, kinds[..i], objs, choices, states)
        modifies o`errs, o`plan, o.cluster
      {
        var gvk := kinds[i];
        ghost var c := o.Process(s, gvk, if gvk in objs then objs[gvk] else map[]);
        LongerRun(s, o.createPlan, kinds[..i], gvk, objs, choices, c, states, o.Now());
        assert kinds[..i + 1] == kinds[..i] + [gvk];
        choices := choices + [c];
        states := states + [o.Now()];
      }
      assert kinds[..|kinds|] == kinds;
    }

    method Apply(set_: OS.ObjectSet)
      returns (started: bool, ghost order: seq<GVK>, ghost choices: seq<Choice>, ghost states: seq<Engine.Run>)
      requires set_.Valid() && Distinct(known) && !o.createPlan
      modifies o`errs, o`plan, o.cluster
      ensures started ==>
        && OS.ProcessingOrder(set_.order, known, order)
        && IsRun(SetupOf(set_), false, order, StampAll(SetupOf(set_), OS.FiledByGVK(set_.order)), choices, states)
        && states[0] == old(o.Now()) && o.Now() == states[|order|]
    {
      started, order, choices, states := Run(set_);
    }

    method DryRun(set_: OS.ObjectSet)
      returns (plan: Plan, started: bool,
               ghost order: seq<GVK>, ghost choices: seq<Choice>, ghost states: seq<Engine.Run>)
      requires set_.Valid() && Distinct(known)
      modifies o`errs, o`plan, o`createPlan, o.cluster
      ensures plan == o.plan
      ensures started ==>
        && OS.ProcessingOrder(set_.order, known, order)
        && IsRun(SetupOf(set_), true, order, StampAll(SetupOf(set_), OS.FiledByGVK(set_.order)), choices, states)
        && states[0] == Engine.Run(old(o.cluster.Now()), old(o.errs), Plan(map[], map[], map[], []))
        && o.Now() == states[|order|]
    {
      o.createPlan := true;
      o.plan := Plan(map[], map[], map[], []);
      started, order, choices, states := Run(set_);
      plan := o.plan;
    }
  }

  lemma LongerRun(s: Setup, dry: bool, order: seq<GVK>, gvk: GVK, raws: map<GVK, Objs>,
                  choices: seq<Choice>, c: Choice, states: seq<Engine.Run>, last: Engine.Run)
    requires IsRun(s, dry, order, raws, choices, states)
    requires Legal(s, gvk, Raw(raws, gvk), states[|order|].w, c)
    requires last == ProcessKind(s, dry, gvk, Raw(raws, gvk), c, states[|order|])
    ensures IsRun(s, dry, order + [gvk], raws, choices + [c], states + [last])
  {
    hide ProcessKind, Legal;
  }
}
