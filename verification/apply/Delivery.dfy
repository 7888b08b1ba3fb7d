/** What an added object has become when it arrives in the cluster, field by field. */
module Delivery {
  import opened Common
  import opened Kube
  import opened Engine
  import opened EngineFacts
  import opened Convergence
  import opened Versions
  import opened ApplyRun
  import opened Guarantees
  import opened Namespaces
  import Retry
  import OS = ObjectSet

  // -------- stamping --------

  /** An annotation of the stamped object: one that names the set or its owner, or else the object's own; an old
      applied copy is left behind. */
  function AnnotationAt(setID: string, owner: Option<Owner>, o: Object, a: string): Option<string> {
    if a == "objectset.rio.cattle.io/id" then Some(setID)
    else if a == "objectset.rio.cattle.io/owner-gvk" && owner.Some? then
      Some(owner.value.gvk.group + "/" + owner.value.gvk.version + ", Kind=" + owner.value.gvk.kind)
    else if a == "objectset.rio.cattle.io/owner-name" && owner.Some? then Some(owner.value.name)
    else if a == "objectset.rio.cattle.io/owner-namespace" && owner.Some? then Some(owner.value.ns)
    else if a == "objectset.rio.cattle.io/applied" then None
    else Find(o.annotations, a)
  }

  /** The labels and annotations of the set on top of the object's own, and nothing else of them is new. */
  ghost predicate Labelled(setID: string, owner: Option<Owner>, hash: string, o: Object, p: Object) {
    && (forall l :: Find(p.labels, l) == if l == "objectset.rio.cattle.io/hash" then Some(hash) else Find(o.labels, l))
    && (forall a :: Find(p.annotations, a) == AnnotationAt(setID, owner, o, a))
  }

  /** injectLabelsAndAnnotations, one object: everything but labels and annotations is the object's own. */
  lemma StampedSays(base: Setup, setID: string, digest: string -> string, order: seq<Object>, o: Object)
    ensures var s := SetupFor(base, setID, digest, order);
      var p := Stamped(s, o);
      && p.gvk == o.gvk && p.ns == o.ns && p.name == o.name && p.owners == o.owners && p.body == o.body
      && Labelled(setID, base.owner, digest(IdentityOf(setID, base.owner)), o, p)
  {
    hide IdentityOf, HashFor, AnnotationsFor, AnnotationAt;
    HashOfIdentity(digest, setID, base.owner);
    forall a
      ensures Find((o.annotations - {LABEL_APPLIED}) + AnnotationsFor(setID, base.owner), a) ==
        AnnotationAt(setID, base.owner, o, a)
    {
      AnnotationIs(setID, base.owner, o, a);
    }
  }

  lemma AnnotationIs(setID: string, owner: Option<Owner>, o: Object, a: string)
    ensures Find((o.annotations - {LABEL_APPLIED}) + AnnotationsFor(setID, owner), a) ==
      AnnotationAt(setID, owner, o, a)
  {
  }

  // -------- owners --------

  /** The reference to the set's owner. */
  function ReferenceTo(s: Setup, o: Owner): OwnerRef {
    OwnerRef(if o.gvk.group == "" then o.gvk.version else o.gvk.group + "/" + o.gvk.version,
             o.gvk.kind, o.name, o.uid, s.controller, s.block)
  }

  /** The object gains the reference if references are to be set, the owner's own namespace, where it has one, is
      not left, and no reference to the owner is there yet. */
  predicate GainsOwner(s: Setup, gvk: GVK, o: Object) {
    && s.setOwnerReference && s.owner.Some?
    && gvk in s.scopes && s.owner.value.gvk in s.scopes
    && (s.scopes[s.owner.value.gvk] ==> s.scopes[gvk] && (o.ns == "" || o.ns == s.owner.value.ns))
    && forall i :: 0 <= i < |o.owners| ==> o.owners[i].uid != s.owner.value.uid
  }

  function OwnersOf(s: Setup, gvk: GVK, o: Object): seq<OwnerRef> {
    if GainsOwner(s, gvk, o) then o.owners + [ReferenceTo(s, s.owner.value)] else o.owners
  }

  /** What process makes of a declared object before it looks for it in the cluster: it stands under its final
      key and may have gained an owner; the rest is as it was. */
  ghost predicate Normal(s: Setup, gvk: GVK, o: Object, p: Object) {
    && p.MetaKey() == NormalKey(s, gvk, o.MetaKey()) && p.owners == OwnersOf(s, gvk, o)
    && p.gvk == o.gvk && p.labels == o.labels && p.annotations == o.annotations && p.body == o.body
  }

  lemma AdoptedFrom(s: Setup, gvk: GVK, raw: Objs, q: Key) returns (j: Key)
    requires !Refused(s, gvk) && WellKeyed(raw) && q in Adopted(s, gvk, raw)
    ensures j in raw && var p := Adopted(s, gvk, raw)[q];
      && p.MetaKey() == q && p == raw[j].(ns := p.ns, owners := OwnersOf(s, gvk, raw[j]))
      && q == if s.setOwnerReference && s.owner.Some? && s.scopes[gvk] && j.ns == ""
              then Key(s.owner.value.ns, j.name) else j
  {
    j := q;
    if s.setOwnerReference && s.owner.Some? {
      var own := OwnershipOf(s);
      var v := Adoption(own, s.scopes[gvk]);
      v.CameFrom(raw, q);
      j := v.Source(raw, q);
      assert Adopted(s, gvk, raw)[q] == Adopt(own, s.scopes[gvk], j, raw[j]);
      assert own.ref == ReferenceTo(s, s.owner.value);
    }
  }

  lemma NormalisedFrom(s: Setup, gvk: GVK, raw: Objs, objs: Objs, k: Key) returns (j: Key)
    requires !Refused(s, gvk) && WellKeyed(raw) && Normalised(s, gvk, raw, objs) && k in objs
    ensures j in raw && NormalKey(s, gvk, j) == k && Normal(s, gvk, raw[j], objs[k])
  {
    var mid := Adopted(s, gvk, raw);
    forall q | q in mid ensures mid[q].MetaKey() == q {
      var _ := AdoptedFrom(s, gvk, raw, q);
    }
    var i: Key;
    if s.scopes[gvk] {
      i := Defaulting(s.defaultNs).Source(mid, k);
      DefaultingKeeps(s.defaultNs, mid, k);
      Defaulting(s.defaultNs).CameFrom(mid, k);
    } else {
      i := ClearingKeeps(mid, objs, k);
    }
    j := AdoptedFrom(s, gvk, raw, i);
  }

  // -------- what process wants, and what is live in the end --------

  /** The wanted object, for an added one. */
  ghost predicate WantedFor(s: Setup, setID: string, hash: string, o: Object, p: Object) {
    && p.MetaKey() == NormalKey(s, o.gvk, o.MetaKey()) && p.gvk == o.gvk && p.body == o.body
    && p.owners == OwnersOf(s, o.gvk, o) && Labelled(setID, s.owner, hash, o, p)
  }

  lemma RawIsStamped(s: Setup, added: seq<Object>, gvk: GVK, j: Key)
    requires j in Raw(StampAll(s, OS.FiledByGVK(added)), gvk)
    ensures OS.At(OS.FiledByGVK(added), gvk, j).Some?
    ensures Raw(StampAll(s, OS.FiledByGVK(added)), gvk)[j] == Stamped(s, OS.At(OS.FiledByGVK(added), gvk, j).value)
  {
    hide Stamped, OS.FiledByGVK;
  }

  /** Every object that process wants is one that was added, the last under its key, field by field. */
  lemma WantedComesFromAdded(base: Setup, setID: string, digest: string -> string, added: seq<Object>, gvk: GVK,
                             objs: Objs, k: Key)
      returns (o: Object)
    requires var s := SetupFor(base, setID, digest, added);
      !Refused(s, gvk) && Normalised(s, gvk, Raw(StampAll(s, OS.FiledByGVK(added)), gvk), objs)
    requires k in objs
    ensures var s := SetupFor(base, setID, digest, added);
      && o.gvk == gvk && OS.Latest(added, o) && NormalKey(s, gvk, o.MetaKey()) == k
      && WantedFor(s, setID, digest(IdentityOf(setID, base.owner)), o, objs[k])
  {
    hide Normalised, StampAll, Refused, OS.Latest, OS.FiledByGVK, IdentityOf, HashFor, NormalKey;
    var s := SetupFor(base, setID, digest, added);
    var raw := Raw(StampAll(s, OS.FiledByGVK(added)), gvk);
    StampedInputs(s, added);
    var j := NormalisedFrom(s, gvk, raw, objs, k);
    RawIsStamped(s, added, gvk, j);
    o := OS.At(OS.FiledByGVK(added), gvk, j).value;
    OS.LastOneIsFiled(added, gvk, j, o);
    StampedSays(base, setID, digest, added, o);
    SameOwners(s, gvk, o, raw[j]);
  }

  lemma SameOwners(s: Setup, gvk: GVK, o: Object, p: Object)
    requires p.owners == o.owners && p.ns == o.ns
    ensures OwnersOf(s, gvk, p) == OwnersOf(s, gvk, o)
  {
  }

  /** The live object, for an added one: as it is wanted, and with its applied copy. */
  ghost predicate ArrivedAs(s: Setup, setID: string, hash: string, o: Object, p: Object) {
    var applied := "objectset.rio.cattle.io/applied";
    && p.MetaKey() == NormalKey(s, o.gvk, o.MetaKey()) && p.gvk == o.gvk && p.body == o.body
    && p.owners == OwnersOf(s, o.gvk, o)
    && (forall l :: Find(p.labels, l) == if l == "objectset.rio.cattle.io/hash" then Some(hash) else Find(o.labels, l))
    && (forall a :: a != applied ==> Find(p.annotations, a) == AnnotationAt(setID, s.owner, o, a))
    && Find(p.annotations, applied) == Some(s.encode(p.(annotations := p.annotations - {applied})))
  }

  lemma PreparedArrives(s: Setup, setID: string, hash: string, o: Object, w: Object)
    requires WantedFor(s, setID, hash, o, w)
    ensures ArrivedAs(s, setID, hash, o, Prepare(s, o.gvk, w))
  {
    var p, applied := Prepare(s, o.gvk, w), "objectset.rio.cattle.io/applied";
    assert Find(w.annotations, applied) == None;
    assert p.annotations - {applied} == w.annotations;
    assert p.(annotations := p.annotations - {applied}) == w;
    forall l
      ensures Find(p.labels, l) == if l == "objectset.rio.cattle.io/hash" then Some(hash) else Find(o.labels, l)
    {
      assert Find(w.labels, l) == Find(p.labels, l);
    }
    forall a | a != applied ensures Find(p.annotations, a) == AnnotationAt(setID, s.owner, o, a) {
      assert Find(w.annotations, a) == Find(p.annotations, a);
    }
  }

  /** No other added object of the kind ends up under the same key. */
  ghost predicate OwnPlace(s: Setup, added: seq<Object>, o: Object) {
    forall other :: other in added && other.gvk == o.gvk && other.MetaKey() != o.MetaKey() ==>
      NormalKey(s, o.gvk, other.MetaKey()) != NormalKey(s, o.gvk, o.MetaKey())
  }

  /** Delivery: an added object, the last under its key and alone with it, that was not live before, is live after
      an error-free Apply whose versions agree, with its own body and labels and the set's on top. */
  lemma ArrivesInFull(base: Setup, setID: string, digest: string -> string, added: seq<Object>, known: seq<GVK>,
                      order: seq<GVK>, choices: seq<Choice>, states: seq<Engine.Run>, i: nat, o: Object)
    requires var s := SetupFor(base, setID, digest, added);
      && AppliesTo(s, added, known, order, choices, states) && states[|order|].errs == states[0].errs
      && i < |order| && order[i] == o.gvk && OS.Latest(added, o) && OwnPlace(s, added, o)
      && VersionsAgree(s, order, choices) && Retry.DesiredOnce(order, choices, i, NormalKey(s, o.gvk, o.MetaKey()))
      && Id(o.gvk.GK(), NormalKey(s, o.gvk, o.MetaKey())) !in states[0].w.objects
    ensures var s := SetupFor(base, setID, digest, added);
      var id := Id(o.gvk.GK(), NormalKey(s, o.gvk, o.MetaKey()));
      && id in states[|order|].w.objects
      && ArrivedAs(s, setID, digest(IdentityOf(setID, base.owner)), o, states[|order|].w.objects[id])
  {
    hide ProcessKind, Legal, Normalised, UpToDate, Stored, StampAll, KindEffect, Refused, OS.FiledByGVK, OS.Latest,
         OS.ProcessingOrder, IdentityOf, HashFor, NormalKey, Protected, VersionsAgree, Retry.DesiredOnce, OwnPlace,
         Prepare;
    var s := SetupFor(base, setID, digest, added);
    var raws, k := StampAll(s, OS.FiledByGVK(added)), NormalKey(s, o.gvk, o.MetaKey());
    AppliesCleanly(s, added, known, order, choices, states);
    ErrorFreeKind(s, order, raws, choices, states, i);
    KeyIsWanted(s, added, o, choices[i].objs);
    var w := WantedComesFromAdded(base, setID, digest, added, o.gvk, choices[i].objs, k);
    OnlyOne(s, added, o, w);
    Retry.CreatedOnce(s, order, raws, choices, states, i, k);
    PreparedArrives(s, setID, digest(IdentityOf(setID, base.owner)), o, choices[i].objs[k]);
  }

  lemma KeyIsWanted(s: Setup, added: seq<Object>, o: Object, objs: Objs)
    requires !Refused(s, o.gvk) && Normalised(s, o.gvk, Raw(StampAll(s, OS.FiledByGVK(added)), o.gvk), objs)
    requires OS.Latest(added, o)
    ensures NormalKey(s, o.gvk, o.MetaKey()) in objs
  {
    hide Normalised, Refused, NormalKey, OS.FiledByGVK, OS.Latest, Stamped;
    OS.LastOneIsFiled(added, o.gvk, o.MetaKey(), o);
    NormalKeys(s, o.gvk, Raw(StampAll(s, OS.FiledByGVK(added)), o.gvk), objs);
    assert o.MetaKey() in Raw(StampAll(s, OS.FiledByGVK(added)), o.gvk);
  }

  lemma OnlyOne(s: Setup, added: seq<Object>, o: Object, other: Object)
    requires OwnPlace(s, added, o) && OS.Latest(added, o) && OS.Latest(added, other) && other.gvk == o.gvk
    requires NormalKey(s, o.gvk, other.MetaKey()) == NormalKey(s, o.gvk, o.MetaKey())
    ensures other == o
  {
    hide NormalKey;
    OS.LastOneIsFiled(added, o.gvk, o.MetaKey(), o);
    OS.LastOneIsFiled(added, o.gvk, o.MetaKey(), other);
  }
}
