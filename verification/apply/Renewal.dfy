/** What an apply does to an object that is there already: a three-way merge of what is wanted, what was wanted last
    time and what is live, field by field. */
module Renewal {
  import opened Common
  import opened Json
  import opened Kube
  import opened Patches
  import opened Engine
  import opened EngineFacts
  import opened Isolation
  import opened Convergence
  import opened Versions
  import opened ApplyRun
  import opened Guarantees
  import opened PatchContract
  import opened PatchLibrary
  import opened Delivery
  import MP = MergePatch
  import Retry
  import OS = ObjectSet

  // -------- one patch --------

  /** Patches are merge patches of documents; copies may be kept in any way. */
  ghost predicate MergesDocuments(s: Setup) {
    && (forall original, want: Object, live {:trigger s.diff(original, want, live)} ::
          s.diff(original, want, live) == Some(ObjectDifference(original, want, live)))
    && (forall live, p {:trigger s.merge(live, p)} :: s.merge(live, p) == ObjectMerge(live, p))
  }

  /** The object after the patch, which is not sent where nothing is left of it. */
  function After(s: Setup, live: Object, patch: Record): Object {
    if patch == map[] then live else s.merge(live, patch)
  }

  /** The copy of the last apply, where it is there, can be read and is not to be ignored. */
  function Known(s: Setup, live: Object): Option<Object> {
    if "objectset.rio.cattle.io/applied" in live.annotations && !s.ignorePreviousApplied then
      match s.decode(live.annotations["objectset.rio.cattle.io/applied"])
      case Was(copy) => Some(copy)
      case _ => None
    else None
  }

  /** After the patch the object has all that is wanted, nothing that the copy of the last apply had and that is no
      longer wanted, and everything else as it was. */
  lemma PatchedIsThreeWay(s: Setup, gvk: GVK, live: Object, want: Object, patch: Record, k: string)
    requires Ordinary(want) && k !in {"kind", "apiVersion", "status", "metadata"}
    requires MergesDocuments(s) && Change(s, gvk, live, want) == Some(patch)
    ensures var known: Record := if Known(s, live).Some? then Known(s, live).value.body else map[];
      var after := Find(After(s, live, patch).body, k);
      if k in want.body then MP.ThreeWay(Field(known, k), want.body[k], Find(live.body, k), after)
      else after == if k in known then None else Find(live.body, k)
  {
    hide MP.Merged, MP.Difference, MP.AfterEntry, MP.ThreeWay, ObjectMerge, Sanitized, After;
    var original, wanted := OriginalFor(s, gvk, live), Prepare(s, gvk, want);
    AfterAt(s, live, ObjectDifference(original, wanted, live), k);
    NoNullsInDocument(wanted);
    MP.MergedAt(DocumentOrNone(original), Document(wanted), Document(live), k);
    if k in want.body {
      NoNullsAt(want.body, k);
      MP.MergeIsThreeWay(Field(DocumentOrNone(original), k), want.body[k], Find(live.body, k));
    }
  }

  /** Outside what sanitizePatch takes out it makes no difference. */
  lemma AfterAt(s: Setup, live: Object, p: Record, k: string)
    requires MergesDocuments(s) && k !in {"kind", "apiVersion", "status", "metadata"}
    ensures Find(After(s, live, Sanitized(p, false)).body, k) ==
      Find(ToMap(MP.Merged(Obj(Document(live)), Obj(p))), k)
  {
    hide MP.Merged, Sanitized;
    var patch := Sanitized(p, false);
    SurvivingEntries(p, false);
    assert Find(patch, k) == Find(p, k);
    MergedField(Document(live), p, k);
    MergedField(Document(live), patch, k);
  }

  lemma NoNullsAt(r: Record, k: string)
    requires MP.NoNulls(Obj(r)) && k in r
    ensures MP.NoNulls(r[k])
  {
  }

  /** So it is with labels, and with annotations but for one that only the walk of sanitizePatch uses; and the object
      has the applied copy of what is wanted. */
  lemma PatchedStrings(s: Setup, gvk: GVK, live: Object, want: Object, patch: Record, l: string)
    requires MergesDocuments(s) && Change(s, gvk, live, want) == Some(patch)
    ensures var known, after := Known(s, live), After(s, live, patch);
      && Find(after.labels, l) ==
           (if l in want.labels then Some(want.labels[l])
            else if known.Some? && l in known.value.labels then None else Find(live.labels, l))
      && (l != "__invalid_key__" ==>
            Find(after.annotations, l) ==
              if l == "objectset.rio.cattle.io/applied" then Some(s.encode(want))
              else if l in want.annotations then Some(want.annotations[l])
              else if known.Some? && l in known.value.annotations then None else Find(live.annotations, l))
  {
    hide MP.Merged, MP.Difference, MP.AfterEntry, Change, ObjectDifference, ObjectMerge, After;
    var original, wanted := OriginalFor(s, gvk, live), Prepare(s, gvk, want);
    PatchedParts(s, gvk, live, want, patch);
    StringsAt(LabelsOf(original), want.labels, live.labels, l);
    StringsAt(AnnotationsOf(original), wanted.annotations, live.annotations, l);
    if patch == map[] {
      StringsUntouched(live.labels, Said(LabelsOf(original), want.labels, live.labels), l);
      if l != SENTINEL {
        StringsUntouched(live.annotations, Said(AnnotationsOf(original), wanted.annotations, live.annotations), l);
      }
    }
  }

  /** The part of a patch about labels or annotations. */
  function Said(was: Record, want: map<string, string>, live: map<string, string>): Record {
    MP.Difference(was, Strings(want).fields, Strings(live).fields)
  }

  lemma PatchedParts(s: Setup, gvk: GVK, live: Object, want: Object, patch: Record)
    requires MergesDocuments(s) && Change(s, gvk, live, want) == Some(patch)
    ensures var original, after := OriginalFor(s, gvk, live), After(s, live, patch);
      var labels := Said(LabelsOf(original), want.labels, live.labels);
      var annotations := Said(AnnotationsOf(original), Prepare(s, gvk, want).annotations, live.annotations);
      if patch == map[] then after == live && labels == map[] && annotations.Keys <= {SENTINEL}
      else
        && after.labels == StringsIn(MP.Merged(Strings(live.labels), Obj(labels)))
        && after.annotations == StringsIn(MP.Merged(Strings(live.annotations), Obj(annotations)))
  {
    hide MP.Merged, MP.Difference, Sanitized, MetadataOf, ObjectDifference, ObjectMerge, Shaped, SaidOf;
    var p := ObjectDifference(OriginalFor(s, gvk, live), Prepare(s, gvk, want), live);
    assert patch == Sanitized(p, false);
    SaidStays(p);
    DifferenceShaped(OriginalFor(s, gvk, live), Prepare(s, gvk, want), live);
    ShapedStays(p);
    StringsOfDifference(OriginalFor(s, gvk, live), Prepare(s, gvk, want), live);
    StringsOfMerge(live, patch);
  }

  function LabelsOf(o: Option<Object>): Record {
    if o.Some? then Strings(o.value.labels).fields else map[]
  }

  function AnnotationsOf(o: Option<Object>): Record {
    if o.Some? then Strings(o.value.annotations).fields else map[]
  }

  lemma DifferenceShaped(original: Option<Object>, want: Object, live: Object)
    ensures Shaped(ObjectDifference(original, want, live))
  {
    hide ObjectDifference;
    DifferenceTells(original, want, live);
  }

  /** What a patch says of labels and annotations, after sanitizePatch. */
  lemma SaidStays(p: Record)
    ensures var patch := Sanitized(p, false);
      && SaidOf(patch, "labels") == SaidOf(p, "labels")
      && (patch != map[] ==> SaidOf(patch, "annotations") == SaidOf(p, "annotations"))
      && (patch == map[] ==>
            SaidOf(p, "labels") == map[] && forall a :: a in SaidOf(p, "annotations") ==> a == SENTINEL)
  {
    hide Sanitized;
    LabelsGoThrough(p);
    DroppedExactlyWhen(p);
    assert SaidOf(p, "annotations") == Annotations(p);
    forall a | Sanitized(p, false) == map[] && a in SaidOf(p, "annotations") ensures a == SENTINEL {
      assert a in Annotations(p);
    }
    if Sanitized(p, false) == map[] {
      assert "labels" !in Meta(p);
    }
  }

  lemma StringsUntouched(m: map<string, string>, said: Record, l: string)
    requires l !in said
    ensures Find(StringsIn(MP.Merged(Strings(m), Obj(said))), l) == Find(m, l)
  {
    hide MP.Merged;
    MergedField(Strings(m).fields, said, l);
  }

  lemma StringsOfDifference(original: Option<Object>, want: Object, live: Object)
    ensures SaidOf(ObjectDifference(original, want, live), "labels") ==
      Said(LabelsOf(original), want.labels, live.labels)
    ensures SaidOf(ObjectDifference(original, want, live), "annotations") ==
      Said(AnnotationsOf(original), want.annotations, live.annotations)
  {
    hide MP.Difference;
    MetaOfDifference(original, want, live);
    NestedField(Meta(DocumentOrNone(original)), MetadataOf(want), MetadataOf(live), "labels");
    NestedField(Meta(DocumentOrNone(original)), MetadataOf(want), MetadataOf(live), "annotations");
  }

  lemma StringsOfMerge(live: Object, p: Record)
    requires Shaped(p)
    ensures ObjectMerge(live, p).labels == StringsIn(MP.Merged(Strings(live.labels), Obj(SaidOf(p, "labels"))))
    ensures ObjectMerge(live, p).annotations ==
      StringsIn(MP.Merged(Strings(live.annotations), Obj(SaidOf(p, "annotations"))))
  {
    hide MP.Merged;
    MergedMap(Document(live), p, "metadata");
    MergedMap(MetadataOf(live), Meta(p), "labels");
    MergedMap(MetadataOf(live), Meta(p), "annotations");
  }

  lemma StringsAt(was: Record, want: map<string, string>, live: map<string, string>, l: string)
    ensures var said := MP.Difference(was, Strings(want).fields, Strings(live).fields);
      Find(StringsIn(MP.Merged(Strings(live), Obj(said))), l) ==
        if l in want then Some(want[l]) else if l in was then None else Find(live, l)
  {
    hide MP.Merged, MP.Difference, MP.AfterEntry;
    StringsHaveNoNulls(want);
    StringsAfter(was, want, live);
    MP.MergedAt(was, Strings(want).fields, Strings(live).fields, l);
    if l in want {
      TextAfter(Field(was, l), want[l], Find(Strings(live).fields, l));
    }
  }

  // -------- a whole run --------

  /** The live object after the apply, for an added one: its own body and labels and those of the set, nothing that
      the last copy had and that it no longer has, and for the rest as it was. */
  ghost predicate RenewedAs(s: Setup, setID: string, hash: string, o: Object, live: Object, after: Object) {
    var known := Known(s, live);
    && (forall k :: k !in {"kind", "apiVersion", "status", "metadata"} ==>
          var was: Record := if known.Some? then known.value.body else map[];
          if k in o.body then MP.ThreeWay(Field(was, k), o.body[k], Find(live.body, k), Find(after.body, k))
          else Find(after.body, k) == if k in was then None else Find(live.body, k))
    && (forall l ::
          Find(after.labels, l) ==
            if l == "objectset.rio.cattle.io/hash" then Some(hash)
            else if l in o.labels then Some(o.labels[l])
            else if known.Some? && l in known.value.labels then None else Find(live.labels, l))
    && (forall a :: a !in {"__invalid_key__", "objectset.rio.cattle.io/applied"} ==>
          Find(after.annotations, a) ==
            if AnnotationAt(setID, s.owner, o, a).Some? then AnnotationAt(setID, s.owner, o, a)
            else if known.Some? && a in known.value.annotations then None else Find(live.annotations, a))
  }

  lemma PatchRenews(s: Setup, setID: string, hash: string, o: Object, want: Object, live: Object, patch: Record)
    requires MergesDocuments(s) && Ordinary(o) && WantedFor(s, setID, hash, o, want)
    requires Change(s, o.gvk, live, want) == Some(patch)
    ensures RenewedAs(s, setID, hash, o, live, After(s, live, patch))
  {
    hide MP.ThreeWay, Change, After, Known, MergesDocuments, AnnotationAt, MP.NoNulls, NormalKey, OwnersOf;
    forall k | k !in {"kind", "apiVersion", "status", "metadata"}
      ensures var known := Known(s, live);
        var was: Record := if known.Some? then known.value.body else map[];
        var after := Find(After(s, live, patch).body, k);
        if k in o.body then MP.ThreeWay(Field(was, k), o.body[k], Find(live.body, k), after)
        else after == if k in was then None else Find(live.body, k)
    {
      PatchedIsThreeWay(s, o.gvk, live, want, patch, k);
    }
    forall l
      ensures var known, after := Known(s, live), After(s, live, patch);
        Find(after.labels, l) ==
          if Find(want.labels, l).Some? then Find(want.labels, l)
          else if known.Some? && l in known.value.labels then None else Find(live.labels, l)
    {
      PatchedStrings(s, o.gvk, live, want, patch, l);
    }
    forall a | a !in {"__invalid_key__", "objectset.rio.cattle.io/applied"}
      ensures var known, after := Known(s, live), After(s, live, patch);
        Find(after.annotations, a) ==
          if Find(want.annotations, a).Some? then Find(want.annotations, a)
          else if known.Some? && a in known.value.annotations then None else Find(live.annotations, a)
    {
      PatchedStrings(s, o.gvk, live, want, patch, a);
    }
  }

  /** One pass over the kind. */
  lemma PassRenews(s: Setup, setID: string, hash: string, o: Object, c: Choice, r: Engine.Run, r': Engine.Run, k: Key)
    requires KindEffect(s, o.gvk, c, r, r') && r'.errs == r.errs && k in c.objs
    requires MergesDocuments(s) && Ordinary(o) && WantedFor(s, setID, hash, o, c.objs[k])
    requires NothingHandled(s, o.gvk, c.objs) && Id(o.gvk.GK(), k) in r.w.objects
    ensures var id := Id(o.gvk.GK(), k);
      id in r'.w.objects && RenewedAs(s, setID, hash, o, r.w.objects[id], r'.w.objects[id])
  {
    hide RenewedAs, WantedFor, Change, VerdictOn, MergesDocuments, Ordinary, NothingHandled, MayBecome, Fresh, Lists;
    var stored := r.w.objects[Id(o.gvk.GK(), k)];
    var live, want := stored.As(o.gvk), c.objs[k];
    assert TurnsInto(s, o.gvk, want, stored, Live(r'.w, o.gvk, k));
    assert !VerdictOn(s, o.gvk, live, want).Handled? by { NotHandled(s, o.gvk, c.objs, k, live); }
    var patch := Change(s, o.gvk, live, want).value;
    PatchRenews(s, setID, hash, o, want, live, patch);
    RenewedView(s, setID, hash, o, stored, After(s, live, patch));
    RenewedView(s, setID, hash, o, stored, r'.w.objects[Id(o.gvk.GK(), k)]);
  }

  lemma NotHandled(s: Setup, gvk: GVK, objs: Objs, k: Key, live: Object)
    requires NothingHandled(s, gvk, objs) && k in objs
    ensures !VerdictOn(s, gvk, live, objs[k]).Handled?
  {
  }

  /** The version through which an object is seen makes no difference. */
  lemma RenewedView(s: Setup, setID: string, hash: string, o: Object, stored: Object, after: Object)
    ensures RenewedAs(s, setID, hash, o, stored, after) <==> RenewedAs(s, setID, hash, o, stored.As(o.gvk), after)
    ensures RenewedAs(s, setID, hash, o, stored, after) <==> RenewedAs(s, setID, hash, o, stored, after.As(o.gvk))
  {
    hide MP.ThreeWay, AnnotationAt;
    assert Known(s, stored) == Known(s, stored.As(o.gvk));
  }

  /** Renewal: an added object, the last under its key and alone with it, that was live before has been merged into
      what was live after an error-free Apply whose versions agree. */
  lemma RenewedInFull(base: Setup, setID: string, digest: string -> string, added: seq<Object>, known: seq<GVK>,
                      order: seq<GVK>, choices: seq<Choice>, states: seq<Engine.Run>, i: nat, o: Object)
    requires var s := SetupFor(base, setID, digest, added);
      && AppliesTo(s, added, known, order, choices, states) && states[|order|].errs == states[0].errs
      && i < |order| && order[i] == o.gvk && OS.Latest(added, o) && OwnPlace(s, added, o)
      && VersionsAgree(s, order, choices) && Retry.DesiredOnce(order, choices, i, NormalKey(s, o.gvk, o.MetaKey()))
      && NothingHandled(s, o.gvk, choices[i].objs)
      && Id(o.gvk.GK(), NormalKey(s, o.gvk, o.MetaKey())) in states[0].w.objects
    requires MergesDocuments(base) && Ordinary(o)
    ensures var s := SetupFor(base, setID, digest, added);
      var id := Id(o.gvk.GK(), NormalKey(s, o.gvk, o.MetaKey()));
      && id in states[|order|].w.objects
      && RenewedAs(s, setID, digest(IdentityOf(setID, base.owner)), o, states[0].w.objects[id],
                   states[|order|].w.objects[id])
  {
    hide ProcessKind, Legal, Normalised, UpToDate, Stored, StampAll, KindEffect, Refused, OS.FiledByGVK, OS.Latest,
         OS.ProcessingOrder, IdentityOf, HashFor, NormalKey, Protected, VersionsAgree, Retry.DesiredOnce, OwnPlace,
         NothingHandled, RenewedAs, WantedFor, Ordinary;
    var s := SetupFor(base, setID, digest, added);
    var raws, k := StampAll(s, OS.FiledByGVK(added)), NormalKey(s, o.gvk, o.MetaKey());
    var hash := digest(IdentityOf(setID, base.owner));
    AppliesCleanly(s, added, known, order, choices, states);
    ErrorFreeKind(s, order, raws, choices, states, i);
    KeyIsWanted(s, added, o, choices[i].objs);
    var w := WantedComesFromAdded(base, setID, digest, added, o.gvk, choices[i].objs, k);
    OnlyOne(s, added, o, w);
    StoredAlong(s, order, raws, choices, states, i);
    NoErrors(s, order, raws, choices, states, i);
    Retry.KeyAlone(s, order, raws, choices, states, i, 0, i, k);
    Retry.KeyAlone(s, order, raws, choices, states, i, i + 1, |order|, k);
    PassRenews(s, setID, hash, o, choices[i], states[i], states[i + 1], k);
  }
}
