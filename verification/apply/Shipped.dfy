/** The reconcilers that come with the library (reconcilers.go), in the engine: which wanted objects they
    accept against their own applied copy. */
module Shipped {
  import opened Json
  import opened Kube
  import opened Engine
  import opened Convergence
  import opened Retry
  import opened PatchContract
  import AC = AppliedCopy

  const SECRET := GVK("", "v1", "Secret")
  const SERVICE := GVK("", "v1", "Service")
  const DEPLOYMENT := GVK("apps", "v1", "Deployment")
  const DAEMON_SET := GVK("apps", "v1", "DaemonSet")

  /** The document of an object; owner references play no part here. */
  function DocumentOf(o: Object): Record {
    o.body["apiVersion" := Str(GroupVersion(o.gvk))]["kind" := Str(o.gvk.kind)]["metadata" := Obj(MetadataOf(o))]
  }

  /** The object of a document that was kept; its kind is set when it is prepared again. */
  function ObjectOf(d: Record): Object {
    var meta := AC.Inner(d, "metadata");
    Object(GVK("", "", ""), Text(Field(meta, "namespace")), Text(Field(meta, "name")),
           StringsIn(Field(meta, "labels")), StringsIn(Field(meta, "annotations")), [],
           d - {"apiVersion", "kind", "metadata"})
  }

  function VerdictOf(a: AC.Answer): Verdict {
    match a
    case Keep => Accept
    case Replace => Verdict.Replace
    case Error => Refuse
  }

  function DecodedBy(c: AC.Codec, text: string): Past {
    match c.decode(text)
    case NoCopy => Never
    case Unreadable => Corrupt
    case Original(d) => Was(ObjectOf(d))
  }

  /** Any setup, with the applied copy and the reconcilers that every new desired set has; selectors and
      templates are read as Go structs by typed. */
  function Defaults<T(==)>(base: Setup, c: AC.Codec, typed: Value -> T): Setup {
    var selector := (past: Object,
      want: Object) => VerdictOf(AC.ReconcileSelector(typed, DocumentOf(past), DocumentOf(want)));
    base.(encode := (o: Object) => c.encode(AC.Copy(DocumentOf(o))),
          decode := text => DecodedBy(c, text),
          reconcilers := map[
            SECRET := (past, want) => VerdictOf(AC.ReconcileSecret(DocumentOf(past), DocumentOf(want))),
            SERVICE := (past, want) => VerdictOf(AC.ReconcileService(DocumentOf(past), DocumentOf(want))),
            JOB := (past, want) =>
              VerdictOf(AC.ReconcileJob(c, JOB, "batch/v1", typed, DocumentOf(past), DocumentOf(want))),
            DEPLOYMENT := selector,
            DAEMON_SET := selector])
  }

  /** What the reconciler of a kind compares reads the same after it has been cut for the applied copy. */
  predicate CutUnnoticed<T(==)>(typed: Value -> T, gvk: GVK, want: Object) {
    var spec := ToMap(Field(want.body, "spec"));
    if gvk == SECRET then |Text(Field(want.body, "type"))| <= AC.LONGEST
    else if gvk == SERVICE then |Text(Field(spec, "type"))| <= AC.LONGEST
    else if gvk == DEPLOYMENT || gvk == DAEMON_SET then
      typed(AC.Pruned(Field(spec, "selector"), AC.Entry("selector", false))) == typed(Field(spec, "selector"))
    else true
  }

  lemma DocumentFields(o: Object, key: string)
    requires key !in {"apiVersion", "kind", "metadata"}
    ensures Field(DocumentOf(o), key) == Field(o.body, key)
  {
  }

  lemma CopyFields(want: Object, key: string)
    requires key !in {"apiVersion", "kind", "metadata"}
    ensures Field(ObjectOf(AC.Copy(DocumentOf(want))).body, key) ==
      AC.Pruned(Field(want.body, key), AC.Entry(key, false))
  {
    hide AC.KnownListKey;
    var d := DocumentOf(want);
    assert key in d <==> key in want.body;
    if key in d {
      assert AC.Copy(d)[key] == AC.Pruned(d[key], AC.Entry(key, false));
    }
  }

  /** What cutting does to a text, and to a field of a map. */
  lemma CutText(v: Value, key: string)
    ensures Text(AC.Pruned(v, AC.Entry(key, false))) ==
      var t := Text(v); if |t| > AC.LONGEST then t[..AC.LONGEST] else t
  {
  }

  lemma CutField(v: Value, key: string, field: string)
    ensures Field(ToMap(AC.Pruned(v, AC.Entry(key, false))), field) ==
            AC.Pruned(Field(ToMap(v), field), AC.Entry(field, false))
  {
    hide AC.KnownListKey;
  }

  /** What the reconcilers see of an object and of its own copy. */
  ghost predicate Cut(past: Record, now: Record, body: Record) {
    forall key :: key !in {"apiVersion", "kind", "metadata"} ==>
      Field(past, key) == AC.Pruned(Field(body, key), AC.Entry(key, false)) && Field(now, key) == Field(body, key)
  }

  lemma CopyIsCut<T>(base: Setup, c: AC.Codec, typed: Value -> T, gvk: GVK, want: Object)
    ensures var s, copy := Defaults(base, c, typed), ObjectOf(AC.Copy(DocumentOf(want)));
      Cut(DocumentOf(Prepare(s, gvk, copy)), DocumentOf(Prepare(s, gvk, want)), want.body)
  {
    hide AC.Pruned, DocumentOf, ObjectOf, AC.Copy;
    var s, copy := Defaults(base, c, typed), ObjectOf(AC.Copy(DocumentOf(want)));
    var past, now := Prepare(s, gvk, copy), Prepare(s, gvk, want);
    forall key | key !in {"apiVersion", "kind", "metadata"}
      ensures Field(DocumentOf(past), key) == AC.Pruned(Field(want.body, key), AC.Entry(key, false))
      ensures Field(DocumentOf(now), key) == Field(want.body, key)
    {
      DocumentFields(past, key);
      DocumentFields(now, key);
      CopyFields(want, key);
    }
  }

  lemma SecretCut(past: Record, now: Record, body: Record)
    requires Cut(past, now, body)
    ensures AC.ReconcileSecret(past, now) == if |Text(Field(body, "type"))| <= AC.LONGEST then AC.Keep else AC.Replace
  {
    hide AC.Pruned;
    CutText(Field(body, "type"), "type");
  }

  lemma ServiceCut(past: Record, now: Record, body: Record)
    requires Cut(past, now, body)
    ensures AC.ReconcileService(past, now) ==
      if |Text(Field(ToMap(Field(body, "spec")), "type"))| <= AC.LONGEST then AC.Keep else AC.Replace
  {
    hide AC.Pruned;
    CutField(Field(body, "spec"), "spec", "type");
    CutText(Field(ToMap(Field(body, "spec")), "type"), "type");
  }

  lemma SelectorCut<T>(typed: Value -> T, past: Record, now: Record, body: Record)
    requires Cut(past, now, body)
    ensures var selector := Field(ToMap(Field(body, "spec")), "selector");
      AC.ReconcileSelector(typed, past, now) ==
      if typed(AC.Pruned(selector, AC.Entry("selector", false))) == typed(selector) then AC.Keep else AC.Replace
  {
    hide AC.Pruned;
    CutField(Field(body, "spec"), "spec", "selector");
  }

  /** The reconciler of jobs reads the wanted object back from its copy first. */
  lemma JobCut<T>(base: Setup, c: AC.Codec, typed: Value -> T, past: Record, want: Object)
    requires AC.Keeps(c, DocumentOf(want))
    requires Cut(past, DocumentOf(Prepare(Defaults(base, c, typed), JOB, want)), want.body)
    ensures AC.ReconcileJob(c, JOB, "batch/v1", typed, past,
      DocumentOf(Prepare(Defaults(base, c, typed), JOB, want))).Keep?
  {
    hide AC.Pruned, AC.Keeps, AC.OriginalOf, Cut, DocumentOf;
    var now := DocumentOf(Prepare(Defaults(base, c, typed), JOB, want));
    JobReadBack(base, c, typed, want);
    CutOfSpec(past, now, want.body);
  }

  lemma CutOfSpec(past: Record, now: Record, body: Record)
    requires Cut(past, now, body)
    ensures Field(past, "spec") == AC.Pruned(Field(body, "spec"), AC.Entry("spec", false))
  {
    hide AC.Pruned;
  }

  lemma JobReadBack<T>(base: Setup, c: AC.Codec, typed: Value -> T, want: Object)
    requires AC.Keeps(c, DocumentOf(want))
    ensures var now := DocumentOf(Prepare(Defaults(base, c, typed), JOB, want));
      var r := AC.OriginalOf(c, JOB, "batch/v1", now);
      r.Original? && Field(r.o, "spec") == AC.Pruned(Field(want.body, "spec"), AC.Entry("spec", false))
  {
    hide AC.Pruned, AC.Copy;
    var s := Defaults(base, c, typed);
    var copy := AC.Copy(DocumentOf(want));
    AppliedOf(Prepare(s, JOB, want));
    CopiedSpec(want);
  }

  lemma AppliedOf(o: Object)
    requires LABEL_APPLIED in o.annotations
    ensures AC.AnnotationOf(DocumentOf(o)) == Str(o.annotations[LABEL_APPLIED])
  {
  }

  lemma CopiedSpec(want: Object)
    ensures Field(AC.Copy(DocumentOf(want)), "spec") == AC.Pruned(Field(want.body, "spec"), AC.Entry("spec", false))
  {
    hide AC.KnownListKey;
    var d := DocumentOf(want);
    if "spec" in want.body {
      assert AC.Copy(d)["spec"] == AC.Pruned(d["spec"], AC.Entry("spec", false));
    }
  }

  /** Exactly which wanted objects the reconcilers of a new desired set accept against their own copies. */
  lemma AcceptedExactlyWhen<T>(base: Setup, c: AC.Codec, typed: Value -> T, gvk: GVK, want: Object)
    requires AC.Keeps(c, DocumentOf(want))
    ensures AcceptsOwnCopy(Defaults(base, c, typed), gvk, want) <==> CutUnnoticed(typed, gvk, want)
  {
    hide AC.Pruned, DocumentOf, ObjectOf, AC.Copy, Cut, AC.ReconcileJob, AC.ReconcileSecret, AC.ReconcileService,
         AC.ReconcileSelector;
    var s, copy := Defaults(base, c, typed), ObjectOf(AC.Copy(DocumentOf(want)));
    var past, now := DocumentOf(Prepare(s, gvk, copy)), DocumentOf(Prepare(s, gvk, want));
    CopyIsCut(base, c, typed, gvk, want);
    if gvk == SECRET {
      SecretCut(past, now, want.body);
    } else if gvk == SERVICE {
      ServiceCut(past, now, want.body);
    } else if gvk == JOB {
      JobCut(base, c, typed, past, want);
    } else if gvk == DEPLOYMENT || gvk == DAEMON_SET {
      SelectorCut(typed, past, now, want.body);
    }
  }

  /** So the theorems about retry apply to a new desired set whose objects have no long selectors or types. */
  lemma DefaultsAreSteady<T>(base: Setup, c: AC.Codec, typed: Value -> T, gvk: GVK, objs: Objs)
    requires MergesMetadata(Defaults(base, c, typed)) && gvk !in base.replaceOnChange
    requires AllStamped(base, objs) && forall k :: k in objs ==> AC.Keeps(c, DocumentOf(objs[k]))
    ensures Steady(Defaults(base, c, typed), gvk, objs) <==> forall k :: k in objs ==> CutUnnoticed(typed, gvk, objs[k])
  {
    hide AcceptsOwnCopy, CopyArrives, CutUnnoticed, MergesMetadata, LabelsArrive, AC.Keeps;
    var s := Defaults(base, c, typed);
    MergePatchesArrive(s, gvk, objs);
    forall k | k in objs ensures AcceptsOwnCopy(s, gvk, objs[k]) <==> CutUnnoticed(typed, gvk, objs[k]) {
      AcceptedExactlyWhen(base, c, typed, gvk, objs[k]);
    }
  }

  /** What the reconcilers of a new desired set say of any live object: they compare with the copy of the last apply,
      or with the live object itself where it has none that can be read. */
  lemma VerdictsAre<T>(base: Setup, c: AC.Codec, typed: Value -> T, live: Object, want: Object)
    ensures var s := Defaults(base, c, typed);
      var past := PastOf(s, live);
      var before, after := if past.Was? then past.copy.body else live.body, want.body;
      var oldSpec, newSpec := ToMap(Field(before, "spec")), ToMap(Field(after, "spec"));
      var sameSelector := typed(Field(oldSpec, "selector")) == typed(Field(newSpec, "selector"));
      && VerdictOn(s, GVK("", "v1", "Secret"), live, want) ==
           (if Text(Field(after, "type")) in {"", Text(Field(before, "type"))} then Accept else Verdict.Replace)
      && VerdictOn(s, GVK("", "v1", "Service"), live, want) ==
           (if Text(Field(newSpec, "type")) in {"", Text(Field(oldSpec, "type"))} then Accept else Verdict.Replace)
      && VerdictOn(s, GVK("apps", "v1", "Deployment"), live, want) ==
           (if sameSelector then Accept else Verdict.Replace)
      && VerdictOn(s, GVK("apps", "v1", "DaemonSet"), live, want) ==
           (if sameSelector then Accept else Verdict.Replace)
      && (AC.Keeps(c, DocumentOf(want)) ==>
            var kept := ToMap(AC.Pruned(Field(after, "spec"), AC.Entry("spec", false)));
            VerdictOn(s, GVK("batch", "v1", "Job"), live, want) ==
              if typed(Field(oldSpec, "template")) == typed(Field(kept, "template")) then Accept else Verdict.Replace)
      && forall gvk :: gvk !in {GVK("", "v1", "Secret"), GVK("", "v1", "Service"), GVK("apps", "v1", "Deployment"),
                                GVK("apps", "v1", "DaemonSet"), GVK("batch", "v1", "Job")} ==>
           VerdictOn(s, gvk, live, want) == Accept
  {
    hide AC.Pruned, AC.Keeps, DocumentOf, Defaults, Field, ToMap, Text;
    forall gvk ensures var s := Defaults(base, c, typed);
      VerdictOn(s, gvk, live, want) ==
        VerdictSeen(gvk, typed, Field(BodySeen(s, live), "type"), ToMap(Field(BodySeen(s, live), "spec")),
                    Field(want.body, "type"), ToMap(Field(want.body, "spec")), VerdictOn(s, JOB, live, want))
    {
      VerdictIsSeen(base, c, typed, gvk, live, want);
    }
    if AC.Keeps(c, DocumentOf(want)) {
      JobVerdict(base, c, typed, live, want);
    }
  }

  function BodySeen(s: Setup, live: Object): Record {
    var past := PastOf(s, live);
    if past.Was? then past.copy.body else live.body
  }

  function VerdictSeen<T(==)>(gvk: GVK, typed: Value -> T, oldType: Value, oldSpec: Record, newType: Value,
                              newSpec: Record, ofJob: Verdict): Verdict {
    var selected := if typed(Field(oldSpec, "selector")) == typed(Field(newSpec, "selector")) then Accept
                    else Verdict.Replace;
    if gvk == SECRET then if Text(newType) in {"", Text(oldType)} then Accept else Verdict.Replace
    else if gvk == SERVICE then
      if Text(Field(newSpec, "type")) in {"", Text(Field(oldSpec, "type"))} then Accept else Verdict.Replace
    else if gvk == DEPLOYMENT || gvk == DAEMON_SET then selected
    else if gvk == JOB then ofJob
    else Accept
  }

  lemma DocumentsSeen(s: Setup, gvk: GVK, live: Object, want: Object, key: string)
    requires key in {"spec", "type"}
    ensures var past := PastOf(s, live);
      Field(DocumentOf(if past.Was? then Prepare(s, gvk, past.copy) else live), key) == Field(BodySeen(s, live), key)
    ensures Field(DocumentOf(Prepare(s, gvk, want)), key) == Field(want.body, key)
  {
  }

  /** The reconciler of a kind, on the documents of two objects. */
  lemma ReconcilerIs<T>(base: Setup, c: AC.Codec, typed: Value -> T, gvk: GVK, past: Object, want: Object)
    ensures var r := Defaults(base, c, typed).reconcilers;
      var before, after := DocumentOf(past), DocumentOf(want);
      && (gvk == SECRET ==> gvk in r && r[gvk](past, want) == VerdictOf(AC.ReconcileSecret(before, after)))
      && (gvk == SERVICE ==> gvk in r && r[gvk](past, want) == VerdictOf(AC.ReconcileService(before, after)))
      && (gvk == DEPLOYMENT || gvk == DAEMON_SET ==>
            gvk in r && r[gvk](past, want) == VerdictOf(AC.ReconcileSelector(typed, before, after)))
      && (gvk == JOB ==>
            gvk in r && r[gvk](past, want) == VerdictOf(AC.ReconcileJob(c, JOB, "batch/v1", typed, before, after)))
      && (gvk !in {SECRET, SERVICE, DEPLOYMENT, DAEMON_SET, JOB} ==> gvk !in r)
  {
    hide DocumentOf, VerdictOf, AC.ReconcileJob, AC.ReconcileSecret, AC.ReconcileService, AC.ReconcileSelector;
  }

  lemma VerdictIsSeen<T>(base: Setup, c: AC.Codec, typed: Value -> T, gvk: GVK, live: Object, want: Object)
    ensures var s := Defaults(base, c, typed);
      VerdictOn(s, gvk, live, want) ==
        VerdictSeen(gvk, typed, Field(BodySeen(s, live), "type"), ToMap(Field(BodySeen(s, live), "spec")),
                    Field(want.body, "type"), ToMap(Field(want.body, "spec")), VerdictOn(s, JOB, live, want))
  {
    hide Defaults, DocumentOf, BodySeen, PastOf, Prepare, Field, ToMap, Text, AC.ReconcileJob;
    var s := Defaults(base, c, typed);
    var past := PastOf(s, live);
    ReconcilerIs(base, c, typed, gvk, if past.Was? then Prepare(s, gvk, past.copy) else live, Prepare(s, gvk, want));
    DocumentsSeen(s, gvk, live, want, "type");
    DocumentsSeen(s, gvk, live, want, "spec");
  }

  lemma JobVerdict<T>(base: Setup, c: AC.Codec, typed: Value -> T, live: Object, want: Object)
    requires AC.Keeps(c, DocumentOf(want))
    ensures var s := Defaults(base, c, typed);
      var kept := ToMap(AC.Pruned(Field(want.body, "spec"), AC.Entry("spec", false)));
      VerdictOn(s, JOB, live, want) ==
        if typed(Field(ToMap(Field(BodySeen(s, live), "spec")), "template")) == typed(Field(kept, "template"))
        then Accept else Verdict.Replace
  {
    hide AC.Pruned, AC.Keeps, DocumentOf, BodySeen, PastOf, AC.OriginalOf, Field, ToMap;
    var s := Defaults(base, c, typed);
    DocumentsSeen(s, JOB, live, want, "spec");
    JobReadBack(base, c, typed, want);
  }
}
