/** What the theorems about runs ask of the patch library follows from what a merge patch is. */
module PatchContract {
  import opened Common
  import opened Json
  import opened Kube
  import opened Patches
  import opened Engine
  import opened Convergence
  import opened Retry

  /** The patch says of every wanted label (or annotation) that is not there what it has to be, and nothing
      of one that is. */
  ghost predicate Tells(said: Record, want: map<string, string>, live: map<string, string>) {
    forall l :: l in want ==>
      if l in said then said[l] == Str(want[l]) else l in live && live[l] == want[l]
  }

  /** Labels (or annotations) after a merge: as the patch says, otherwise as before. */
  ghost predicate Takes(after: map<string, string>, said: Record, before: map<string, string>) {
    && (forall l :: l in said && said[l].Str? ==> l in after && after[l] == said[l].s)
    && (forall l :: l !in said && l in before ==> l in after && after[l] == before[l])
  }

  function SaidOf(p: Record, field: string): Record {
    ToMap(Field(Meta(p), field))
  }

  /** Metadata, labels and annotations are maps, where the patch says something of them. */
  predicate Shaped(p: Record) {
    && (Find(p, "metadata").Some? ==> p["metadata"].Obj?)
    && (Find(Meta(p), "labels").Some? ==> Meta(p)["labels"].Obj?)
    && (Find(Meta(p), "annotations").Some? ==> Meta(p)["annotations"].Obj?)
  }

  /** The patch for an object with labels and annotations has that shape and tells what is missing of them; and
      a patch of that shape is merged into labels and annotations entry by entry.  What other patches do to
      them is left open: null, for one, removes them all. */
  ghost predicate MergesMetadata(s: Setup) {
    && (forall original, want: Object, live {:trigger s.diff(original, want, live)} ::
        want.labels != map[] && want.annotations != map[] && s.diff(original, want, live).Some? ==>
          Telling(s.diff(original, want, live).value, want, live))
    && (forall live, p {:trigger s.merge(live, p)} :: Shaped(p) ==>
        Takes(s.merge(live, p).labels, SaidOf(p, "labels"), live.labels) &&
        Takes(s.merge(live, p).annotations, SaidOf(p, "annotations"), live.annotations))
  }

  ghost predicate Telling(p: Record, want: Object, live: Object) {
    && Shaped(p)
    && Tells(SaidOf(p, "labels"), want.labels, live.labels)
    && Tells(SaidOf(p, "annotations"), want.annotations, live.annotations)
  }

  /** sanitizePatch keeps the shape. */
  lemma ShapedStays(p: Record)
    requires Shaped(p)
    ensures Shaped(Sanitized(p, false))
  {
    assert Meta(Trimmed(p)) == Meta(p) - {"creationTimestamp"};
  }

  lemma TakesWhatIsTold(after: map<string, string>, said: Record, want: map<string, string>, live: map<string, string>)
    requires Tells(said, want, live) && Takes(after, said, live)
    ensures forall l :: l in want ==> l in after && after[l] == want[l]
  {
  }

  /** With merge patches sanitizePatch loses nothing that matters to an object with a label, as each that is
      stamped has: labels always arrive, and so does the applied copy whenever a patch is sent. */
  lemma MergePatchesSuffice(s: Setup, gvk: GVK, live: Object, want: Object)
    requires MergesMetadata(s) && want.labels != map[]
    ensures match Change(s, gvk, live, want)
      case None => true
      case Some(patch) =>
        && HasLabels(if patch == map[] then live else s.merge(live, patch), want)
        && (patch != map[] ==> HasCopy(s, s.merge(live, patch), want))
  {
    hide Sanitized, Shaped;
    var past, wanted := PastOf(s, live), Prepare(s, gvk, want);
    var original := if past.Was? && !s.ignorePreviousApplied then Some(Prepare(s, gvk, past.copy)) else None;
    if !past.Corrupt? && s.diff(original, wanted, live).Some? {
      var p := s.diff(original, wanted, live).value;
      var patch := Sanitized(p, false);
      assert LABEL_APPLIED in wanted.annotations && Telling(p, wanted, live);
      ShapedStays(p);
      LabelsGoThrough(p);
      DroppedExactlyWhen(p);
      assert SaidOf(patch, "labels") == SaidOf(p, "labels");
      if patch == map[] {
        assert SaidOf(p, "labels") == map[];
      } else {
        assert SaidOf(patch, "annotations") == SaidOf(p, "annotations");
        var after := s.merge(live, patch);
        TakesWhatIsTold(after.labels, SaidOf(p, "labels"), wanted.labels, live.labels);
        TakesWhatIsTold(after.annotations, SaidOf(p, "annotations"), wanted.annotations, live.annotations);
      }
    }
  }

  lemma MergePatchesArrive(s: Setup, gvk: GVK, objs: Objs)
    requires MergesMetadata(s) && AllStamped(s, objs)
    ensures LabelsArrive(s, gvk, objs) && forall k :: k in objs ==> CopyArrives(s, gvk, objs[k])
  {
    hide MergesMetadata, HasLabels, HasCopy, Change;
    forall k, live {:trigger Change(s, gvk, live, objs[k])} | k in objs
      ensures match Change(s, gvk, live, objs[k])
        case None => true
        case Some(patch) =>
          && HasLabels(if patch == map[] then live else s.merge(live, patch), objs[k])
          && (patch != map[] ==> HasCopy(s, s.merge(live, patch), objs[k]))
    {
      assert objs[k].labels != map[];
      MergePatchesSuffice(s, gvk, live, objs[k]);
    }
  }
}
