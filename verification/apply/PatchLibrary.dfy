/** JSON merge patches (section 2 of RFC 7396) of whole documents, a copy cut short and the reconciler of jobs:
    all that the theorems about runs ask for holds of them together. */
module PatchLibrary {
  import opened Common
  import opened Json
  import opened Kube
  import opened Patches
  import opened Engine
  import opened EngineFacts
  import opened Convergence
  import opened Retry
  import opened PatchContract
  import MP = MergePatch

  const LONGEST := 64

  // -------- the applied copy and the reconciler --------

  function Template(o: Object): string {
    Text(Field(o.body, "template"))
  }

  /** The applied copy keeps the template of an object, cut short. */
  function Encoded(o: Object): string {
    "j" + (if |Template(o)| > LONGEST then Template(o)[..LONGEST] else Template(o))
  }

  function Decoded(text: string): Past {
    if text == "" then Never
    else if text[0] != 'j' then Corrupt
    else Was(Object(JOB, "", "", map[], map[], [],
      if text[1..] == "" then map[] else map["template" := Str(text[1..])]))
  }

  /** The reconciler of jobs: it compares the template of the copy with that of the wanted object's own copy. */
  function JobVerdict(past: Object, want: Object): Verdict {
    match if LABEL_APPLIED in want.annotations then Decoded(want.annotations[LABEL_APPLIED]) else Never
    case Was(copy) => if Template(past) == Template(copy) then Accept else Replace
    case _ => Refuse
  }

  // -------- the patches --------

  function Document(o: Object): Record {
    o.body["metadata" := Obj(MetadataOf(o))]
  }

  function DocumentOrNone(o: Option<Object>): Record {
    if o.Some? then Document(o.value) else map[]
  }

  /** The object, as the document says it now is. */
  function Reread(o: Object, d: Record): Object {
    var meta := Meta(d);
    o.(name := Text(Field(meta, "name")), ns := Text(Field(meta, "namespace")),
       labels := StringsIn(Field(meta, "labels")), annotations := StringsIn(Field(meta, "annotations")),
       body := d - {"metadata"})
  }

  function ObjectDifference(original: Option<Object>, want: Object, live: Object): Record {
    MP.Difference(DocumentOrNone(original), Document(want), Document(live))
  }

  function ObjectMerge(live: Object, p: Record): Object {
    Reread(live, ToMap(MP.Merged(Obj(Document(live)), Obj(p))))
  }

  /** Any setup, with this library and the reconciler of jobs. */
  function Library(base: Setup): Setup {
    base.(encode := Encoded, decode := Decoded,
          diff := (original, want, live) => Some(ObjectDifference(original, want, live)),
          merge := ObjectMerge,
          reconcilers := map[JOB := JobVerdict])
  }

  // -------- they treat labels and annotations as maps --------

  /** What the patch says of one field of the document. */
  lemma DifferenceAt(original: Record, want: Record, live: Record, k: string)
    requires k in want
    ensures Find(MP.Difference(original, want, live), k) == MP.Entry(Field(original, k), want[k], Find(live, k))
  {
  }

  /** Where both have a map, so has the patch, or says nothing. */
  lemma NestedEntry(original: Value, want: Record, live: Record)
    ensures var e := MP.Entry(original, Obj(want), Some(Obj(live)));
      ToMap(if e.Some? then e.value else Null) == MP.Difference(ToMap(original), want, live) &&
        (e.Some? ==> e.value.Obj?)
  {
    if live == want {
      MP.AlreadyThere(ToMap(original), want);
    }
  }

  lemma NestedField(original: Record, want: Record, live: Record, k: string)
    requires k in want && k in live && want[k].Obj? && live[k].Obj?
    ensures var d := MP.Difference(original, want, live);
      ToMap(Field(d, k)) == MP.Difference(ToMap(Field(original, k)), want[k].fields, live[k].fields) &&
      (k in d ==> d[k].Obj?)
  {
    hide MP.Difference, MP.Entry;
    DifferenceAt(original, want, live, k);
    NestedEntry(Field(original, k), want[k].fields, live[k].fields);
  }

  lemma StringsTell(original: Record, want: map<string, string>, live: map<string, string>)
    ensures Tells(MP.Difference(original, Strings(want).fields, Strings(live).fields), want, live)
  {
    hide MP.Difference;
    forall l | l in want ensures var said := MP.Difference(original, Strings(want).fields, Strings(live).fields);
      if l in said then said[l] == Str(want[l]) else l in live && live[l] == want[l]
    {
      DifferenceAt(original, Strings(want).fields, Strings(live).fields, l);
    }
  }

  /** The metadata of the patch. */
  lemma MetaOfDifference(original: Option<Object>, want: Object, live: Object)
    ensures var p := ObjectDifference(original, want, live);
      Meta(p) == MP.Difference(Meta(DocumentOrNone(original)), MetadataOf(want), MetadataOf(live)) &&
      ("metadata" in p ==> p["metadata"].Obj?)
  {
    hide MP.Difference;
    NestedField(DocumentOrNone(original), Document(want), Document(live), "metadata");
  }

  lemma DifferenceTells(original: Option<Object>, want: Object, live: Object)
    ensures Telling(ObjectDifference(original, want, live), want, live)
  {
    hide MP.Difference, ObjectDifference;
    MetaOfDifference(original, want, live);
    var was := Meta(DocumentOrNone(original));
    NestedField(was, MetadataOf(want), MetadataOf(live), "labels");
    NestedField(was, MetadataOf(want), MetadataOf(live), "annotations");
    StringsTell(ToMap(Field(was, "labels")), want.labels, live.labels);
    StringsTell(ToMap(Field(was, "annotations")), want.annotations, live.annotations);
  }

  /** What a merge of maps holds at one key. */
  lemma MergedField(target: Record, p: Record, k: string)
    ensures Find(ToMap(MP.Merged(Obj(target), Obj(p))), k) ==
      if k !in p then Find(target, k) else if p[k].Null? then None else Some(MP.Merged(Field(target, k), p[k]))
  {
  }

  lemma StringsTake(before: map<string, string>, said: Record)
    ensures Takes(StringsIn(MP.Merged(Strings(before), Obj(said))), said, before)
  {
    hide MP.Merged;
    forall l ensures Find(ToMap(MP.Merged(Strings(before), Obj(said))), l) ==
      if l !in said then Find(Strings(before).fields, l) else if said[l].Null? then None
      else Some(MP.Merged(Field(Strings(before).fields, l), said[l]))
    {
      MergedField(Strings(before).fields, said, l);
    }
    forall l, v: Value | v.Str? ensures MP.Merged(Field(Strings(before).fields, l), v) == v {
      MergedText(Field(Strings(before).fields, l), v);
    }
  }

  lemma MergedText(target: Value, v: Value)
    requires v.Str?
    ensures MP.Merged(target, v) == v
  {
  }

  /** Where the patch has a map or nothing, the map there is merged. */
  lemma MergedMap(target: Record, p: Record, k: string)
    requires k in target && target[k].Obj? && (k in p ==> p[k].Obj?)
    ensures Find(ToMap(MP.Merged(Obj(target), Obj(p))), k) == Some(MP.Merged(target[k], Obj(ToMap(Field(p, k)))))
    ensures MP.Merged(target[k], Obj(ToMap(Field(p, k)))).Obj?
  {
    MergedField(target, p, k);
    if k !in p {
      MP.MergedEmpty(target[k].fields);
    }
  }

  lemma MergeTakes(live: Object, p: Record)
    requires Shaped(p)
    ensures Takes(ObjectMerge(live, p).labels, SaidOf(p, "labels"), live.labels)
    ensures Takes(ObjectMerge(live, p).annotations, SaidOf(p, "annotations"), live.annotations)
  {
    hide MP.Merged, Takes;
    MergedMap(Document(live), p, "metadata");
    MergedMap(MetadataOf(live), Meta(p), "labels");
    MergedMap(MetadataOf(live), Meta(p), "annotations");
    StringsTake(live.labels, SaidOf(p, "labels"));
    StringsTake(live.annotations, SaidOf(p, "annotations"));
  }

  lemma LibraryMerges(base: Setup)
    ensures MergesMetadata(Library(base))
  {
    hide ObjectDifference, ObjectMerge, Telling, Takes, Shaped;
    var s := Library(base);
    forall original, want: Object, live {:trigger s.diff(original, want, live)}
      ensures s.diff(original, want, live).Some? && Telling(s.diff(original, want, live).value, want, live)
    {
      DifferenceTells(original, want, live);
    }
    forall live, p {:trigger s.merge(live, p)} | Shaped(p)
      ensures Takes(s.merge(live, p).labels, SaidOf(p, "labels"), live.labels)
      ensures Takes(s.merge(live, p).annotations, SaidOf(p, "annotations"), live.annotations)
    {
      MergeTakes(live, p);
    }
  }

  // -------- nothing is left to change --------

  /** The wanted object is one a manifest can spell. */
  predicate Ordinary(o: Object) {
    o.body.Keys !! {"kind", "apiVersion", "status", "metadata"} && MP.NoNulls(Obj(o.body))
  }

  /** What the difference starts from. */
  function OriginalFor(s: Setup, gvk: GVK, live: Object): Option<Object> {
    var past := PastOf(s, live);
    if past.Was? && !s.ignorePreviousApplied then Some(Prepare(s, gvk, past.copy)) else None
  }

  lemma CopyIsRead(o: Object)
    ensures Decoded(Encoded(o)).Was?
    ensures var copy := Decoded(Encoded(o)).copy;
      copy.labels == map[] && copy.annotations == map[] && copy.body.Keys <= {"template"} &&
        MP.Within(copy.body, o.body)
  {
    var text := Encoded(o);
    assert text[0] == 'j' && text[1..] == if |Template(o)| > LONGEST then Template(o)[..LONGEST] else Template(o);
  }

  lemma OriginalKeys(base: Setup, gvk: GVK, live: Object)
    ensures DocumentOrNone(OriginalFor(Library(base), gvk, live)).Keys <= {"template", "metadata"}
    ensures Meta(DocumentOrNone(OriginalFor(Library(base), gvk, live))).Keys <=
      {"name", "namespace", "labels", "annotations"}
  {
  }

  lemma DifferenceKeys(original: Record, want: Record, live: Record)
    ensures MP.Difference(original, want, live).Keys <= original.Keys + want.Keys
  {
  }

  /** The patch holds nothing that sanitizePatch would take out, so it is sent as it is or not at all. */
  lemma SentInFull(base: Setup, gvk: GVK, live: Object, want: Object)
    requires Ordinary(want)
    ensures var s := Library(base);
      var p := ObjectDifference(OriginalFor(s, gvk, live), Prepare(s, gvk, want), live);
      match Change(s, gvk, live, want)
      case None => PastOf(s, live).Corrupt?
      case Some(patch) => patch == map[] || patch == p
  {
    hide ObjectDifference, Hollow, Trimmed, Encoded, Decoded, Ordinary;
    var s := Library(base);
    PatchKeys(base, gvk, live, want);
    NothingTrimmed(ObjectDifference(OriginalFor(s, gvk, live), Prepare(s, gvk, want), live));
  }

  lemma PatchKeys(base: Setup, gvk: GVK, live: Object, want: Object)
    requires Ordinary(want)
    ensures var s := Library(base);
      var p := ObjectDifference(OriginalFor(s, gvk, live), Prepare(s, gvk, want), live);
      p.Keys !! DROPPED && "creationTimestamp" !in Meta(p)
  {
    hide MP.Difference, Encoded, Decoded, OriginalFor;
    var s := Library(base);
    var original, wanted := OriginalFor(s, gvk, live), Prepare(s, gvk, want);
    OriginalKeys(base, gvk, live);
    DifferenceKeys(DocumentOrNone(original), Document(wanted), Document(live));
    MetaOfDifference(original, wanted, live);
    DifferenceKeys(Meta(DocumentOrNone(original)), MetadataOf(wanted), MetadataOf(live));
  }

  lemma NothingTrimmed(p: Record)
    requires p.Keys !! DROPPED && "creationTimestamp" !in Meta(p)
    ensures Trimmed(p) == p
  {
    assert Meta(p) - {"creationTimestamp"} == Meta(p);
    assert p - DROPPED == p;
  }

  lemma NothingToChange(base: Setup, gvk: GVK, want: Object, live: Object)
    requires HasCopy(Library(base), live, want)
    requires ObjectDifference(OriginalFor(Library(base), gvk, live), Prepare(Library(base), gvk, want), live) == map[]
    ensures Change(Library(base), gvk, live, want) == Some(map[])
  {
    hide ObjectDifference;
    CopyIsRead(want);
  }

  lemma CreatedSettles(base: Setup, gvk: GVK, want: Object)
    ensures var s := Library(base); Change(s, gvk, Prepare(s, gvk, want), want) == Some(map[])
  {
    hide MP.Difference, Encoded, Decoded;
    var s := Library(base);
    var made := Prepare(s, gvk, want);
    MP.AlreadyThere(DocumentOrNone(OriginalFor(s, gvk, made)), Document(made));
    NothingToChange(base, gvk, want, made);
  }

  /** The document is one that an object can spell. */
  predicate Spells(d: Record) {
    && "metadata" in d && d["metadata"].Obj?
    && Meta(d).Keys == {"name", "namespace", "labels", "annotations"}
    && Meta(d)["name"].Str? && Meta(d)["namespace"].Str?
    && OnlyStrings(Meta(d)["labels"]) && OnlyStrings(Meta(d)["annotations"])
  }

  predicate OnlyStrings(v: Value) {
    v.Obj? && forall l :: l in v.fields ==> v.fields[l].Str?
  }

  lemma RereadSpells(o: Object, d: Record)
    requires Spells(d)
    ensures Document(Reread(o, d)) == d
  {
    StringsAgain(Meta(d)["labels"]);
    StringsAgain(Meta(d)["annotations"]);
    assert MetadataOf(Reread(o, d)) == Meta(d);
  }

  lemma StringsAgain(v: Value)
    requires OnlyStrings(v)
    ensures Strings(StringsIn(v)) == v
  {
    assert Strings(StringsIn(v)).fields == v.fields;
  }

  lemma StringsHaveNoNulls(m: map<string, string>)
    ensures MP.NoNulls(Strings(m))
  {
    var v := Strings(m);
    assert forall l :: l in v.fields ==> v.fields[l].Str?;
  }

  /** The wanted object is one whose document has no null, and its copy is part of it. */
  lemma WantedDocument(base: Setup, gvk: GVK, want: Object)
    requires Ordinary(want)
    ensures var s := Library(base);
      MP.NoNulls(Obj(Document(Prepare(s, gvk, want))))
  {
    NoNullsInDocument(Prepare(Library(base), gvk, want));
  }

  lemma NoNullsInDocument(o: Object)
    requires Ordinary(o)
    ensures MP.NoNulls(Obj(Document(o)))
  {
    StringsHaveNoNulls(o.labels);
    StringsHaveNoNulls(o.annotations);
    assert MP.NoNulls(Obj(MetadataOf(o)));
  }

  lemma CopyWithin(base: Setup, gvk: GVK, want: Object, live: Object)
    requires Ordinary(want) && HasCopy(Library(base), live, want)
    ensures MP.Within(DocumentOrNone(OriginalFor(Library(base), gvk, live)),
      Document(Prepare(Library(base), gvk, want)))
  {
    hide Encoded, Decoded;
    CopyIsRead(want);
    var s := Library(base);
    var original := OriginalFor(s, gvk, live);
    if original.Some? {
      var copy, whole := original.value, Prepare(s, gvk, want);
      assert MP.Within(Strings(copy.annotations).fields, Strings(whole.annotations).fields);
      assert MP.Within(MetadataOf(copy), MetadataOf(whole));
    }
  }

  /** The document after the patch has been merged. */
  function Merged(original: Option<Object>, want: Object, live: Object): Record {
    ToMap(MP.Merged(Obj(Document(live)), Obj(ObjectDifference(original, want, live))))
  }

  lemma NestedAfter(original: Value, want: Record, live: Record)
    ensures MP.AfterEntry(original, Obj(want), Some(Obj(live))) ==
            Some(MP.Merged(Obj(live), Obj(MP.Difference(ToMap(original), want, live))))
  {
    hide MP.Difference, MP.Merged;
    MP.MergedEmpty(live);
    MP.AlreadyThere(ToMap(original), want);
  }

  lemma TextAfter(original: Value, want: string, live: Option<Value>)
    ensures MP.AfterEntry(original, Str(want), live) == Some(Str(want))
  {
  }

  lemma StringsAfter(original: Record, want: map<string, string>, live: map<string, string>)
    ensures var v := MP.Merged(Strings(live), Obj(MP.Difference(original, Strings(want).fields, Strings(live).fields)));
      OnlyStrings(v) && forall l :: l in want ==> l in v.fields && v.fields[l] == Str(want[l])
  {
    hide MP.Merged, MP.Difference, MP.AfterEntry;
    StringsHaveNoNulls(want);
    var w, o := Strings(want).fields, Strings(live).fields;
    var v := MP.Merged(Obj(o), Obj(MP.Difference(original, w, o)));
    MP.MergedAt(original, w, o, "");
    forall l
      ensures l in want ==> l in v.fields && v.fields[l] == Str(want[l])
      ensures l in v.fields ==> v.fields[l].Str?
    {
      MP.MergedAt(original, w, o, l);
      if l in want {
        TextAfter(Field(original, l), want[l], Find(o, l));
        assert Find(v.fields, l) == Some(Str(want[l]));
      } else {
        assert Find(v.fields, l) in {None, Find(o, l)};
      }
    }
  }

  lemma MetaAfter(original: Record, want: Object, live: Object, k: string)
    requires MP.NoNulls(Obj(MetadataOf(want)))
    ensures var v := MP.Merged(Obj(MetadataOf(live)), Obj(MP.Difference(original, MetadataOf(want), MetadataOf(live))));
      v.Obj? && Find(v.fields, k) ==
        match k
        case "name" => Some(Str(want.name))
        case "namespace" => Some(Str(want.ns))
        case "labels" => Some(MP.Merged(Strings(live.labels), Obj(MP.Difference(
            ToMap(Field(original, "labels")), Strings(want.labels).fields, Strings(live.labels).fields))))
        case "annotations" => Some(MP.Merged(Strings(live.annotations), Obj(MP.Difference(
            ToMap(Field(original, "annotations")), Strings(want.annotations).fields,
            Strings(live.annotations).fields))))
        case _ => None
  {
    hide MP.Merged, MP.Difference, MP.AfterEntry, MP.NoNulls;
    MP.MergedAt(original, MetadataOf(want), MetadataOf(live), k);
    TextAfter(Field(original, k), want.name, Find(MetadataOf(live), k));
    TextAfter(Field(original, k), want.ns, Find(MetadataOf(live), k));
    NestedAfter(Field(original, "labels"), Strings(want.labels).fields, Strings(live.labels).fields);
    NestedAfter(Field(original, "annotations"), Strings(want.annotations).fields, Strings(live.annotations).fields);
  }

  /** What the metadata are after the merge. */
  lemma MergedSpells(original: Option<Object>, want: Object, live: Object)
    requires MP.NoNulls(Obj(Document(want)))
    ensures var d := Merged(original, want, live);
      && Spells(d) && Meta(d)["name"] == Str(want.name) && Meta(d)["namespace"] == Str(want.ns)
      && forall l :: l in want.annotations ==>
          l in Meta(d)["annotations"].fields && Meta(d)["annotations"].fields[l] == Str(want.annotations[l])
  {
    hide MP.Merged, MP.Difference, MP.AfterEntry;
    var was, d := DocumentOrNone(original), Merged(original, want, live);
    MP.MergedAt(was, Document(want), Document(live), "metadata");
    NestedAfter(Field(was, "metadata"), MetadataOf(want), MetadataOf(live));
    assert MP.NoNulls(Obj(MetadataOf(want))) by { assert Document(want)["metadata"] == Obj(MetadataOf(want)); }
    StringsAfter(ToMap(Field(Meta(was), "labels")), want.labels, live.labels);
    StringsAfter(ToMap(Field(Meta(was), "annotations")), want.annotations, live.annotations);
    assert d["metadata"] == MP.Merged(Obj(MetadataOf(live)),
      Obj(MP.Difference(Meta(was), MetadataOf(want), MetadataOf(live))));
    MetaAfter(Meta(was), want, live, "name");
    MetaAfter(Meta(was), want, live, "namespace");
    MetaAfter(Meta(was), want, live, "labels");
    MetaAfter(Meta(was), want, live, "annotations");
    forall k ensures k in Meta(d) <==> k in {"name", "namespace", "labels", "annotations"} {
      MetaAfter(Meta(was), want, live, k);
    }
  }

  lemma PatchedSettles(base: Setup, gvk: GVK, live: Object, want: Object)
    requires Ordinary(want)
    ensures var s := Library(base);
      var after := ObjectMerge(live, ObjectDifference(OriginalFor(s, gvk, live), Prepare(s, gvk, want), live));
      Change(s, gvk, after.As(gvk), want) == Some(map[]) && after.MetaKey() == want.MetaKey()
  {
    hide MP.Merged, MP.Difference, Encoded, Decoded, Spells, MP.Within, MP.NoNulls, Change, Ordinary, MetadataOf,
         Document;
    var s := Library(base);
    var original, wanted := OriginalFor(s, gvk, live), Prepare(s, gvk, want);
    var d := Merged(original, wanted, live);
    var after := ObjectMerge(live, ObjectDifference(original, wanted, live));
    assert after == Reread(live, d);
    WantedDocument(base, gvk, want);
    MergedSpells(original, wanted, live);
    RereadSpells(live, d);
    DocumentAs(after, gvk);
    RereadHas(live, d, LABEL_APPLIED, Encoded(want));
    CopyWithin(base, gvk, want, after.As(gvk));
    MP.NothingLeft(DocumentOrNone(original), Document(wanted), Document(live),
                   DocumentOrNone(OriginalFor(s, gvk, after.As(gvk))));
    NothingToChange(base, gvk, want, after.As(gvk));
  }

  lemma RereadHas(o: Object, d: Record, l: string, text: string)
    requires Spells(d) && l in Meta(d)["annotations"].fields && Meta(d)["annotations"].fields[l] == Str(text)
    ensures var after := Reread(o, d);
      && l in after.annotations && after.annotations[l] == text
      && after.name == Text(Meta(d)["name"]) && after.ns == Text(Meta(d)["namespace"])
  {
  }

  lemma DocumentAs(o: Object, gvk: GVK)
    ensures Document(o.As(gvk)) == Document(o)
  {
  }

  // -------- all of it together --------

  lemma ObjectSettles(base: Setup, gvk: GVK, want: Object)
    requires Ordinary(want)
    ensures Settles(Library(base), gvk, want)
  {
    hide Change, ObjectDifference, Ordinary, ObjectMerge;
    var s := Library(base);
    CreatedSettles(base, gvk, want);
    forall live {:trigger Change(s, gvk, live, want)}
      ensures match Change(s, gvk, live, want)
        case None => true
        case Some(patch) => patch != map[] ==> Change(s, gvk, s.merge(live, patch).As(gvk), want) == Some(map[])
    {
      SentInFull(base, gvk, live, want);
      PatchedSettles(base, gvk, live, want);
    }
  }

  lemma OwnCopyAccepted(base: Setup, gvk: GVK, want: Object)
    ensures AcceptsOwnCopy(Library(base), gvk, want)
  {
    hide Encoded, Decoded;
    CopyIsRead(want);
  }

  lemma NeverHandled(base: Setup, gvk: GVK, objs: Objs)
    ensures NothingHandled(Library(base), gvk, objs)
  {
  }

  /** Everything that convergence and retry ask holds of this library, of the reconciler of jobs, and of every
      stamped object a manifest can spell, whatever else the setup says. */
  lemma LibraryServes(base: Setup, gvk: GVK, objs: Objs)
    requires AllStamped(base, objs) && forall k :: k in objs ==> Ordinary(objs[k])
    ensures var s := Library(base);
      && Patchable(s, gvk, objs) && Steady(s, gvk, objs)
      && forall k :: k in objs ==> Settles(s, gvk, objs[k])
  {
    hide LabelsArrive, CopyArrives, Change, Settles, Encoded, Decoded, MergesMetadata, AcceptsOwnCopy, Ordinary,
         NothingHandled;
    var s := Library(base);
    LibraryMerges(base);
    MergePatchesArrive(s, gvk, objs);
    NeverHandled(base, gvk, objs);
    forall k | k in objs
      ensures Settles(s, gvk, objs[k]) && AcceptsOwnCopy(s, gvk, objs[k]) && CreatedAsWanted(s, gvk, objs[k])
    {
      ObjectSettles(base, gvk, objs[k]);
      OwnCopyAccepted(base, gvk, objs[k]);
      CreatedSettles(base, gvk, objs[k]);
    }
  }

  /** And replacement does happen: a live job, created or patched under whatever version, is to be replaced
      exactly when what its copy kept of the template is not what is kept of the wanted one's. */
  lemma JobIsDemandedExactlyWhen(base: Setup, live: Object, before: Object, after: Object)
    requires JOB !in base.replaceOnChange && HasCopy(Library(base), live, before)
    ensures var s, k := Library(base), after.MetaKey();
      Demanded(s, JOB, map[k := after], map[Id(JOB.GK(), k) := live], k) <==> Encoded(before) != Encoded(after)
  {
    hide Encoded, Decoded, Change;
    var s := Library(base);
    CopyIsRead(before);
    CopyIsRead(after);
    CopyText(before);
    CopyText(after);
    ChangedCopyIsSent(base, live.As(JOB), after);
  }

  /** So a job puts up with what another version writes under its key exactly when both keep the same of their
      templates; versions that want different jobs there replace each other's in every run. */
  lemma JobToleratesExactlyWhen(base: Setup, want: Object, writer: GVK, other: Object)
    requires JOB !in base.replaceOnChange && HasHash(other, base.hash)
    ensures Tolerates(Library(base), JOB, want, writer, other) <==> Encoded(want) == Encoded(other)
  {
    hide Encoded, Decoded, Change, Tolerates, MergesMetadata, CopyArrives;
    var s := Library(base);
    CopyIsRead(other);
    CopyIsRead(want);
    CopyText(want);
    CopyText(other);
    if Encoded(want) == Encoded(other) {
      LibraryMerges(base);
      MergePatchesArrive(s, writer, map[other.MetaKey() := other]);
      assert CopyArrives(s, writer, map[other.MetaKey() := other][other.MetaKey()]);
      CopyTolerated(s, JOB, want, writer, other);
    } else {
      CreatedNotTolerated(base, want, writer, other);
    }
  }

  lemma CreatedNotTolerated(base: Setup, want: Object, writer: GVK, other: Object)
    requires JOB !in base.replaceOnChange && Encoded(want) != Encoded(other)
    ensures !Tolerates(Library(base), JOB, want, writer, other)
  {
    hide Encoded, Decoded, Decide;
    var s, k := Library(base), want.MetaKey();
    var o := Prepare(s, writer, other);
    JobIsDemandedExactlyWhen(base, o, other, want);
    assert MayBecome(s, writer, other, None, Some(o));
  }

  lemma CopyText(o: Object)
    ensures "j" + Template(Decoded(Encoded(o)).copy) == Encoded(o)
  {
  }

  lemma ChangedCopyIsSent(base: Setup, live: Object, want: Object)
    ensures var s := Library(base);
      !PastOf(s, live).Corrupt? && !HasCopy(s, live, want) ==> Change(s, JOB, live, want) !in {None, Some(map[])}
  {
    hide ObjectDifference, Sanitized, Encoded, Decoded;
    var s := Library(base);
    var original, wanted := OriginalFor(s, JOB, live), Prepare(s, JOB, want);
    DifferenceTells(original, wanted, live);
    var p := ObjectDifference(original, wanted, live);
    DroppedExactlyWhen(p);
    if !HasCopy(s, live, want) {
      assert LABEL_APPLIED in SaidOf(p, "annotations");
      assert LABEL_APPLIED in Annotations(p) && LABEL_APPLIED != SENTINEL;
    }
  }

  // -------- retry --------

  /** Two versions that want the same object, but for the version, cope with each other. */
  lemma SameObjectCopes(base: Setup, gvk: GVK, want: Object, writer: GVK, other: Object)
    requires Ordinary(want) && want.As(writer) == other.As(writer)
    ensures CopesWith(Library(base), gvk, want, writer, other)
  {
    hide Change, Ordinary, MayBecome, Fine;
    var s := Library(base);
    assert Ordinary(other) by { OrdinaryAs(want, other, writer); }
    forall before, o: Object {:trigger MayBecome(s, writer, other, before, Some(o))}
      | MayBecome(s, writer, other, before, Some(o)) && before != Some(o)
      ensures Fine(s, gvk, o.As(gvk), want)
    {
      WrittenSettles(base, writer, other, before, o);
      ChangeOfVersion(base, gvk, want, writer, other, o);
      UnchangedIsFine(s, gvk, o.As(gvk), want);
    }
  }

  lemma OrdinaryAs(a: Object, b: Object, gvk: GVK)
    requires Ordinary(a) && a.As(gvk) == b.As(gvk)
    ensures Ordinary(b)
  {
    assert a.body == a.As(gvk).body == b.As(gvk).body == b.body;
  }

  lemma UnchangedIsFine(s: Setup, gvk: GVK, live: Object, want: Object)
    requires Change(s, gvk, live, want) == Some(map[])
    ensures Fine(s, gvk, live, want)
  {
    hide Change;
  }

  lemma WrittenSettles(base: Setup, gvk: GVK, want: Object, before: Option<Object>, o: Object)
    requires Ordinary(want) && MayBecome(Library(base), gvk, want, before, Some(o)) && before != Some(o)
    ensures Change(Library(base), gvk, o.As(gvk), want) == Some(map[])
  {
    hide Change, Ordinary, VerdictOn, Settles;
    var s := Library(base);
    ObjectSettles(base, gvk, want);
    if before.None? {
      CreatedSettles(base, gvk, want);
      PreparedKind(s, gvk, want);
    } else {
      PatchSettles(s, gvk, want, before.value.As(gvk));
    }
  }

  lemma PatchSettles(s: Setup, gvk: GVK, want: Object, live: Object)
    requires Settles(s, gvk, want)
    ensures match Change(s, gvk, live, want)
      case None => true
      case Some(patch) => patch != map[] ==> Change(s, gvk, s.merge(live, patch).As(gvk), want) == Some(map[])
  {
    hide Change;
  }

  /** The version plays no part in a change. */
  lemma ChangeOfVersion(base: Setup, gvk: GVK, want: Object, writer: GVK, other: Object, o: Object)
    requires want.As(writer) == other.As(writer)
    ensures var s := Library(base); Change(s, gvk, o.As(gvk), want) == Change(s, writer, o.As(writer), other)
  {
    hide Encoded, Decoded, Sanitized, MP.Difference;
    var s := Library(base);
    assert Prepare(s, gvk, want).As(writer) == Prepare(s, writer, other) by { EncodedAs(want, other, writer); }
    DocumentAs(Prepare(s, gvk, want), writer);
    DocumentAs(o, gvk);
    DocumentAs(o, writer);
  }

  lemma EncodedAs(a: Object, b: Object, gvk: GVK)
    requires a.As(gvk) == b.As(gvk)
    ensures Encoded(a) == Encoded(b)
  {
    assert a.body == a.As(gvk).body == b.As(gvk).body == b.body;
  }

  /** What two versions desire under one key is the same object, but for the version. */
  ghost predicate SharedAlike(order: seq<GVK>, choices: seq<Choice>)
    requires |order| == |choices|
  {
    forall i, j, k :: 0 <= i < |order| && 0 <= j < |order| && i != j && order[i].GK() == order[j].GK() &&
                      k in choices[i].objs && k in choices[j].objs ==>
      choices[i].objs[k].As(order[j]) == choices[j].objs[k].As(order[j])
  }

  /** So with this library a run whose only trouble was replacement can always be retried. */
  lemma LibraryRetries(base: Setup, order: seq<GVK>, raws: map<GVK, Objs>, choices: seq<Choice>, states: seq<Run>,
                       choices': seq<Choice>, states': seq<Run>)
    requires Again(Library(base), order, raws, choices, states, choices', states')
    requires OnlyWaits(states[0].errs, states[|order|].errs)
    requires ServedIn(Library(base), states'[0].w, states'[|order|].w)
    requires SharedAlike(order, choices)
    requires forall i :: 0 <= i < |order| ==> AllStamped(base, choices[i].objs)
    requires forall i, k :: 0 <= i < |order| && k in choices[i].objs ==> Ordinary(choices[i].objs[k])
    ensures states'[|order|].errs == states'[0].errs
    ensures VersionsAgree(Library(base), order, choices) ==>
      forall i, k :: 0 <= i < |order| && k in choices[i].objs ==> Id(order[i].GK(), k) in states'[|order|].w.objects
  {
    hide ProcessKind, Legal, UpToDate, Workable, Steady, Settles, Ordinary, OnlyWaits, ServedIn, Patchable, Demanded,
         Prepare, CopesWith, VersionsAgree, DesiredOnce, AllStamped;
    var s := Library(base);
    forall i | 0 <= i < |order|
      ensures Steady(s, order[i], choices[i].objs)
      ensures forall k :: k in choices[i].objs ==> Settles(s, order[i], choices[i].objs[k])
    {
      LibraryServes(base, order[i], choices[i].objs);
    }
    forall i, j, k | 0 <= i < |order| && 0 <= j < |order| && i != j && order[i].GK() == order[j].GK() &&
                     k in choices[i].objs && k in choices[j].objs
      ensures CopesWith(s, order[i], choices[i].objs[k], order[j], choices[j].objs[k])
    {
      SameObjectCopes(base, order[i], choices[i].objs[k], order[j], choices[j].objs[k]);
    }
    forall i | 0 <= i < |order| ensures Workable(s, order[i], choices[i].objs, states'[0].w.objects) {
      SettledIsWorkable(s, order, raws, choices, states, i);
    }
    RetrySucceeds(s, order, raws, choices, states, choices', states');
  }
}
