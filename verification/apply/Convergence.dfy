/** What an error-free Apply leaves behind, and what a second one finds. */
module Convergence {
  import opened Common
  import opened Kube
  import opened Engine
  import opened EngineFacts
  import opened Isolation

  /** What is asked of the patch library about the objects that are wanted: a patch that is sent brings
      every label that is missing, and where none is sent none is missing. */
  ghost predicate LabelsArrive(s: Setup, gvk: GVK, objs: Objs) {
    forall k, live {:trigger Change(s, gvk, live, objs[k])} :: k in objs ==>
      match Change(s, gvk, live, objs[k])
      case None => true
      case Some(patch) => HasLabels(if patch == map[] then live else s.merge(live, patch), objs[k])
  }

  /** The reconciler of the kind makes no change of its own to a wanted object; the ones that come with the
      library never do. */
  ghost predicate NothingHandled(s: Setup, gvk: GVK, objs: Objs) {
    forall k, live {:trigger VerdictOn(s, gvk, live, objs[k])} :: k in objs ==>
      !VerdictOn(s, gvk, live, objs[k]).Handled?
  }

  ghost predicate Patchable(s: Setup, gvk: GVK, objs: Objs) {
    LabelsArrive(s, gvk, objs) && NothingHandled(s, gvk, objs)
  }

  /** The same for all kinds of a run. */
  ghost predicate AllPatchable(s: Setup, order: seq<GVK>, choices: seq<Choice>)
    requires |order| == |choices|
  {
    forall i :: 0 <= i < |order| ==> Patchable(s, order[i], choices[i].objs)
  }

  /** The objects handed to process carry the set's hash. */
  ghost predicate AllStamped(s: Setup, objs: Objs) {
    forall k :: k in objs ==> HasHash(objs[k], s.hash)
  }

  /** The kind is as the set wants it: every desired object is live with the set's hash, and no other
      object with that hash is left that pruning would have to remove. */
  ghost predicate Converged(s: Setup, gk: GroupKind, keys: set<Key>, objects: map<Id, Object>) {
    && (forall k :: k in keys ==> Id(gk, k) in objects && HasHash(objects[Id(gk, k)], s.hash))
    && (forall id: Id :: id in objects && id.gk == gk && id.key !in keys ==> Excused(s, id, objects[id]))
  }

  ghost predicate Excused(s: Setup, id: Id, o: Object) {
    !HasHash(o, s.hash) || !ShouldPrune(o) || Protected(s, id.gk, id.key)
  }

  /** The listing looks into every namespace. */
  predicate ListsEverywhere(s: Setup, gvk: GVK) {
    s.listerNs == "" && (gvk in s.informers || s.owner.Some?)
  }

  lemma ArrivesWithHash(s: Setup, gvk: GVK, objs: Objs, k: Key, before: Option<Object>, after: Option<Object>)
    requires k in objs && Patchable(s, gvk, objs) && HasHash(objs[k], s.hash)
    requires Becomes(s, gvk, objs[k], before, after)
    ensures after.Some? && HasLabels(after.value, objs[k]) && HasHash(after.value, s.hash)
  {
    hide Change, VerdictOn;
    if before.Some? {
      var live := before.value.As(gvk);
      assert Change(s, gvk, live, objs[k]) == Change(s, gvk, live, objs[k]);
      assert !VerdictOn(s, gvk, live, objs[k]).Handled?;
      assert HasLabels(after.value, objs[k]);
    }
  }

  lemma StampsSurvive(s: Setup, gvk: GVK, raw: Objs, c: Choice)
    requires !Refused(s, gvk) && WellKeyed(raw) && AllStamped(s, raw) && Normalised(s, gvk, raw, c.objs)
    ensures AllStamped(s, c.objs)
  {
    hide Normalised;
    NormalisedFacts(s, gvk, raw, c.objs);
    forall k | k in c.objs ensures HasHash(c.objs[k], s.hash) {
      assert From(raw, c.objs[k]);
    }
  }

  /** One kind, error-free: besides, every desired object has all its labels. */
  lemma KindConverges(s: Setup, gvk: GVK, c: Choice, r: Run, r': Run)
    requires Patchable(s, gvk, c.objs) && AllStamped(s, c.objs)
    requires !Gated(s, gvk) && ListsEverywhere(s, gvk)
    requires UpToDate(s, gvk, r.w)
    requires KindEffect(s, gvk, c, r, r') && r'.errs == r.errs
    ensures Converged(s, gvk.GK(), c.objs.Keys, r'.w.objects)
    ensures forall k :: k in c.objs ==> HasLabels(r'.w.objects[Id(gvk.GK(), k)], c.objs[k])
  {
    hide Becomes, MayBecome, Patchable, HasLabels;
    var found := Found(s, gvk, c, r.w);
    assert found.Some?;
    forall k | k in c.objs
      ensures Id(gvk.GK(), k) in r'.w.objects && HasHash(r'.w.objects[Id(gvk.GK(), k)], s.hash)
      ensures HasLabels(r'.w.objects[Id(gvk.GK(), k)], c.objs[k])
    {
      ArrivesWithHash(s, gvk, c.objs, k, Live(r.w, gvk, k), Live(r'.w, gvk, k));
    }
    forall id: Id | id in r'.w.objects && id.gk == gvk.GK() && id.key !in c.objs
      ensures Excused(s, id, r'.w.objects[id])
    {
      NotPruned(s, gvk, c, r, r', id);
    }
  }

  lemma NotPruned(s: Setup, gvk: GVK, c: Choice, r: Run, r': Run, id: Id)
    requires !Gated(s, gvk) && ListsEverywhere(s, gvk) && UpToDate(s, gvk, r.w)
    requires KindEffect(s, gvk, c, r, r') && r'.errs == r.errs
    requires id in r'.w.objects && id.gk == gvk.GK() && id.key !in c.objs
    ensures Excused(s, id, r'.w.objects[id])
  {
    hide Becomes, MayBecome, Ordered;
    var existing := Found(s, gvk, c, r.w).value;
    assert id == Id(gvk.GK(), id.key);
    if id.key !in c.delete {
      assert Find(r'.w.objects, id) == Find(r.w.objects, id);
      ListsAll(s, gvk, c, r.w, id.key);
      InDelete(s, gvk, c, existing, id.key);
    }
  }

  lemma InDelete(s: Setup, gvk: GVK, c: Choice, existing: Objs, k: Key)
    requires Lists(s, gvk, c, existing)
    ensures k in c.delete <==> k in ToDelete(s, gvk, c.objs.Keys, existing)
    ensures k in c.create <==> k in c.objs && k !in existing
  {
    assert k in c.delete <==> k in Elements(c.delete);
    assert k in c.create <==> k in Elements(c.create);
  }

  /** The listing is exactly what carries the hash, in the namespaces it looks into. */
  lemma ListsVisible(s: Setup, gvk: GVK, c: Choice, w: World, k: Key)
    requires UpToDate(s, gvk, w) && Found(s, gvk, c, w).Some?
    ensures gvk in s.scopes
    ensures var existing, id := Found(s, gvk, c, w).value, Id(gvk.GK(), k);
      && (k in existing <==> id in w.objects && HasHash(w.objects[id], s.hash) && Visible(s, gvk, c.objs.Keys, k))
      && (k in existing ==> existing[k] == w.objects[id].As(gvk))
  {
    hide Visible;
    var id, source := Id(gvk.GK(), k), View(w.objects, gvk);
    assert k in source <==> id in w.objects by {
      if id in w.objects { assert id.key == k && id.gk == gvk.GK(); }
    }
    var existing := Found(s, gvk, c, w).value;
    assert existing == map j | j in source && HasHash(source[j], s.hash) &&
      Visible(s, gvk, c.objs.Keys, j) :: source[j];
  }

  lemma ListsAll(s: Setup, gvk: GVK, c: Choice, w: World, k: Key)
    requires ListsEverywhere(s, gvk) && UpToDate(s, gvk, w) && Found(s, gvk, c, w).Some?
    ensures var existing := Found(s, gvk, c, w).value;
      && (k in existing <==> Id(gvk.GK(), k) in w.objects && HasHash(w.objects[Id(gvk.GK(), k)], s.hash))
      && (k in existing ==> existing[k] == w.objects[Id(gvk.GK(), k)].As(gvk))
  {
    ListsVisible(s, gvk, c, w, k);
  }

  // -------- several kinds --------

  /** An object desired under one version of a kind is desired, or protected from pruning, under every
      other version that is processed. */
  ghost predicate VersionsAgree(s: Setup, order: seq<GVK>, choices: seq<Choice>)
    requires |order| == |choices|
  {
    forall i, j, k :: 0 <= i < |order| && 0 <= j < |order| && order[i].GK() == order[j].GK() ==>
      (k in choices[i].objs ==> k in choices[j].objs || Protected(s, order[j].GK(), k))
  }

  /** Processing another kind, or another version, does not undo what is there. */
  lemma KindKeeps(s: Setup, gvk: GVK, c: Choice, r: Run, r': Run, gk: GroupKind, keys: set<Key>)
    requires Patchable(s, gvk, c.objs) && AllStamped(s, c.objs)
    requires KindEffect(s, gvk, c, r, r') && r'.errs == r.errs
    requires Converged(s, gk, keys, r.w.objects)
    requires gvk.GK() == gk ==> forall k :: k in keys ==> k in c.objs || Protected(s, gk, k)
    requires gvk.GK() == gk ==> forall k :: k in c.objs ==> k in keys || Protected(s, gk, k)
    ensures Converged(s, gk, keys, r'.w.objects)
  {
    hide Becomes, MayBecome, Patchable, Fresh;
    assert Found(s, gvk, c, r.w).Some?;
    forall k | k in keys ensures Id(gk, k) in r'.w.objects && HasHash(r'.w.objects[Id(gk, k)], s.hash) {
      KeyKept(s, gvk, c, r, r', Id(gk, k));
      if gvk.GK() == gk && k in c.objs {
        ArrivesWithHash(s, gvk, c.objs, k, Live(r.w, gvk, k), Live(r'.w, gvk, k));
      }
    }
    forall id: Id | id in r'.w.objects && id.gk == gk && id.key !in keys ensures Excused(s, id, r'.w.objects[id]) {
      if !Protected(s, gk, id.key) {
        KeyKept(s, gvk, c, r, r', id);
      }
    }
  }

  /** Undesired objects are left alone or deleted, and protected ones are left alone. */
  lemma KeyKept(s: Setup, gvk: GVK, c: Choice, r: Run, r': Run, id: Id)
    requires KindEffect(s, gvk, c, r, r')
    ensures gvk.GK() != id.gk || id.key !in c.objs ==>
      || Find(r'.w.objects, id) == Find(r.w.objects, id)
      || (Find(r'.w.objects, id) == None && !Protected(s, id.gk, id.key))
  {
    if gvk.GK() != id.gk || id.key !in c.objs {
      KindPrunes(s, gvk, c, r, r', id);
    }
  }

  lemma OtherKindKeeps(s: Setup, gvk: GVK, c: Choice, r: Run, r': Run, id: Id)
    requires KindEffect(s, gvk, c, r, r')
    ensures gvk.GK() != id.gk ==> Find(r'.w.objects, id) == Find(r.w.objects, id)
  {
    hide Becomes, MayBecome, Fresh, Lists;
  }

  /** Convergence: from any state of the cluster, a run without errors leaves every processed kind as
      the set wants it. */
  lemma {:induction false} RunConverges(s: Setup, order: seq<GVK>, raws: map<GVK, Objs>, choices: seq<Choice>,
                                        states: seq<Run>, n: nat, i: nat)
    requires CleanRun(s, order, raws, choices, states) && i < n <= |order|
    requires states[|order|].errs == states[0].errs
    requires AllPatchable(s, order, choices) && VersionsAgree(s, order, choices)
    requires forall gvk :: gvk in raws ==> AllStamped(s, raws[gvk])
    requires forall gvk :: gvk in order ==> !Gated(s, gvk) && ListsEverywhere(s, gvk)
    ensures Converged(s, order[i].GK(), choices[i].objs.Keys, states[n].w.objects)
  {
    hide ProcessKind, Patchable, Converged, KindEffect, UpToDate;
    NoErrors(s, order, raws, choices, states, n - 1);
    StoredAlong(s, order, raws, choices, states, n - 1);
    ChoiceStamped(s, order, raws, choices, states, n - 1);
    if i == n - 1 {
      KindConverges(s, order[i], choices[i], states[i], states[n]);
    } else {
      RunConverges(s, order, raws, choices, states, n - 1, i);
      KindKeeps(s, order[n - 1], choices[n - 1], states[n - 1], states[n], order[i].GK(), choices[i].objs.Keys);
    }
  }

  lemma {:induction false} ErrorsGrow(s: Setup, order: seq<GVK>, raws: map<GVK, Objs>, choices: seq<Choice>,
                                      states: seq<Run>, i: nat, n: nat)
    requires CleanRun(s, order, raws, choices, states) && i <= n <= |order|
    ensures states[i].errs <= states[n].errs
    decreases n
  {
    hide ProcessKind, Legal, UpToDate, Found;
    if i < n {
      ErrorsGrow(s, order, raws, choices, states, i, n - 1);
      StoredAlong(s, order, raws, choices, states, n - 1);
    }
  }

  lemma NoErrors(s: Setup, order: seq<GVK>, raws: map<GVK, Objs>, choices: seq<Choice>, states: seq<Run>, i: nat)
    requires CleanRun(s, order, raws, choices, states) && i < |order|
    requires states[|order|].errs == states[0].errs
    ensures states[i + 1].errs == states[i].errs
  {
    hide ProcessKind, Legal, KindEffect, UpToDate, Stored;
    ErrorsGrow(s, order, raws, choices, states, 0, i);
    ErrorsGrow(s, order, raws, choices, states, i, i + 1);
    ErrorsGrow(s, order, raws, choices, states, i + 1, |order|);
  }

  lemma ChoiceStamped(s: Setup, order: seq<GVK>, raws: map<GVK, Objs>, choices: seq<Choice>, states: seq<Run>, i: nat)
    requires CleanRun(s, order, raws, choices, states) && i < |order| && states[i + 1].errs == states[i].errs
    requires forall gvk :: gvk in raws ==> AllStamped(s, raws[gvk])
    ensures AllStamped(s, choices[i].objs)
  {
    hide KindEffect, UpToDate, Normalised;
    var gvk, raw := order[i], Raw(raws, order[i]);
    assert Legal(s, gvk, raw, states[i].w, choices[i]);
    assert states[i + 1] == ProcessKind(s, false, gvk, raw, choices[i], states[i]);
    StampsSurvive(s, gvk, raw, choices[i]);
  }

  // -------- when versions do not agree --------

  /** Where the listing looks: with a lister's namespace there, except that an informer shows all objects of a
      cluster-scoped kind; otherwise everywhere, except that without informer and owner it looks only where
      something is desired. */
  lemma LooksInto(s: Setup, gvk: GVK, desired: set<Key>, k: Key)
    requires gvk in s.scopes
    ensures Visible(s, gvk, desired, k) <==>
      if s.listerNs != "" then k.ns == s.listerNs || (gvk in s.informers && !s.scopes[gvk])
      else gvk in s.informers || s.owner.Some? || exists d :: d in desired && (d.ns == "" || d.ns == k.ns)
  {
  }

  /** Which undesired objects survive an error-free pass over the kind: exactly those that do not carry the
      set's hash, whose prune label says so, whose key is declared (a namespace that was given on the way,
      the owner's say, does not count), that stand where the listing does not look, or whose kind is not to
      be deleted at all. */
  lemma SurvivesExactlyWhen(s: Setup, gvk: GVK, c: Choice, r: Run, r': Run, k: Key)
    requires UpToDate(s, gvk, r.w) && KindEffect(s, gvk, c, r, r') && r'.errs == r.errs
    requires k !in c.objs && Id(gvk.GK(), k) in r.w.objects
    ensures gvk in s.scopes
    ensures var o := r.w.objects[Id(gvk.GK(), k)];
      Id(gvk.GK(), k) in r'.w.objects <==>
        || Find(o.labels, "objectset.rio.cattle.io/hash") != Some(s.hash)
        || Find(o.labels, "objectset.rio.cattle.io/prune") == Some("false")
        || Id(gvk.GK(), k) in s.declared
        || (k.ns == s.defaultNs && Id(gvk.GK(), Key("", k.name)) in s.declared)
        || s.noDelete || gvk in s.noDeleteKinds
        || (if s.listerNs != "" then k.ns != s.listerNs && (gvk in s.informers ==> s.scopes[gvk])
            else gvk !in s.informers && s.owner.None? && forall d :: d in c.objs ==> d.ns != "" && d.ns != k.ns)
  {
    hide Becomes, MayBecome, Ordered, Listing;
    var existing := Found(s, gvk, c, r.w).value;
    ListsVisible(s, gvk, c, r.w, k);
    LooksInto(s, gvk, c.objs.Keys, k);
    InDelete(s, gvk, c, existing, k);
    assert k in c.delete && !Gated(s, gvk) ==> Live(r'.w, gvk, k) == None;
    assert k in c.delete && Gated(s, gvk) ==> Live(r'.w, gvk, k) == Live(r.w, gvk, k);
    assert k !in c.delete ==> Find(r'.w.objects, Id(gvk.GK(), k)) == Find(r.w.objects, Id(gvk.GK(), k));
  }

  // -------- the second Apply --------

  /** Once a kind has converged, the next listing finds nothing to create and nothing to delete. */
  lemma NothingLeftToDo(s: Setup, gvk: GVK, c: Choice, w: World)
    requires Converged(s, gvk.GK(), c.objs.Keys, w.objects)
    requires ListsEverywhere(s, gvk) && UpToDate(s, gvk, w)
    requires Found(s, gvk, c, w).Some? && Lists(s, gvk, c, Found(s, gvk, c, w).value)
    ensures c.create == [] && c.delete == []
  {
    hide Listing, Ordered, UpToDate;
    var existing := Found(s, gvk, c, w).value;
    forall k ensures k !in c.create && k !in c.delete {
      ListsAll(s, gvk, c, w, k);
      InDelete(s, gvk, c, existing, k);
    }
    SomeElement(c.create);
    SomeElement(c.delete);
  }

  /** A second error-free run over the same desired keys computes empty create and delete lists for
      every kind it processes. */
  lemma SecondApplyIsQuiet(s: Setup, order: seq<GVK>, raws: map<GVK, Objs>, choices: seq<Choice>,
                           states: seq<Run>, i: nat)
    requires CleanRun(s, order, raws, choices, states) && i < |order|
    requires states[|order|].errs == states[0].errs
    requires AllPatchable(s, order, choices) && VersionsAgree(s, order, choices)
    requires forall gvk :: gvk in raws ==> AllStamped(s, raws[gvk])
    requires forall gvk :: gvk in order ==> !Gated(s, gvk) && ListsEverywhere(s, gvk)
    requires forall j :: 0 <= j < |order| ==> Converged(s, order[j].GK(), choices[j].objs.Keys, states[0].w.objects)
    ensures choices[i].create == [] && choices[i].delete == []
  {
    hide ProcessKind, Legal, Patchable, Converged, UpToDate, Listing;
    StillConverged(s, order, raws, choices, states, i, i);
    NoErrors(s, order, raws, choices, states, i);
    StoredAlong(s, order, raws, choices, states, i);
    NothingLeftToDo(s, order[i], choices[i], states[i].w);
  }

  lemma {:induction false} StillConverged(s: Setup, order: seq<GVK>, raws: map<GVK, Objs>, choices: seq<Choice>,
                                          states: seq<Run>, n: nat, i: nat)
    requires CleanRun(s, order, raws, choices, states) && i < |order| && n <= |order|
    requires states[|order|].errs == states[0].errs
    requires AllPatchable(s, order, choices) && VersionsAgree(s, order, choices)
    requires forall gvk :: gvk in raws ==> AllStamped(s, raws[gvk])
    requires Converged(s, order[i].GK(), choices[i].objs.Keys, states[0].w.objects)
    ensures Converged(s, order[i].GK(), choices[i].objs.Keys, states[n].w.objects)
  {
    hide ProcessKind, Legal, Patchable, Converged, KindEffect, UpToDate;
    if n > 0 {
      StillConverged(s, order, raws, choices, states, n - 1, i);
      NoErrors(s, order, raws, choices, states, n - 1);
      StoredAlong(s, order, raws, choices, states, n - 1);
      ChoiceStamped(s, order, raws, choices, states, n - 1);
      KindKeeps(s, order[n - 1], choices[n - 1], states[n - 1], states[n], order[i].GK(), choices[i].objs.Keys);
    }
  }
}
