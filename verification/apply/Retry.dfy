/** Replacement: a reconciler may demand that an object be deleted now and created by a later run. */
module Retry {
  import opened Common
  import opened Kube
  import opened Engine
  import opened EngineFacts
  import opened Isolation
  import opened Convergence

  /** The desired objects of a kind whose live object would have to be replaced. */
  ghost predicate Demanded(s: Setup, gvk: GVK, objs: Objs, objects: map<Id, Object>, k: Key) {
    && k in objs && Id(gvk.GK(), k) in objects
    && Decide(s, gvk, objects[Id(gvk.GK(), k)].As(gvk), objs[k]).Replaced?
  }

  // -------- what is asked of the wanted objects --------

  /** The object carries the applied copy of the wanted one. */
  predicate HasCopy(s: Setup, o: Object, want: Object) {
    LABEL_APPLIED in o.annotations && o.annotations[LABEL_APPLIED] == s.encode(want)
  }

  /** A patch that is sent brings the applied copy. */
  ghost predicate CopyArrives(s: Setup, gvk: GVK, want: Object) {
    forall live {:trigger Change(s, gvk, live, want)} ::
      match Change(s, gvk, live, want)
      case None => true
      case Some(patch) => patch != map[] ==> HasCopy(s, s.merge(live, patch), want)
  }

  /** The applied copy of the other object can be read, and the reconciler of the kind accepts the wanted
      object against it. */
  predicate AcceptsCopyOf(s: Setup, gvk: GVK, want: Object, other: Object) {
    gvk in s.reconcilers ==>
      var past := s.decode(s.encode(other));
      past.Was? && s.reconcilers[gvk](Prepare(s, gvk, past.copy), Prepare(s, gvk, want)) != Replace
  }

  predicate AcceptsOwnCopy(s: Setup, gvk: GVK, want: Object) {
    AcceptsCopyOf(s, gvk, want, want)
  }

  /** Where every change is a reason to replace, an object that has just been created needs none. */
  predicate CreatedAsWanted(s: Setup, gvk: GVK, want: Object) {
    gvk in s.replaceOnChange ==> Change(s, gvk, Prepare(s, gvk, want), want) == Some(map[])
  }

  ghost predicate Steady(s: Setup, gvk: GVK, objs: Objs) {
    forall k :: k in objs ==>
      CopyArrives(s, gvk, objs[k]) && AcceptsOwnCopy(s, gvk, objs[k]) && CreatedAsWanted(s, gvk, objs[k])
  }

  /** The same for all kinds of a run. */
  ghost predicate AllSteady(s: Setup, order: seq<GVK>, choices: seq<Choice>)
    requires |order| == |choices|
  {
    forall i :: 0 <= i < |order| ==> Steady(s, order[i], choices[i].objs)
  }

  // -------- meeting a demand --------

  /** A demand is met: the run reports it as an error and deletes the object by force, whatever the
      no-delete switches say; if no call got lost, the object is gone. */
  lemma DemandIsMet(s: Setup, gvk: GVK, c: Choice, existing: Objs, p: Progress, k: Key)
    requires Lists(s, gvk, c, existing) && Stored(p.w.objects) && Fresh(p.w.objects, gvk, existing)
    requires Demanded(s, gvk, c.objs, p.w.objects, k)
    requires k in existing || Smooth(s, p, Write(s, gvk, c, existing, p))
    ensures var q := Write(s, gvk, c, existing, p);
      && ReplaceWait(gvk, k) in q.errs
      && Called(p, q, DeleteCall(Id(gvk.GK(), k), true))
      && (Smooth(s, p, q) ==> Live(q.w, gvk, k) == None)
  {
    hide Decide, Smooth;
    var made := Made(s, gvk, c, existing, p);
    TakenOver(s, gvk, c, existing, p);
    CreateAllDoes(s, gvk, c.objs, c.create, Creating(p, existing, c.update));
    var u := UpdateAll(s, gvk, c.objs, made.existing, made.updates, made.p);
    UpdateAllDoes(s, gvk, c.objs, made.existing, made.updates, made.p);
    DeleteAllDoes(s, gvk, c.delete, u);
    DemandMetBy(s, gvk, c, existing, p, u, DeleteAll(s, gvk, c.delete, u), k);
  }

  lemma DemandMetBy(s: Setup, gvk: GVK, c: Choice, existing: Objs, p: Progress, u: Progress, q: Progress, k: Key)
    requires Lists(s, gvk, c, existing) && Stored(p.w.objects) && Fresh(p.w.objects, gvk, existing)
    requires Demanded(s, gvk, c.objs, p.w.objects, k)
    requires k in existing || Smooth(s, p, q)
    requires Grows(p, Made(s, gvk, c, existing, p).p)
    requires Updating(s, gvk, c.objs, Made(s, gvk, c, existing, p).existing, Made(s, gvk, c, existing, p).updates,
                      Made(s, gvk, c, existing, p).p, u)
    requires Deleting(s, gvk, c.delete, u, q)
    ensures ReplaceWait(gvk, k) in q.errs
    ensures Called(p, q, DeleteCall(Id(gvk.GK(), k), true))
    ensures Smooth(s, p, q) ==> Live(q.w, gvk, k) == None
  {
    hide Decide, Smooth, Made;
    var made := Made(s, gvk, c, existing, p);
    if Smooth(s, p, q) {
      SmoothParts(s, p, u, q);
      SmoothParts(s, p, made.p, u);
    }
    DemandIsUpdated(s, gvk, c, existing, p, k);
    TakenOver(s, gvk, c, existing, p);
    assert UpdatedAt(s, gvk, made.existing[k], c.objs[k], k, made.p, u);
    Later(p, made.p, u, q, DeleteCall(Id(gvk.GK(), k), true));
    assert k !in c.delete by { assert k in c.delete ==> k in Elements(c.delete); }
  }

  lemma DemandIsUpdated(s: Setup, gvk: GVK, c: Choice, existing: Objs, p: Progress, k: Key)
    requires Lists(s, gvk, c, existing) && Stored(p.w.objects) && Fresh(p.w.objects, gvk, existing)
    requires k in c.objs && Live(p.w, gvk, k).Some?
    requires k in existing || Smooth(s, p, Made(s, gvk, c, existing, p).p)
    ensures k in Made(s, gvk, c, existing, p).updates
    ensures Live(Made(s, gvk, c, existing, p).p.w, gvk, k) == Live(p.w, gvk, k)
  {
    hide Lists, Fresh, Stored, CreateAll, Prepare, Distinct, Smooth;
    var made := Made(s, gvk, c, existing, p);
    var c0 := Creating(p, existing, c.update);
    CreateListed(s, gvk, c, existing);
    CreateAllDoes(s, gvk, c.objs, c.create, c0);
    TakenOver(s, gvk, c, existing, p);
    Unwanted(s, gvk, c, existing, k);
    if k !in existing {
      assert CreatedAt(s, gvk, c.objs[k], k, c0, made);
      assert made.updates == c.update + made.updates[|c.update|..];
    }
  }

  lemma CreateListed(s: Setup, gvk: GVK, c: Choice, existing: Objs)
    requires Lists(s, gvk, c, existing)
    ensures Distinct(c.create) && forall k :: k in c.create ==> k in c.objs
  {
    DeletesDistinct(s, gvk, c, existing);
  }

  lemma Later(p: Progress, m: Progress, u: Progress, q: Progress, call: Call)
    requires Grows(p, m) && Grows(m, u) && Grows(u, q) && Called(m, u, call)
    ensures Called(p, q, call)
  {
    var i :| |m.w.calls| <= i < |u.w.calls| && u.w.calls[i] == call;
    assert q.w.calls[i] == call;
  }

  // -------- demands only ever disappear --------

  /** Whatever is created or patched for one object, under its version, is not to be replaced for another. */
  ghost predicate Tolerates(s: Setup, gvk: GVK, want: Object, writer: GVK, other: Object) {
    forall before, o: Object {:trigger MayBecome(s, writer, other, before, Some(o))} ::
      MayBecome(s, writer, other, before, Some(o)) && before != Some(o) ==> !Decide(s, gvk, o.As(gvk), want).Replaced?
  }

  /** Where two versions of a kind desire the same key, each puts up with what the other writes. */
  ghost predicate SharedKeysTolerated(s: Setup, order: seq<GVK>, choices: seq<Choice>)
    requires |order| == |choices|
  {
    forall i, j, k :: 0 <= i < |order| && 0 <= j < |order| && i != j && order[i].GK() == order[j].GK() &&
                      k in choices[i].objs && k in choices[j].objs ==>
      Tolerates(s, order[i], choices[i].objs[k], order[j], choices[j].objs[k])
  }

  /** Processing a kind, with whatever failures, creates no demand for replacement in that kind. */
  lemma NoNewDemands(s: Setup, gvk: GVK, c: Choice, r: Run, r': Run, k: Key)
    requires Steady(s, gvk, c.objs)
    requires KindEffect(s, gvk, c, r, r')
    requires Demanded(s, gvk, c.objs, r'.w.objects, k)
    ensures Demanded(s, gvk, c.objs, r.w.objects, k)
    ensures Find(r'.w.objects, Id(gvk.GK(), k)) == Find(r.w.objects, Id(gvk.GK(), k))
  {
    hide CopyArrives, AcceptsOwnCopy, CreatedAsWanted, KindEffect, Tolerates;
    DemandedIsDesired(s, gvk, c.objs, r'.w.objects, k);
    SteadyTolerates(s, gvk, c.objs[k]);
    DemandKept(s, gvk, c, r, r', gvk, c.objs, k);
  }

  /** Nor does it in another version, or another kind, that puts up with it. */
  lemma DemandKept(s: Setup, gvk: GVK, c: Choice, r: Run, r': Run, other: GVK, objs: Objs, k: Key)
    requires KindEffect(s, gvk, c, r, r') && Demanded(s, other, objs, r'.w.objects, k)
    requires gvk.GK() == other.GK() && k in c.objs && k in objs ==> Tolerates(s, other, objs[k], gvk, c.objs[k])
    ensures Demanded(s, other, objs, r.w.objects, k)
    ensures Find(r'.w.objects, Id(other.GK(), k)) == Find(r.w.objects, Id(other.GK(), k))
  {
    hide Decide, MayBecome, Becomes, Fresh, Lists;
    var id := Id(other.GK(), k);
    if gvk.GK() == other.GK() && k in c.objs {
      var before, after := Live(r.w, gvk, k), Live(r'.w, gvk, k);
      assert after == Some(after.value);
      assert before == after;
    } else {
      KeyKept(s, gvk, c, r, r', id);
    }
    assert Find(r'.w.objects, id) == Find(r.w.objects, id);
  }

  /** An object this run has written is one its reconciler accepts. */
  lemma SteadyTolerates(s: Setup, gvk: GVK, want: Object)
    requires CopyArrives(s, gvk, want) && AcceptsOwnCopy(s, gvk, want) && CreatedAsWanted(s, gvk, want)
    ensures Tolerates(s, gvk, want, gvk, want)
  {
    hide Decide, MayBecome, CopyArrives, AcceptsOwnCopy, CreatedAsWanted;
    forall before, o: Object {:trigger MayBecome(s, gvk, want, before, Some(o))}
      | MayBecome(s, gvk, want, before, Some(o)) && before != Some(o)
      ensures !Decide(s, gvk, o.As(gvk), want).Replaced?
    {
      FreshlyWritten(s, gvk, want, before, o);
    }
  }

  lemma FreshlyWritten(s: Setup, gvk: GVK, want: Object, before: Option<Object>, o: Object)
    requires CopyArrives(s, gvk, want) && AcceptsOwnCopy(s, gvk, want) && CreatedAsWanted(s, gvk, want)
    requires MayBecome(s, gvk, want, before, Some(o)) && before != Some(o)
    ensures !Decide(s, gvk, o.As(gvk), want).Replaced?
  {
    if before.None? {
      hide VerdictOn, Change, AcceptsCopyOf;
      assert o.As(gvk) == Prepare(s, gvk, want);
      if gvk !in s.replaceOnChange {
        HasCopyOf(s, gvk, o.As(gvk), want, want);
      }
    } else {
      PatchedInFull(s, gvk, want, before.value, o);
      HasCopyOf(s, gvk, o.As(gvk), want, want);
    }
  }

  lemma PatchedInFull(s: Setup, gvk: GVK, want: Object, before: Object, o: Object)
    requires CopyArrives(s, gvk, want) && MayTurnInto(s, gvk, want, before, Some(o)) && before != o
    ensures HasCopy(s, o, want) && gvk !in s.replaceOnChange
  {
    hide VerdictOn, Change, HasCopy;
    assert Decide(s, gvk, before.As(gvk), want).Send?;
    assert Change(s, gvk, before.As(gvk), want).Some?;
  }

  lemma HasCopyOf(s: Setup, gvk: GVK, live: Object, want: Object, other: Object)
    requires AcceptsCopyOf(s, gvk, want, other) && HasCopy(s, live, other) && gvk !in s.replaceOnChange
    ensures !Decide(s, gvk, live, want).Replaced?
  {
    hide Change;
    assert VerdictOn(s, gvk, live, want) != Replace;
  }

  /** Unless every change is a reason to replace, a version puts up with another whose copies its reconciler
      accepts. */
  lemma CopyTolerated(s: Setup, gvk: GVK, want: Object, writer: GVK, other: Object)
    requires CopyArrives(s, writer, other) && AcceptsCopyOf(s, gvk, want, other) && gvk !in s.replaceOnChange
    ensures Tolerates(s, gvk, want, writer, other)
  {
    hide Decide, CopyArrives, AcceptsCopyOf;
    forall before, o: Object {:trigger MayBecome(s, writer, other, before, Some(o))}
      | MayBecome(s, writer, other, before, Some(o)) && before != Some(o)
      ensures !Decide(s, gvk, o.As(gvk), want).Replaced?
    {
      if before.Some? {
        PatchedInFull(s, writer, other, before.value, o);
      }
      HasCopyOf(s, gvk, o.As(gvk), want, other);
    }
  }

  /** From one point of a run to another, whatever fails, the keys to replace can only become fewer: every
      key still to replace afterwards was one before, and its object has not been touched.  So each key
      whose object was deleted by force has left the set for good. */
  lemma {:induction false} DemandsFall(s: Setup, order: seq<GVK>, raws: map<GVK, Objs>, choices: seq<Choice>,
                                       states: seq<Run>, m: nat, n: nat, i: nat, k: Key)
    requires CleanRun(s, order, raws, choices, states) && m <= n <= |order| && i < |order|
    requires AllSteady(s, order, choices) && SharedKeysTolerated(s, order, choices)
    requires Demanded(s, order[i], choices[i].objs, states[n].w.objects, k)
    ensures Demanded(s, order[i], choices[i].objs, states[m].w.objects, k)
    ensures Find(states[n].w.objects, Id(order[i].GK(), k)) == Find(states[m].w.objects, Id(order[i].GK(), k))
    decreases n
  {
    hide ProcessKind, Legal, UpToDate, KindEffect, Demanded, Steady, Tolerates;
    if m < n {
      var j := n - 1;
      StoredAlong(s, order, raws, choices, states, j);
      if i == j {
        NoNewDemands(s, order[i], choices[i], states[j], states[n], k);
      } else {
        DemandKept(s, order[j], choices[j], states[j], states[n], order[i], choices[i].objs, k);
      }
      DemandsFall(s, order, raws, choices, states, m, j, i, k);
    }
  }

  /** The keys of a kind to be replaced. */
  ghost function Demands(s: Setup, gvk: GVK, objs: Objs, objects: map<Id, Object>): set<Key> {
    set k | k in objs && Demanded(s, gvk, objs, objects, k)
  }

  /** Progress: as soon as one object to be replaced has gone or changed, fewer are left to replace. */
  lemma DemandsStrictlyFall(s: Setup, order: seq<GVK>, raws: map<GVK, Objs>, choices: seq<Choice>,
                            states: seq<Run>, i: nat, k: Key)
    requires CleanRun(s, order, raws, choices, states) && i < |order|
    requires AllSteady(s, order, choices) && SharedKeysTolerated(s, order, choices)
    requires Demanded(s, order[i], choices[i].objs, states[0].w.objects, k)
    requires Find(states[|order|].w.objects, Id(order[i].GK(), k)) != Find(states[0].w.objects, Id(order[i].GK(), k))
    ensures var before := Demands(s, order[i], choices[i].objs, states[0].w.objects);
      var after := Demands(s, order[i], choices[i].objs, states[|order|].w.objects);
      after < before && |after| < |before|
  {
    hide Demanded, ProcessKind, Legal, UpToDate, AllSteady, SharedKeysTolerated;
    var before := Demands(s, order[i], choices[i].objs, states[0].w.objects);
    var after := Demands(s, order[i], choices[i].objs, states[|order|].w.objects);
    forall j | j in after ensures j in before && j != k {
      DemandsFall(s, order, raws, choices, states, 0, |order|, i, j);
    }
    assert k in before by { DemandedIsDesired(s, order[i], choices[i].objs, states[0].w.objects, k); }
    Fewer(after, before, k);
  }

  lemma DemandedIsDesired(s: Setup, gvk: GVK, objs: Objs, objects: map<Id, Object>, k: Key)
    requires Demanded(s, gvk, objs, objects, k)
    ensures k in objs
  {
    hide Decide;
  }

  lemma Fewer<T(!new)>(a: set<T>, b: set<T>, x: T)
    requires a <= b - {x} && x in b
    ensures a < b && |a| < |b|
  {
    var rest := b - {x} - a;
    assert b == a + rest + {x};
  }

  // -------- the run after --------

  /** A pass that got as far as its listing. */
  lemma Listed(s: Setup, gvk: GVK, raw: Objs, c: Choice, r: Run)
    requires Legal(s, gvk, raw, r.w, c)
    requires OnlyWaits(r.errs, ProcessKind(s, false, gvk, raw, c, r).errs)
    ensures Found(s, gvk, c, r.w).Some?
  {
    hide Write, Lists, Normalised, Listing;
    var r' := ProcessKind(s, false, gvk, raw, c, r);
    assert |r'.errs| > |r.errs| ==> r'.errs[|r.errs|].ReplaceWait?;
  }

  /** A pass in which no call got lost leaves the kind without demands. */
  lemma KindMeetsDemands(s: Setup, gvk: GVK, raw: Objs, c: Choice, r: Run, k: Key)
    requires Steady(s, gvk, c.objs)
    requires Stored(r.w.objects) && UpToDate(s, gvk, r.w) && WellKeyed(raw) && Legal(s, gvk, raw, r.w, c)
    requires var r' := ProcessKind(s, false, gvk, raw, c, r);
      OnlyWaits(r.errs, r'.errs) || (Found(s, gvk, c, r.w).Some? && ServedIn(s, r.w, r'.w))
    ensures !Demanded(s, gvk, c.objs, ProcessKind(s, false, gvk, raw, c, r).w.objects, k)
  {
    hide Steady, Write, Decide, Lists, Normalised, UpToDate, OnlyWaits;
    var r' := ProcessKind(s, false, gvk, raw, c, r);
    KindDoes(s, gvk, raw, c, r);
    if Demanded(s, gvk, c.objs, r'.w.objects, k) {
      NoNewDemands(s, gvk, c, r, r', k);
      if OnlyWaits(r.errs, r'.errs) {
        Listed(s, gvk, raw, c, r);
      }
      var w := Listing(s, gvk, c.objs.Keys, r.w).0;
      ListingIsFresh(s, gvk, c, r.w);
      DemandIsMet(s, gvk, c, Found(s, gvk, c, r.w).value, Progress(w, r.errs), k);
      assert false;
    }
  }

  /** No decision about a live object leads to an error other than its replacement: its patch can be
      computed, its reconciler does not fail, and it keeps its name. */
  ghost predicate Workable(s: Setup, gvk: GVK, objs: Objs, objects: map<Id, Object>) {
    forall k :: k in objs && Id(gvk.GK(), k) in objects ==>
      WorkableOne(s, gvk, objects[Id(gvk.GK(), k)].As(gvk), objs[k])
  }

  predicate WorkableOne(s: Setup, gvk: GVK, live: Object, want: Object) {
    match Decide(s, gvk, live, want)
    case Failed => false
    case Send(patch) => s.merge(live, patch).MetaKey() == live.MetaKey()
    case _ => true
  }

  ghost predicate NoDemands(s: Setup, gvk: GVK, objs: Objs, objects: map<Id, Object>) {
    forall k :: !Demanded(s, gvk, objs, objects, k)
  }

  /** The live object is the listed one, and deciding about it leads to no error. */
  ghost predicate Harmless(s: Setup, gvk: GVK, live: Object, want: Object, k: Key, objects: map<Id, Object>) {
    && live.MetaKey() == k
    && Id(gvk.GK(), k) in objects && objects[Id(gvk.GK(), k)].As(gvk) == live
    && WorkableOne(s, gvk, live, want) && !Decide(s, gvk, live, want).Replaced?
  }

  lemma {:induction false} QuietUpdates(s: Setup, gvk: GVK, objs: Objs, existing: Objs, keys: seq<Key>, p: Progress)
    requires Distinct(keys)
    requires forall k :: k in keys ==>
      k in objs && k in existing && Harmless(s, gvk, existing[k], objs[k], k, p.w.objects)
    requires ServedIn(s, p.w, UpdateAll(s, gvk, objs, existing, keys, p).w)
    ensures UpdateAll(s, gvk, objs, existing, keys, p).errs == p.errs
  {
    hide Decide;
    if keys != [] {
      var n := |keys| - 1;
      var m, k := UpdateAll(s, gvk, objs, existing, keys[..n], p), keys[n];
      UpdateAllDoes(s, gvk, objs, existing, keys[..n], p);
      UpdateOneDoes(s, gvk, existing[k], objs[k], k, m);
      QuietUpdates(s, gvk, objs, existing, keys[..n], p);
      assert k !in keys[..n];
      assert Find(m.w.objects, Id(gvk.GK(), k)) == Find(p.w.objects, Id(gvk.GK(), k));
      QuietUpdate(s, gvk, existing[k], objs[k], k, m);
    }
  }

  lemma QuietUpdate(s: Setup, gvk: GVK, live: Object, want: Object, k: Key, p: Progress)
    requires Harmless(s, gvk, live, want, k, p.w.objects) && ServedIn(s, p.w, UpdateOne(s, gvk, live, want, k, p).w)
    ensures UpdateOne(s, gvk, live, want, k, p).errs == p.errs
  {
    hide Decide;
  }

  lemma {:induction false} QuietDeletes(s: Setup, gvk: GVK, keys: seq<Key>, p: Progress)
    requires Distinct(keys)
    requires forall k :: k in keys ==> Id(gvk.GK(), k) in p.w.objects
    requires ServedIn(s, p.w, DeleteAll(s, gvk, keys, p).w)
    ensures DeleteAll(s, gvk, keys, p).errs == p.errs
  {
    if keys != [] {
      var n := |keys| - 1;
      var m, k := DeleteAll(s, gvk, keys[..n], p), keys[n];
      DeleteAllDoes(s, gvk, keys[..n], p);
      DeleteOneDoes(s, gvk, k, m);
      QuietDeletes(s, gvk, keys[..n], p);
      assert k !in keys[..n];
      assert Find(m.w.objects, Id(gvk.GK(), k)) == Find(p.w.objects, Id(gvk.GK(), k));
    }
  }

  lemma QuietWrite(s: Setup, gvk: GVK, c: Choice, existing: Objs, p: Progress)
    requires Lists(s, gvk, c, existing) && ServedIn(s, p.w, Write(s, gvk, c, existing, p).w)
    requires Stored(p.w.objects) && Fresh(p.w.objects, gvk, existing)
    requires NoDemands(s, gvk, c.objs, p.w.objects) && Workable(s, gvk, c.objs, p.w.objects)
    ensures Write(s, gvk, c, existing, p).errs == p.errs
  {
    hide Decide, Lists, NoDemands, Workable, ServedIn, CreatedAt, UpdatedAt;
    DeletesDistinct(s, gvk, c, existing);
    var made := Made(s, gvk, c, existing, p);
    CreateAllDoes(s, gvk, c.objs, c.create, Creating(p, existing, c.update));
    TakenOver(s, gvk, c, existing, p);
    forall k | k in made.updates ensures Harmless(s, gvk, made.existing[k], c.objs[k], k, made.p.w.objects) {
      HarmlessUpdate(s, gvk, c, existing, p, k);
    }
    var u := UpdateAll(s, gvk, c.objs, made.existing, made.updates, made.p);
    UpdateAllDoes(s, gvk, c.objs, made.existing, made.updates, made.p);
    DeleteAllDoes(s, gvk, c.delete, u);
    ServedParts(s, p, made.p, u, DeleteAll(s, gvk, c.delete, u));
    QuietUpdates(s, gvk, c.objs, made.existing, made.updates, made.p);
    forall k | k in c.delete ensures Id(gvk.GK(), k) in u.w.objects {
      DeletesListed(s, gvk, c, existing, k);
      UndesiredId(s, gvk, c, existing, p, u, Id(gvk.GK(), k));
    }
    QuietDeletes(s, gvk, c.delete, u);
  }

  lemma ServedParts(s: Setup, p: Progress, m: Progress, u: Progress, q: Progress)
    requires Grows(p, m) && Grows(m, u) && Grows(u, q) && ServedIn(s, p.w, q.w)
    ensures ServedIn(s, p.w, m.w) && ServedIn(s, m.w, u.w) && ServedIn(s, u.w, q.w) && Smooth(s, p, m)
  {
  }

  lemma DeletesListed(s: Setup, gvk: GVK, c: Choice, existing: Objs, k: Key)
    requires Lists(s, gvk, c, existing) && k in c.delete
    ensures k in existing && k !in c.objs
  {
    assert k in Elements(c.delete);
  }

  lemma DeletesDistinct(s: Setup, gvk: GVK, c: Choice, existing: Objs)
    requires Lists(s, gvk, c, existing)
    ensures Distinct(c.delete) && Distinct(c.create)
    ensures forall k :: k in c.create ==> k in c.objs
  {
    assert forall k :: k in c.create ==> k in Elements(c.create);
  }

  lemma HarmlessUpdate(s: Setup, gvk: GVK, c: Choice, existing: Objs, p: Progress, k: Key)
    requires Lists(s, gvk, c, existing)
    requires Stored(p.w.objects) && Fresh(p.w.objects, gvk, existing)
    requires NoDemands(s, gvk, c.objs, p.w.objects) && Workable(s, gvk, c.objs, p.w.objects)
    requires k in Made(s, gvk, c, existing, p).updates
    ensures var made := Made(s, gvk, c, existing, p);
      Harmless(s, gvk, made.existing[k], c.objs[k], k, made.p.w.objects)
  {
    hide Decide, Smooth, Change;
    var made := Made(s, gvk, c, existing, p);
    var c0 := Creating(p, existing, c.update);
    TakenOver(s, gvk, c, existing, p);
    CreateAllDoes(s, gvk, c.objs, c.create, c0);
    assert Live(made.p.w, gvk, k) == Live(p.w, gvk, k) by {
      if k in c.update {
        assert k in Elements(c.update) && k !in Elements(c.create);
      } else {
        assert k in c.create && CreatedAt(s, gvk, c.objs[k], k, c0, made);
      }
    }
    assert !Demanded(s, gvk, c.objs, p.w.objects, k);
  }

  /** A kind that could be listed, without demands and without trouble, is processed without an error. */
  lemma QuietKind(s: Setup, gvk: GVK, raw: Objs, c: Choice, r: Run)
    requires Found(s, gvk, c, r.w).Some? && Legal(s, gvk, raw, r.w, c)
    requires Stored(r.w.objects) && UpToDate(s, gvk, r.w)
    requires ServedIn(s, r.w, ProcessKind(s, false, gvk, raw, c, r).w)
    requires NoDemands(s, gvk, c.objs, r.w.objects) && Workable(s, gvk, c.objs, r.w.objects)
    ensures ProcessKind(s, false, gvk, raw, c, r).errs == r.errs
  {
    hide Lists, Normalised, Write, UpToDate, NoDemands, Workable;
    var existing := Found(s, gvk, c, r.w);
    ListingIsFresh(s, gvk, c, r.w);
    QuietWrite(s, gvk, c, existing.value, Progress(Listing(s, gvk, c.objs.Keys, r.w).0, r.errs));
  }

  /** A kind that could be listed once can be listed again. */
  lemma ListedAgain(s: Setup, gvk: GVK, raw: Objs, c: Choice, w: World, c': Choice, r: Run)
    requires Found(s, gvk, c, w).Some? && c'.objs == c.objs
    requires Legal(s, gvk, raw, r.w, c')
    requires ServedIn(s, r.w, ProcessKind(s, false, gvk, raw, c', r).w)
    ensures Found(s, gvk, c', r.w).Some?
  {
    hide Lists, Normalised, Write, View;
    assert Found(s, gvk, c', r.w).None? ==> |Listing(s, gvk, c'.objs.Keys, r.w).0.calls| == |r.w.calls| + 1;
  }

  // -------- two runs --------

  lemma StepErrors(s: Setup, order: seq<GVK>, raws: map<GVK, Objs>, choices: seq<Choice>, states: seq<Run>, i: nat)
    requires CleanRun(s, order, raws, choices, states) && i < |order|
    requires OnlyWaits(states[0].errs, states[|order|].errs)
    ensures OnlyWaits(states[i].errs, states[i + 1].errs) && Found(s, order[i], choices[i], states[i].w).Some?
  {
    hide ProcessKind, Legal, UpToDate, Found, KindEffect, Stored;
    ErrorsGrow(s, order, raws, choices, states, 0, i);
    ErrorsGrow(s, order, raws, choices, states, i, i + 1);
    ErrorsGrow(s, order, raws, choices, states, i + 1, |order|);
    WaitsInside(states[0].errs, states[i].errs, states[i + 1].errs, states[|order|].errs);
    Listed(s, order[i], Raw(raws, order[i]), choices[i], states[i]);
  }

  /** Whatever is created or patched for one object, under its version, is neither to be replaced for another
      nor leads to an error. */
  ghost predicate CopesWith(s: Setup, gvk: GVK, want: Object, writer: GVK, other: Object) {
    forall before, o: Object {:trigger MayBecome(s, writer, other, before, Some(o))} ::
      MayBecome(s, writer, other, before, Some(o)) && before != Some(o) ==> Fine(s, gvk, o.As(gvk), want)
  }

  predicate Fine(s: Setup, gvk: GVK, live: Object, want: Object) {
    WorkableOne(s, gvk, live, want) && !Decide(s, gvk, live, want).Replaced?
  }

  /** Where two versions of a kind desire the same key, each copes with what the other writes. */
  ghost predicate SharedKeysCopedWith(s: Setup, order: seq<GVK>, choices: seq<Choice>)
    requires |order| == |choices|
  {
    forall i, j, k :: 0 <= i < |order| && 0 <= j < |order| && i != j && order[i].GK() == order[j].GK() &&
                      k in choices[i].objs && k in choices[j].objs ==>
      CopesWith(s, order[i], choices[i].objs[k], order[j], choices[j].objs[k])
  }

  lemma CopingTolerates(s: Setup, order: seq<GVK>, choices: seq<Choice>)
    requires |order| == |choices| && SharedKeysCopedWith(s, order, choices)
    ensures SharedKeysTolerated(s, order, choices)
  {
    hide MayBecome, WorkableOne, Decide;
  }

  /** In particular where no key is desired under two versions. */
  ghost predicate KeysApart(order: seq<GVK>, choices: seq<Choice>)
    requires |order| == |choices|
  {
    forall i, j, k :: 0 <= i < |order| && 0 <= j < |order| && i != j && order[i].GK() == order[j].GK() ==>
      k !in choices[i].objs || k !in choices[j].objs
  }

  lemma ApartIsCopedWith(s: Setup, order: seq<GVK>, choices: seq<Choice>)
    requires |order| == |choices| && KeysApart(order, choices)
    ensures SharedKeysCopedWith(s, order, choices)
  {
  }

  ghost predicate FineIn(s: Setup, gvk: GVK, objs: Objs, objects: map<Id, Object>, k: Key)
    requires k in objs
  {
    Id(gvk.GK(), k) in objects ==> Fine(s, gvk, objects[Id(gvk.GK(), k)].As(gvk), objs[k])
  }

  lemma FineKept(s: Setup, gvk: GVK, c: Choice, r: Run, r': Run, other: GVK, objs: Objs, k: Key)
    requires KindEffect(s, gvk, c, r, r') && k in objs && FineIn(s, other, objs, r.w.objects, k)
    requires gvk.GK() == other.GK() && k in c.objs ==> CopesWith(s, other, objs[k], gvk, c.objs[k])
    ensures FineIn(s, other, objs, r'.w.objects, k)
  {
    hide Fine, MayBecome, Becomes, Fresh, Lists;
    var id := Id(other.GK(), k);
    if gvk.GK() == other.GK() && k in c.objs {
      var before, after := Live(r.w, gvk, k), Live(r'.w, gvk, k);
      if before != after && after.Some? {
        assert MayBecome(s, gvk, c.objs[k], before, Some(after.value));
      }
    } else {
      KeyKept(s, gvk, c, r, r', id);
      assert id in r'.w.objects ==> Find(r'.w.objects, id) == Find(r.w.objects, id);
    }
  }

  /** What other kinds and versions do to a live object leads to no error about it. */
  lemma {:induction false} StaysFine(s: Setup, order: seq<GVK>, raws: map<GVK, Objs>, choices: seq<Choice>,
                                     states: seq<Run>, i: nat, m: nat, n: nat, k: Key)
    requires CleanRun(s, order, raws, choices, states) && SharedKeysCopedWith(s, order, choices) && i < |order|
    requires m <= n <= |order| && !(m <= i < n) && k in choices[i].objs
    requires FineIn(s, order[i], choices[i].objs, states[m].w.objects, k)
    ensures FineIn(s, order[i], choices[i].objs, states[n].w.objects, k)
    decreases n
  {
    hide ProcessKind, Legal, UpToDate, KindEffect, FineIn, CopesWith;
    if m < n {
      StaysFine(s, order, raws, choices, states, i, m, n - 1, k);
      StoredAlong(s, order, raws, choices, states, n - 1);
      FineKept(s, order[n - 1], choices[n - 1], states[n - 1], states[n], order[i], choices[i].objs, k);
    }
  }

  /** No other version desires the key. */
  ghost predicate DesiredOnce(order: seq<GVK>, choices: seq<Choice>, i: nat, k: Key)
    requires |order| == |choices| && i < |order|
  {
    forall j :: 0 <= j < |order| && j != i && order[j].GK() == order[i].GK() ==> k !in choices[j].objs
  }

  /** What is stored under a key that is desired once does not change while other kinds and versions are
      processed, if these agree. */
  lemma {:induction false} KeyAlone(s: Setup, order: seq<GVK>, raws: map<GVK, Objs>, choices: seq<Choice>,
                                    states: seq<Run>, i: nat, m: nat, n: nat, k: Key)
    requires CleanRun(s, order, raws, choices, states) && VersionsAgree(s, order, choices) && i < |order|
    requires k in choices[i].objs && DesiredOnce(order, choices, i, k)
    requires m <= n <= |order| && !(m <= i < n)
    ensures Find(states[n].w.objects, Id(order[i].GK(), k)) == Find(states[m].w.objects, Id(order[i].GK(), k))
    decreases n
  {
    hide ProcessKind, Legal, UpToDate, KindEffect, Protected;
    if m < n {
      KeyAlone(s, order, raws, choices, states, i, m, n - 1, k);
      StoredAlong(s, order, raws, choices, states, n - 1);
      KeyKept(s, order[n - 1], choices[n - 1], states[n - 1], states[n], Id(order[i].GK(), k));
      OtherKindKeeps(s, order[n - 1], choices[n - 1], states[n - 1], states[n], Id(order[i].GK(), k));
    }
  }

  lemma SameDemand(s: Setup, gvk: GVK, objs: Objs, a: map<Id, Object>, b: map<Id, Object>, k: Key)
    requires Find(a, Id(gvk.GK(), k)) == Find(b, Id(gvk.GK(), k))
    ensures Demanded(s, gvk, objs, a, k) <==> Demanded(s, gvk, objs, b, k)
  {
    hide Decide;
  }

  /** After a run whose only trouble was replacement, nothing is to be replaced any more. */
  lemma DemandsMet(s: Setup, order: seq<GVK>, raws: map<GVK, Objs>, choices: seq<Choice>, states: seq<Run>, i: nat,
                   k: Key)
    requires CleanRun(s, order, raws, choices, states) && i < |order|
    requires AllSteady(s, order, choices) && SharedKeysTolerated(s, order, choices)
    requires OnlyWaits(states[0].errs, states[|order|].errs)
    ensures !Demanded(s, order[i], choices[i].objs, states[|order|].w.objects, k)
  {
    hide ProcessKind, Legal, UpToDate, KindEffect, Demanded, Steady, OnlyWaits, Found, Tolerates;
    StoredAlong(s, order, raws, choices, states, i);
    StepErrors(s, order, raws, choices, states, i);
    KindMeetsDemands(s, order[i], Raw(raws, order[i]), choices[i], states[i], k);
    if Demanded(s, order[i], choices[i].objs, states[|order|].w.objects, k) {
      DemandsFall(s, order, raws, choices, states, i + 1, |order|, i, k);
    }
  }

  /** And what was, is gone. */
  lemma DemandedOnceIsGone(s: Setup, order: seq<GVK>, raws: map<GVK, Objs>, choices: seq<Choice>, states: seq<Run>,
                           i: nat, k: Key)
    requires CleanRun(s, order, raws, choices, states) && VersionsAgree(s, order, choices) && i < |order|
    requires OnlyWaits(states[0].errs, states[|order|].errs)
    requires Demanded(s, order[i], choices[i].objs, states[0].w.objects, k)
    requires k in choices[i].objs && DesiredOnce(order, choices, i, k)
    ensures Id(order[i].GK(), k) !in states[|order|].w.objects
  {
    hide ProcessKind, Legal, UpToDate, KindEffect, Demanded, OnlyWaits, Found, DesiredOnce, VersionsAgree;
    StoredAlong(s, order, raws, choices, states, i);
    StepErrors(s, order, raws, choices, states, i);
    KeyAlone(s, order, raws, choices, states, i, 0, i, k);
    KeyAlone(s, order, raws, choices, states, i, i + 1, |order|, k);
    SameDemand(s, order[i], choices[i].objs, states[0].w.objects, states[i].w.objects, k);
    DemandedIsGone(s, order[i], Raw(raws, order[i]), choices[i], states[i], k);
  }

  lemma DemandedIsGone(s: Setup, gvk: GVK, raw: Objs, c: Choice, r: Run, k: Key)
    requires Stored(r.w.objects) && UpToDate(s, gvk, r.w) && Legal(s, gvk, raw, r.w, c)
    requires OnlyWaits(r.errs, ProcessKind(s, false, gvk, raw, c, r).errs)
    requires Demanded(s, gvk, c.objs, r.w.objects, k)
    ensures Id(gvk.GK(), k) !in ProcessKind(s, false, gvk, raw, c, r).w.objects
  {
    hide Write, Decide, Lists, Normalised, UpToDate, OnlyWaits;
    Listed(s, gvk, raw, c, r);
    ListingIsFresh(s, gvk, c, r.w);
    DemandIsMet(s, gvk, c, Found(s, gvk, c, r.w).value, Progress(Listing(s, gvk, c.objs.Keys, r.w).0, r.errs), k);
  }

  /** Nothing is left to change in an object that was created as wanted, or that a patch was merged into. */
  ghost predicate Settles(s: Setup, gvk: GVK, want: Object) {
    && Change(s, gvk, Prepare(s, gvk, want), want) == Some(map[])
    && forall live {:trigger Change(s, gvk, live, want)} ::
        match Change(s, gvk, live, want)
        case None => true
        case Some(patch) => patch != map[] ==> Change(s, gvk, s.merge(live, patch).As(gvk), want) == Some(map[])
  }

  /** What the next run needs of the live objects follows where nothing is left to change. */
  lemma SettledIsWorkable(s: Setup, order: seq<GVK>, raws: map<GVK, Objs>, choices: seq<Choice>, states: seq<Run>,
                          i: nat)
    requires CleanRun(s, order, raws, choices, states) && i < |order|
    requires AllSteady(s, order, choices) && SharedKeysCopedWith(s, order, choices)
    requires OnlyWaits(states[0].errs, states[|order|].errs)
    requires forall k :: k in choices[i].objs ==> Settles(s, order[i], choices[i].objs[k])
    ensures Workable(s, order[i], choices[i].objs, states[|order|].w.objects)
  {
    hide ProcessKind, Legal, UpToDate, KindEffect, Steady, OnlyWaits, Settles, Fine, Found, Stored, CopesWith;
    var gvk, c, n := order[i], choices[i], |order|;
    StoredAlong(s, order, raws, choices, states, i);
    StepErrors(s, order, raws, choices, states, i);
    forall k | k in c.objs && Id(gvk.GK(), k) in states[n].w.objects
      ensures WorkableOne(s, gvk, states[n].w.objects[Id(gvk.GK(), k)].As(gvk), c.objs[k])
    {
      LeftFine(s, gvk, Raw(raws, gvk), c, states[i], k);
      StaysFine(s, order, raws, choices, states, i, i + 1, n, k);
      FineIsWorkable(s, gvk, states[n].w.objects[Id(gvk.GK(), k)].As(gvk), c.objs[k]);
    }
  }

  lemma FineIsWorkable(s: Setup, gvk: GVK, live: Object, want: Object)
    requires Fine(s, gvk, live, want)
    ensures WorkableOne(s, gvk, live, want)
  {
  }

  lemma LeftFine(s: Setup, gvk: GVK, raw: Objs, c: Choice, r: Run, k: Key)
    requires Stored(r.w.objects) && UpToDate(s, gvk, r.w) && WellKeyed(raw) && Legal(s, gvk, raw, r.w, c)
    requires Steady(s, gvk, c.objs) && k in c.objs && Settles(s, gvk, c.objs[k])
    requires OnlyWaits(r.errs, ProcessKind(s, false, gvk, raw, c, r).errs)
    ensures FineIn(s, gvk, c.objs, ProcessKind(s, false, gvk, raw, c, r).w.objects, k)
  {
    hide ProcessKind, Legal, UpToDate, KindEffect, Steady, OnlyWaits, Settles, WorkableOne, Found, Stored, Decide;
    var r' := ProcessKind(s, false, gvk, raw, c, r);
    KindDoes(s, gvk, raw, c, r);
    Listed(s, gvk, raw, c, r);
    KindMeetsDemands(s, gvk, raw, c, r, k);
    if Id(gvk.GK(), k) in r'.w.objects {
      if Demanded(s, gvk, c.objs, r.w.objects, k) {
        DemandedIsGone(s, gvk, raw, c, r, k);
      } else {
        LeftWorkable(s, gvk, c, r, r', k);
      }
    }
  }

  lemma LeftWorkable(s: Setup, gvk: GVK, c: Choice, r: Run, r': Run, k: Key)
    requires KindEffect(s, gvk, c, r, r') && OnlyWaits(r.errs, r'.errs) && Found(s, gvk, c, r.w).Some?
    requires k in c.objs && Settles(s, gvk, c.objs[k]) && !Demanded(s, gvk, c.objs, r.w.objects, k)
    requires Id(gvk.GK(), k) in r'.w.objects
    ensures WorkableOne(s, gvk, r'.w.objects[Id(gvk.GK(), k)].As(gvk), c.objs[k])
  {
    hide MayBecome, Fresh, Lists, OnlyWaits, Prepare, VerdictOn, Change;
    var want, before, after := c.objs[k], Live(r.w, gvk, k), Live(r'.w, gvk, k);
    assert Becomes(s, gvk, want, before, after);
    if before.Some? {
      var live := before.value.As(gvk);
      assert Change(s, gvk, live, want) == Change(s, gvk, live, want);
    } else {
      assert after.value.As(gvk) == Prepare(s, gvk, want) by { PreparedKind(s, gvk, want); }
    }
  }

  lemma PreparedKind(s: Setup, gvk: GVK, want: Object)
    ensures Prepare(s, gvk, want).As(gvk) == Prepare(s, gvk, want)
  {
  }

  /** The second of two runs over the same objects. */
  ghost predicate Again(s: Setup, order: seq<GVK>, raws: map<GVK, Objs>, choices: seq<Choice>, states: seq<Run>,
                        choices': seq<Choice>, states': seq<Run>)
  {
    && CleanRun(s, order, raws, choices, states) && CleanRun(s, order, raws, choices', states')
    && states'[0].w.objects == states[|order|].w.objects
    && forall i :: 0 <= i < |order| ==> choices'[i].objs == choices[i].objs
  }

  lemma {:induction false} SecondIsQuiet(s: Setup, order: seq<GVK>, raws: map<GVK, Objs>, choices: seq<Choice>,
                                         states: seq<Run>, choices': seq<Choice>, states': seq<Run>, n: nat)
    requires Again(s, order, raws, choices, states, choices', states')
    requires AllSteady(s, order, choices) && SharedKeysCopedWith(s, order, choices)
    requires OnlyWaits(states[0].errs, states[|order|].errs)
    requires ServedIn(s, states'[0].w, states'[|order|].w)
    requires forall i :: 0 <= i < |order| ==> Workable(s, order[i], choices[i].objs, states'[0].w.objects)
    requires n <= |order|
    ensures states'[n].errs == states'[0].errs
  {
    hide ProcessKind, UpToDate, KindEffect, Legal, Demanded, Steady, NoDemands, Workable, OnlyWaits, Found, CopesWith;
    if n > 0 {
      var i := n - 1;
      SecondIsQuiet(s, order, raws, choices, states, choices', states', i);
      StepErrors(s, order, raws, choices, states, i);
      StoredAlong(s, order, raws, choices', states', i);
      CallsGrow(s, order, raws, choices', states', 0, i);
      CallsGrow(s, order, raws, choices', states', n, |order|);
      ListedAgain(s, order[i], Raw(raws, order[i]), choices[i], states[i].w, choices'[i], states'[i]);
      QuietBefore(s, order, raws, choices, states, choices', states', i);
      QuietKind(s, order[i], Raw(raws, order[i]), choices'[i], states'[i]);
    }
  }

  lemma QuietBefore(s: Setup, order: seq<GVK>, raws: map<GVK, Objs>, choices: seq<Choice>,
                    states: seq<Run>, choices': seq<Choice>, states': seq<Run>, i: nat)
    requires Again(s, order, raws, choices, states, choices', states') && i < |order|
    requires AllSteady(s, order, choices) && SharedKeysCopedWith(s, order, choices)
    requires OnlyWaits(states[0].errs, states[|order|].errs)
    requires Workable(s, order[i], choices[i].objs, states'[0].w.objects)
    ensures NoDemands(s, order[i], choices[i].objs, states'[i].w.objects)
    ensures Workable(s, order[i], choices[i].objs, states'[i].w.objects)
  {
    hide ProcessKind, UpToDate, KindEffect, Legal, Steady, OnlyWaits, WorkableOne, Decide, CopesWith;
    CopingTolerates(s, order, choices);
    forall k | k in choices[i].objs ensures FineIn(s, order[i], choices[i].objs, states'[i].w.objects, k) {
      DemandsMet(s, order, raws, choices, states, i, k);
      StaysFine(s, order, raws, choices', states', i, 0, i, k);
    }
  }

  lemma {:induction false} CallsGrow(s: Setup, order: seq<GVK>, raws: map<GVK, Objs>, choices: seq<Choice>,
                                     states: seq<Run>, i: nat, n: nat)
    requires CleanRun(s, order, raws, choices, states) && i <= n <= |order|
    ensures states[i].w.calls <= states[n].w.calls
    decreases n
  {
    hide ProcessKind, Legal, UpToDate, Found;
    if i < n {
      CallsGrow(s, order, raws, choices, states, i, n - 1);
      StoredAlong(s, order, raws, choices, states, n - 1);
    }
  }

  /** Retry: after a run whose only trouble was replacement, one more run over the same objects whose calls
      are served reports no error.  If the versions agree it leaves every wanted object live, and has
      created every one that was to be replaced and is desired under no other version. */
  lemma RetrySucceeds(s: Setup, order: seq<GVK>, raws: map<GVK, Objs>, choices: seq<Choice>, states: seq<Run>,
                      choices': seq<Choice>, states': seq<Run>)
    requires Again(s, order, raws, choices, states, choices', states')
    requires AllSteady(s, order, choices) && SharedKeysCopedWith(s, order, choices)
    requires OnlyWaits(states[0].errs, states[|order|].errs)
    requires ServedIn(s, states'[0].w, states'[|order|].w)
    requires forall i :: 0 <= i < |order| ==> Workable(s, order[i], choices[i].objs, states'[0].w.objects)
    ensures states'[|order|].errs == states'[0].errs
    ensures VersionsAgree(s, order, choices) ==>
      forall i, k :: 0 <= i < |order| && k in choices[i].objs ==> Id(order[i].GK(), k) in states'[|order|].w.objects
    ensures VersionsAgree(s, order, choices) ==>
      forall i, k :: 0 <= i < |order| && Demanded(s, order[i], choices[i].objs, states[0].w.objects, k) &&
                     DesiredOnce(order, choices, i, k) ==>
        Find(states'[|order|].w.objects, Id(order[i].GK(), k)) == Some(Prepare(s, order[i], choices[i].objs[k]))
  {
    hide ProcessKind, UpToDate, KindEffect, Legal, Demanded, Steady, Workable, OnlyWaits, ServedIn, Prepare, Stored,
         CopesWith, VersionsAgree, DesiredOnce;
    var n := |order|;
    SecondIsQuiet(s, order, raws, choices, states, choices', states', n);
    if VersionsAgree(s, order, choices) {
      SameAgreement(s, order, choices, choices');
      forall i, k | 0 <= i < n && k in choices[i].objs ensures Id(order[i].GK(), k) in states'[n].w.objects {
        StaysLive(s, order, raws, choices', states', i, k, n);
      }
      forall i, k | 0 <= i < n && Demanded(s, order[i], choices[i].objs, states[0].w.objects, k) &&
                    DesiredOnce(order, choices, i, k)
        ensures k in choices[i].objs
        ensures Find(states'[n].w.objects, Id(order[i].GK(), k)) == Some(Prepare(s, order[i], choices[i].objs[k]))
      {
        DemandedIsDesired(s, order[i], choices[i].objs, states[0].w.objects, k);
        DemandedOnceIsGone(s, order, raws, choices, states, i, k);
        CreatedOnce(s, order, raws, choices', states', i, k);
      }
    }
  }

  lemma SameAgreement(s: Setup, order: seq<GVK>, a: seq<Choice>, b: seq<Choice>)
    requires |a| == |b| == |order| && forall i :: 0 <= i < |order| ==> b[i].objs == a[i].objs
    ensures VersionsAgree(s, order, a) <==> VersionsAgree(s, order, b)
    ensures forall i, k :: 0 <= i < |order| ==> (DesiredOnce(order, a, i, k) <==> DesiredOnce(order, b, i, k))
  {
    hide Protected;
  }

  /** A run without errors leaves every wanted object live, if the versions agree. */
  lemma {:induction false} StaysLive(s: Setup, order: seq<GVK>, raws: map<GVK, Objs>, choices: seq<Choice>,
                                     states: seq<Run>, i: nat, k: Key, n: nat)
    requires CleanRun(s, order, raws, choices, states) && states[|order|].errs == states[0].errs
    requires VersionsAgree(s, order, choices) && i < n <= |order| && k in choices[i].objs
    ensures Id(order[i].GK(), k) in states[n].w.objects
    decreases n
  {
    hide ProcessKind, Legal, UpToDate, KindEffect, Protected;
    var j, id := n - 1, Id(order[i].GK(), k);
    StoredAlong(s, order, raws, choices, states, j);
    NoErrors(s, order, raws, choices, states, j);
    if i < j {
      StaysLive(s, order, raws, choices, states, i, k, j);
    }
    if order[j].GK() == id.gk && k in choices[j].objs {
      WantedIsLive(s, order[j], choices[j], states[j], states[n], k);
    } else {
      KeyKept(s, order[j], choices[j], states[j], states[n], id);
      OtherKindKeeps(s, order[j], choices[j], states[j], states[n], id);
    }
  }

  /** And has created what was not there and is desired once. */
  lemma CreatedOnce(s: Setup, order: seq<GVK>, raws: map<GVK, Objs>, choices: seq<Choice>, states: seq<Run>, i: nat,
                    k: Key)
    requires CleanRun(s, order, raws, choices, states) && states[|order|].errs == states[0].errs && i < |order|
    requires VersionsAgree(s, order, choices) && k in choices[i].objs && DesiredOnce(order, choices, i, k)
    requires Id(order[i].GK(), k) !in states[0].w.objects
    ensures Find(states[|order|].w.objects, Id(order[i].GK(), k)) == Some(Prepare(s, order[i], choices[i].objs[k]))
  {
    hide ProcessKind, Legal, UpToDate, KindEffect, Prepare, DesiredOnce, VersionsAgree;
    StoredAlong(s, order, raws, choices, states, i);
    NoErrors(s, order, raws, choices, states, i);
    KeyAlone(s, order, raws, choices, states, i, 0, i, k);
    KeyAlone(s, order, raws, choices, states, i, i + 1, |order|, k);
    WantedIsLive(s, order[i], choices[i], states[i], states[i + 1], k);
  }

  lemma WantedIsLive(s: Setup, gvk: GVK, c: Choice, r: Run, r': Run, k: Key)
    requires KindEffect(s, gvk, c, r, r') && r'.errs == r.errs && k in c.objs
    ensures var before, after := Find(r.w.objects, Id(gvk.GK(), k)), Find(r'.w.objects, Id(gvk.GK(), k));
      after.Some? && (before.None? ==> after.value == Prepare(s, gvk, c.objs[k]))
  {
    hide Decide, MayBecome, Fresh, Lists;
  }
}
