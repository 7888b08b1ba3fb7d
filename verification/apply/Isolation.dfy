/** What a whole Apply may touch. */
module Isolation {
  import opened Common
  import opened Kube
  import opened Engine
  import opened EngineFacts

  /** A real run over keyed objects whose listings show the cluster as it is. */
  ghost predicate CleanRun(s: Setup, order: seq<GVK>, raws: map<GVK, Objs>, choices: seq<Choice>, states: seq<Run>) {
    && IsRun(s, false, order, raws, choices, states)
    && Stored(states[0].w.objects)
    && (forall gvk :: gvk in raws ==> WellKeyed(raws[gvk]))
    && (forall i :: 0 <= i < |order| ==> UpToDate(s, order[i], states[i].w))
  }

  lemma {:induction false} StoredAlong(s: Setup, order: seq<GVK>, raws: map<GVK, Objs>, choices: seq<Choice>,
                                       states: seq<Run>, n: nat)
    requires CleanRun(s, order, raws, choices, states) && n <= |order|
    ensures Stored(states[n].w.objects) && states[0].errs <= states[n].errs
    ensures n < |order| ==> KindEffect(s, order[n], choices[n], states[n], states[n + 1])
  {
    hide ProcessKind, Legal, UpToDate, Found;
    if n > 0 {
      StoredAlong(s, order, raws, choices, states, n - 1);
      KindDoes(s, order[n - 1], Raw(raws, order[n - 1]), choices[n - 1], states[n - 1]);
    }
    if n < |order| {
      KindDoes(s, order[n], Raw(raws, order[n]), choices[n], states[n]);
    }
  }

  /** Some version of the object is desired. */
  ghost predicate Desired(order: seq<GVK>, choices: seq<Choice>, id: Id)
    requires |order| == |choices|
  {
    exists i :: 0 <= i < |order| && order[i].GK() == id.gk && id.key in choices[i].objs
  }

  /** The rules for pruning a live object. */
  ghost predicate MayPrune(s: Setup, order: seq<GVK>, id: Id, o: Object) {
    && Find(o.labels, "objectset.rio.cattle.io/hash") == Some(s.hash)
    && Find(o.labels, "objectset.rio.cattle.io/prune") != Some("false")
    && id !in s.declared && !(id.key.ns == s.defaultNs && Id(id.gk, Key("", id.key.name)) in s.declared)
    && !s.noDelete && exists i :: 0 <= i < |order| && order[i].GK() == id.gk && order[i] !in s.noDeleteKinds
  }

  /** Pruning safety: whatever API calls fail, an object that no version of its kind desires is left
      exactly as it was, unless it carries the set's own hash, is not marked prune "false", is not
      declared under another version, and deleting its kind is not switched off; then it may be gone. */
  lemma {:induction false} PruneSafety(s: Setup, order: seq<GVK>, raws: map<GVK, Objs>, choices: seq<Choice>,
                                       states: seq<Run>, n: nat, id: Id)
    requires CleanRun(s, order, raws, choices, states) && n <= |order|
    requires !Desired(order, choices, id)
    ensures var before, after := Find(states[0].w.objects, id), Find(states[n].w.objects, id);
      after == before || (before.Some? && MayPrune(s, order, id, before.value) && after == None)
  {
    hide ProcessKind, Legal, UpToDate, KindEffect;
    if n > 0 {
      PruneSafety(s, order, raws, choices, states, n - 1, id);
      StoredAlong(s, order, raws, choices, states, n - 1);
      KindPrunes(s, order[n - 1], choices[n - 1], states[n - 1], states[n], id);
    }
  }

  lemma KindPrunes(s: Setup, gvk: GVK, c: Choice, r: Run, r': Run, id: Id)
    requires KindEffect(s, gvk, c, r, r')
    requires gvk.GK() == id.gk ==> id.key !in c.objs
    ensures var before, after := Find(r.w.objects, id), Find(r'.w.objects, id);
      after == before ||
      (before.Some? && HasHash(before.value, s.hash) && ShouldPrune(before.value) && after == None &&
       !Protected(s, id.gk, id.key) && gvk.GK() == id.gk && !Gated(s, gvk))
  {
    var found := Found(s, gvk, c, r.w);
    if found.Some? && gvk.GK() == id.gk {
      assert id == Id(gvk.GK(), id.key);
      if id.key in c.delete {
        assert id.key in Elements(c.delete);
        assert found.value[id.key].labels == r.w.objects[id].labels;
      }
    }
  }

  /** Isolation: what belongs to another set and is not desired by this one is untouched. */
  lemma OtherSetsUntouched(s: Setup, order: seq<GVK>, raws: map<GVK, Objs>, choices: seq<Choice>,
                           states: seq<Run>, id: Id)
    requires CleanRun(s, order, raws, choices, states) && !Desired(order, choices, id)
    requires id in states[0].w.objects
    requires Find(states[0].w.objects[id].labels, "objectset.rio.cattle.io/hash") != Some(s.hash)
    ensures Find(states[|order|].w.objects, id) == Some(states[0].w.objects[id])
  {
    PruneSafety(s, order, raws, choices, states, |order|, id);
  }

  // -------- the calls themselves, also when an informer lags behind --------

  /** What one kind may ask of the server, given what its listing showed and what was stored before. */
  ghost predicate MayCall(s: Setup, gvk: GVK, c: Choice, existing: Objs, objects: map<Id, Object>, call: Call) {
    match call
    case ListCall(g) => g == gvk
    case CreateCall(id) => id.gk == gvk.GK() && id.key in c.objs && id.key !in existing
    case GetCall(id) => id.gk == gvk.GK() && id.key in c.objs && id.key !in existing && id in objects
    case PatchCall(id) => id.gk == gvk.GK() && id.key in c.objs
    case DeleteCall(id, forced) =>
      && id.gk == gvk.GK()
      && if forced then id.key in c.objs && MayReplace(s, gvk, c, existing, objects, id.key)
         else
           && id.key !in c.objs && id.key in existing && !Gated(s, gvk)
           && HasHash(existing[id.key], s.hash) && ShouldPrune(existing[id.key])
           && !Protected(s, id.gk, id.key)
  }

  /** Replacement is demanded against what was listed, or against the stored object that the create phase
      found in its way. */
  ghost predicate MayReplace(s: Setup, gvk: GVK, c: Choice, existing: Objs, objects: map<Id, Object>, k: Key)
    requires k in c.objs
  {
    if k in existing then Decide(s, gvk, existing[k], c.objs[k]).Replaced?
    else
      && Id(gvk.GK(), k) in objects
      && Decide(s, gvk, objects[Id(gvk.GK(), k)].As(gvk), c.objs[k]).Replaced?
  }

  ghost predicate NewCalls(before: seq<Call>, after: seq<Call>, s: Setup, gvk: GVK, c: Choice, existing: Objs,
                           objects: map<Id, Object>)
  {
    before <= after && forall i :: |before| <= i < |after| ==> MayCall(s, gvk, c, existing, objects, after[i])
  }

  lemma MoreCalls(a: seq<Call>, b: seq<Call>, d: seq<Call>, s: Setup, gvk: GVK, c: Choice, existing: Objs,
                  objects: map<Id, Object>)
    requires NewCalls(a, b, s, gvk, c, existing, objects) && NewCalls(b, d, s, gvk, c, existing, objects)
    ensures NewCalls(a, d, s, gvk, c, existing, objects)
  {
    hide MayCall;
  }

  /** The objects that the create phase has taken over: each is the one that was stored from the start. */
  ghost predicate TakenFrom(gvk: GVK, existing: Objs, objects: map<Id, Object>, taken: Objs) {
    && (forall k :: k in existing ==> Find(taken, k) == Find(existing, k))
    && forall k :: k in taken && k !in existing ==>
        Id(gvk.GK(), k) in objects && taken[k] == objects[Id(gvk.GK(), k)].As(gvk)
  }

  lemma {:induction false} CreateCalls(s: Setup, gvk: GVK, c: Choice, existing: Objs, objects: map<Id, Object>,
                                       keys: seq<Key>, m: Creating)
    requires Distinct(keys) && forall k :: k in keys ==> k in c.objs && k !in existing
    requires WellKeyed(c.objs) && Stored(objects)
    requires m.p.w.objects == objects && TakenFrom(gvk, existing, objects, m.existing)
    ensures var r := CreateAll(s, gvk, c.objs, keys, m);
      && NewCalls(m.p.w.calls, r.p.w.calls, s, gvk, c, existing, objects)
      && Stored(r.p.w.objects)
      && TakenFrom(gvk, existing, objects, r.existing)
      && (forall k :: k !in keys ==> Find(r.p.w.objects, Id(gvk.GK(), k)) == Find(objects, Id(gvk.GK(), k)))
  {
    hide CreateOne, MayCall, Stored, TakenFrom, Distinct;
    if keys != [] {
      var n := |keys| - 1;
      LastIsNew(keys);
      LastIsDistinct(keys);
      CreateCalls(s, gvk, c, existing, objects, keys[..n], m);
      var mid := CreateAll(s, gvk, c.objs, keys[..n], m);
      OneCreateCalls(s, gvk, c, existing, objects, keys[n], mid);
      MoreCalls(m.p.w.calls, mid.p.w.calls, CreateAll(s, gvk, c.objs, keys, m).p.w.calls, s, gvk, c, existing, objects);
    }
  }

  lemma OneCreateCalls(s: Setup, gvk: GVK, c: Choice, existing: Objs, objects: map<Id, Object>, k: Key, m: Creating)
    requires k in c.objs && k !in existing
    requires c.objs[k].MetaKey() == k && Stored(m.p.w.objects)
    requires Find(m.p.w.objects, Id(gvk.GK(), k)) == Find(objects, Id(gvk.GK(), k))
    requires TakenFrom(gvk, existing, objects, m.existing)
    ensures var r := CreateOne(s, gvk, c.objs, k, m);
      && NewCalls(m.p.w.calls, r.p.w.calls, s, gvk, c, existing, objects)
      && Stored(r.p.w.objects)
      && TakenFrom(gvk, existing, objects, r.existing)
      && (forall j :: j != k ==> Find(r.p.w.objects, Id(gvk.GK(), j)) == Find(m.p.w.objects, Id(gvk.GK(), j)))
  {
    hide CreateOne, MayReplace, TakenFrom, Stored;
    var id, r := Id(gvk.GK(), k), CreateOne(s, gvk, c.objs, k, m);
    OneCreation(s, gvk, c.objs, k, m);
    StillStored(m.p.w.objects, r.p.w.objects, id);
    StillTakenFrom(gvk, existing, objects, m.existing, r.existing, k);
  }

  lemma OneCreation(s: Setup, gvk: GVK, objs: Objs, k: Key, m: Creating)
    requires k in objs && objs[k].MetaKey() == k
    ensures var r, id := CreateOne(s, gvk, objs, k, m), Id(gvk.GK(), k);
      && (r.p.w.calls == m.p.w.calls + [CreateCall(id)] ||
          (id in m.p.w.objects && r.p.w.calls == m.p.w.calls + [CreateCall(id)] + [GetCall(id)]))
      && (r.existing == m.existing ||
          (id in m.p.w.objects && r.existing == m.existing[k := m.p.w.objects[id].As(gvk)]))
      && (r.p.w.objects == m.p.w.objects ||
          exists o: Object :: r.p.w.objects == m.p.w.objects[id := o] && o.MetaKey() == k)
  {
    var made := Create(s, m.p.w, Id(gvk.GK(), k), Prepare(s, gvk, objs[k]));
    assert Prepare(s, gvk, objs[k]).MetaKey() == k;
    assert made.w.calls == m.p.w.calls + [CreateCall(Id(gvk.GK(), k))];
  }

  lemma StillStored(before: map<Id, Object>, after: map<Id, Object>, id: Id)
    requires Stored(before)
    requires || after == before || after == before - {id}
             || exists o: Object :: after == before[id := o] && o.MetaKey() == id.key
    ensures Stored(after)
  {
  }

  lemma StillTakenFrom(gvk: GVK, existing: Objs, objects: map<Id, Object>, before: Objs, after: Objs, k: Key)
    requires TakenFrom(gvk, existing, objects, before) && k !in existing
    requires after == before ||
      (Id(gvk.GK(), k) in objects && after == before[k := objects[Id(gvk.GK(), k)].As(gvk)])
    ensures TakenFrom(gvk, existing, objects, after)
  {
  }

  lemma {:induction false} UpdateCalls(s: Setup, gvk: GVK, c: Choice, existing: Objs, objects: map<Id, Object>,
                                       taken: Objs, keys: seq<Key>, p: Progress)
    requires forall k :: k in keys ==> k in c.objs && k in taken && taken[k].MetaKey() == k
    requires TakenFrom(gvk, existing, objects, taken) && Stored(p.w.objects)
    ensures NewCalls(p.w.calls, UpdateAll(s, gvk, c.objs, taken, keys, p).w.calls, s, gvk, c, existing, objects)
    ensures Stored(UpdateAll(s, gvk, c.objs, taken, keys, p).w.objects)
  {
    hide UpdateOne, MayCall, Stored;
    if keys != [] {
      var n := |keys| - 1;
      var m := UpdateAll(s, gvk, c.objs, taken, keys[..n], p);
      UpdateCalls(s, gvk, c, existing, objects, taken, keys[..n], p);
      OneUpdateCalls(s, gvk, c, existing, objects, taken[keys[n]], keys[n], m);
      MoreCalls(p.w.calls, m.w.calls, UpdateAll(s, gvk, c.objs, taken, keys, p).w.calls, s, gvk, c, existing, objects);
    }
  }

  lemma OneUpdateCalls(s: Setup, gvk: GVK, c: Choice, existing: Objs, objects: map<Id, Object>, live: Object, k: Key,
                       p: Progress)
    requires k in c.objs && live.MetaKey() == k && Stored(p.w.objects)
    requires if k in existing then live == existing[k]
             else Id(gvk.GK(), k) in objects && live == objects[Id(gvk.GK(), k)].As(gvk)
    ensures NewCalls(p.w.calls, UpdateOne(s, gvk, live, c.objs[k], k, p).w.calls, s, gvk, c, existing, objects)
    ensures Stored(UpdateOne(s, gvk, live, c.objs[k], k, p).w.objects)
  {
    hide Decide, UpdateOne, Stored;
    var q, id := UpdateOne(s, gvk, live, c.objs[k], k, p), Id(gvk.GK(), k);
    OneUpdate(s, gvk, live, c.objs[k], k, p);
    StillStored(p.w.objects, q.w.objects, id);
    if Decide(s, gvk, live, c.objs[k]).Replaced? {
      assert MayReplace(s, gvk, c, existing, objects, k);
    }
  }

  lemma OneUpdate(s: Setup, gvk: GVK, live: Object, want: Object, k: Key, p: Progress)
    requires live.MetaKey() == k
    ensures var q, id := UpdateOne(s, gvk, live, want, k, p), Id(gvk.GK(), k);
      && (q.w.calls == p.w.calls || q.w.calls == p.w.calls + [PatchCall(id)] ||
          (Decide(s, gvk, live, want).Replaced? && q.w.calls == p.w.calls + [DeleteCall(id, true)]))
      && (q.w.objects == p.w.objects || q.w.objects == p.w.objects - {id} ||
          exists o: Object :: q.w.objects == p.w.objects[id := o] && o.MetaKey() == k)
  {
    hide Decide;
  }

  lemma {:induction false} DeleteCalls(s: Setup, gvk: GVK, c: Choice, existing: Objs, objects: map<Id, Object>,
                                       keys: seq<Key>, p: Progress)
    requires forall k :: k in keys ==> k in ToDelete(s, gvk, c.objs.Keys, existing) && HasHash(existing[k], s.hash)
    requires Stored(p.w.objects)
    ensures NewCalls(p.w.calls, DeleteAll(s, gvk, keys, p).w.calls, s, gvk, c, existing, objects)
    ensures Stored(DeleteAll(s, gvk, keys, p).w.objects)
  {
    hide DeleteOne, Stored, Protected, ShouldPrune, HasHash, MayReplace;
    if keys != [] {
      var n := |keys| - 1;
      var m := DeleteAll(s, gvk, keys[..n], p);
      DeleteCalls(s, gvk, c, existing, objects, keys[..n], p);
      OneDelete(s, gvk, keys[n], m);
      StillStored(m.w.objects, DeleteAll(s, gvk, keys, p).w.objects, Id(gvk.GK(), keys[n]));
      assert keys[n] in keys;
    }
  }

  lemma OneDelete(s: Setup, gvk: GVK, k: Key, p: Progress)
    ensures var q, id := DeleteOne(s, gvk, k, false, p), Id(gvk.GK(), k);
      && (q.w.calls == p.w.calls || (!Gated(s, gvk) && q.w.calls == p.w.calls + [DeleteCall(id, false)]))
      && (q.w.objects == p.w.objects || q.w.objects == p.w.objects - {id})
  {
  }

  lemma WriteCalls(s: Setup, gvk: GVK, c: Choice, existing: Objs, p: Progress)
    requires WellKeyed(c.objs) && Stored(p.w.objects) && Lists(s, gvk, c, existing)
    requires forall k :: k in existing ==> existing[k].MetaKey() == k && HasHash(existing[k], s.hash)
    ensures NewCalls(p.w.calls, Write(s, gvk, c, existing, p).w.calls, s, gvk, c, existing, p.w.objects)
    ensures Stored(Write(s, gvk, c, existing, p).w.objects)
  {
    hide MayCall, CreateAll, UpdateAll, DeleteAll, NotAfter, ShouldPrune, HasHash, Distinct, Stored;
    var objects := p.w.objects;
    assert forall k :: k in c.create ==> k in Elements(c.create);
    assert forall k :: k in c.delete ==> k in Elements(c.delete);
    CreateCalls(s, gvk, c, existing, objects, c.create, Creating(p, existing, c.update));
    var made := Made(s, gvk, c, existing, p);
    TakenKeyed(gvk, existing, objects, made.existing);
    UpdateCalls(s, gvk, c, existing, objects, made.existing, made.updates, made.p);
    var u := UpdateAll(s, gvk, c.objs, made.existing, made.updates, made.p);
    DeleteCalls(s, gvk, c, existing, objects, c.delete, u);
    MoreCalls(p.w.calls, made.p.w.calls, u.w.calls, s, gvk, c, existing, objects);
    MoreCalls(p.w.calls, u.w.calls, DeleteAll(s, gvk, c.delete, u).w.calls, s, gvk, c, existing, objects);
  }

  lemma TakenKeyed(gvk: GVK, existing: Objs, objects: map<Id, Object>, taken: Objs)
    requires TakenFrom(gvk, existing, objects, taken) && Stored(objects) && WellKeyed(existing)
    ensures WellKeyed(taken)
  {
    forall k | k in taken ensures taken[k].MetaKey() == k {
      if k in existing {
        assert Find(taken, k) == Find(existing, k);
      }
    }
  }

  /** Every call of a kind is one the rules allow, however stale the informer it listed from: in
      particular no object outside the listing is ever deleted unless replacement was demanded for it,
      and nothing is deleted under a no-delete switch but a forced replacement. */
  lemma KindCalls(s: Setup, gvk: GVK, raw: Objs, c: Choice, r: Run)
    requires WellKeyed(raw) && Stored(r.w.objects) && Legal(s, gvk, raw, r.w, c)
    requires forall n :: WellKeyed(s.cache(gvk, n))
    ensures var r' := ProcessKind(s, false, gvk, raw, c, r);
      && Stored(r'.w.objects)
      && match Found(s, gvk, c, r.w)
         case None =>
           && r.w.calls <= r'.w.calls
           && forall i :: |r.w.calls| <= i < |r'.w.calls| ==> r'.w.calls[i] == ListCall(gvk)
         case Some(existing) => NewCalls(r.w.calls, r'.w.calls, s, gvk, c, existing, r.w.objects)
  {
    hide Write, Lists, Normalised, Stored;
    var found := Found(s, gvk, c, r.w);
    ListedObjects(s, gvk, c, r.w);
    if found.Some? {
      ListedRight(s, gvk, c, r.w);
      NormalisedFacts(s, gvk, raw, c.objs);
      var w := Listing(s, gvk, c.objs.Keys, r.w).0;
      WriteCalls(s, gvk, c, found.value, Progress(w, r.errs));
      MoreCalls(r.w.calls, w.calls, Write(s, gvk, c, found.value, Progress(w, r.errs)).w.calls,
                s, gvk, c, found.value, r.w.objects);
    }
  }

  lemma ListedObjects(s: Setup, gvk: GVK, c: Choice, w: World)
    ensures !Refused(s, gvk) ==> Listing(s, gvk, c.objs.Keys, w).0.objects == w.objects
  {
    hide View;
  }

  lemma ListedRight(s: Setup, gvk: GVK, c: Choice, w: World)
    requires Stored(w.objects) && Found(s, gvk, c, w).Some?
    requires forall n :: WellKeyed(s.cache(gvk, n))
    ensures var existing := Found(s, gvk, c, w).value;
      forall k :: k in existing ==> existing[k].MetaKey() == k && HasHash(existing[k], s.hash)
    ensures var w' := Listing(s, gvk, c.objs.Keys, w).0;
      w'.objects == w.objects && (w'.calls == w.calls || w'.calls == w.calls + [ListCall(gvk)])
  {
    assert WellKeyed(s.cache(gvk, |w.calls|));
  }

  /** The call is one that some kind of the run may make, given what it listed and what was stored then. */
  ghost predicate MadeByRun(s: Setup, order: seq<GVK>, choices: seq<Choice>, states: seq<Run>, n: nat, call: Call)
    requires |order| == |choices| && |states| == |order| + 1 && n <= |order|
  {
    exists i :: 0 <= i < n &&
      match Found(s, order[i], choices[i], states[i].w)
      case None => call == ListCall(order[i])
      case Some(existing) => MayCall(s, order[i], choices[i], existing, states[i].w.objects, call)
  }

  /** The same over a whole run, for every call in its log, with informers as stale as they like. */
  lemma {:induction false} RunCalls(s: Setup, order: seq<GVK>, raws: map<GVK, Objs>, choices: seq<Choice>,
                                    states: seq<Run>, n: nat)
    requires IsRun(s, false, order, raws, choices, states) && n <= |order|
    requires Stored(states[0].w.objects) && (forall gvk :: gvk in raws ==> WellKeyed(raws[gvk]))
    requires forall gvk, m :: WellKeyed(s.cache(gvk, m))
    ensures Stored(states[n].w.objects) && states[0].w.calls <= states[n].w.calls
    ensures forall j :: |states[0].w.calls| <= j < |states[n].w.calls| ==>
      MadeByRun(s, order, choices, states, n, states[n].w.calls[j])
  {
    hide ProcessKind, Legal, MayCall, Stored, Found;
    if n > 0 {
      var i := n - 1;
      RunCalls(s, order, raws, choices, states, i);
      KindCalls(s, order[i], Raw(raws, order[i]), choices[i], states[i]);
      forall j | |states[0].w.calls| <= j < |states[n].w.calls|
        ensures MadeByRun(s, order, choices, states, n, states[n].w.calls[j])
      {
        if j < |states[i].w.calls| {
          assert MadeByRun(s, order, choices, states, i, states[i].w.calls[j]);
        }
      }
    }
  }
}
