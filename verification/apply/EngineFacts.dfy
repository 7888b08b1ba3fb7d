/** What one kind's phases do to each object, key by key. */
module EngineFacts {
  import opened Common
  import opened Kube
  import opened Engine
  import opened Namespaces

  function Live(w: World, gvk: GVK, k: Key): Option<Object> {
    Find(w.objects, Id(gvk.GK(), k))
  }

  predicate Gated(s: Setup, gvk: GVK) {
    s.noDelete || gvk in s.noDeleteKinds
  }

  /** What may become of a desired object: created if it was not there, otherwise left alone, patched,
      or, when replacement is demanded, deleted. */
  predicate MayBecome(s: Setup, gvk: GVK, want: Object, before: Option<Object>, after: Option<Object>) {
    match before
    case None => after == None || after == Some(Prepare(s, gvk, want))
    case Some(o) => MayTurnInto(s, gvk, want, o, after)
  }

  predicate MayTurnInto(s: Setup, gvk: GVK, want: Object, o: Object, after: Option<Object>) {
    after == Some(o) ||
    match Decide(s, gvk, o.As(gvk), want)
    case Replaced => after == None
    case Send(patch) => after == Some(s.merge(o.As(gvk), patch)) && after.value.MetaKey() == o.MetaKey()
    case _ => false
  }

  /** What has become of it when no error was reported. */
  predicate Becomes(s: Setup, gvk: GVK, want: Object, before: Option<Object>, after: Option<Object>) {
    match before
    case None => after == Some(Prepare(s, gvk, want))
    case Some(o) => TurnsInto(s, gvk, want, o, after)
  }

  predicate TurnsInto(s: Setup, gvk: GVK, want: Object, o: Object, after: Option<Object>) {
    match Decide(s, gvk, o.As(gvk), want)
    case Unchanged => after == Some(o)
    case Settled => after == Some(o)
    case Send(patch) => after == Some(s.merge(o.As(gvk), patch)) && after.value.MetaKey() == o.MetaKey()
    case _ => false
  }

  predicate ToReplace(s: Setup, gvk: GVK, want: Object, before: Option<Object>) {
    before.Some? && Decide(s, gvk, before.value.As(gvk), want).Replaced?
  }

  /** The listing agrees with the cluster about every object it shows. */
  ghost predicate Fresh(objects: map<Id, Object>, gvk: GVK, existing: Objs) {
    forall k :: k in existing ==>
      && Id(gvk.GK(), k) in objects
      && existing[k] == objects[Id(gvk.GK(), k)].As(gvk)
  }

  ghost predicate Stored(objects: map<Id, Object>) {
    forall id :: id in objects ==> objects[id].MetaKey() == id.key
  }

  ghost predicate Grows(p: Progress, q: Progress) {
    p.errs <= q.errs && p.w.calls <= q.w.calls
  }

  /** Every call made between the two points was served. */
  ghost predicate ServedIn(s: Setup, w: World, w': World) {
    forall n: nat :: |w.calls| <= n < |w'.calls| ==> s.outcome(n) == Outcome.Served
  }

  /** All that was reported since is that objects are waiting to be replaced. */
  ghost predicate OnlyWaits(before: seq<Err>, after: seq<Err>) {
    before <= after && forall i :: |before| <= i < |after| ==> after[i].ReplaceWait?
  }

  /** No call got lost: there was none that did, or none that was reported. */
  ghost predicate Smooth(s: Setup, p: Progress, q: Progress) {
    ServedIn(s, p.w, q.w) || OnlyWaits(p.errs, q.errs)
  }

  lemma WaitsInside(a: seq<Err>, b: seq<Err>, c: seq<Err>, d: seq<Err>)
    requires a <= b <= c <= d && OnlyWaits(a, d)
    ensures OnlyWaits(b, c)
  {
    forall n {:trigger c[n]} | |b| <= n < |c| ensures c[n].ReplaceWait? {
      assert d[n] == c[n];
    }
  }

  lemma SmoothParts(s: Setup, p: Progress, m: Progress, q: Progress)
    requires Grows(p, m) && Grows(m, q) && Smooth(s, p, q)
    ensures Smooth(s, p, m) && Smooth(s, m, q)
  {
    if OnlyWaits(p.errs, q.errs) {
      WaitsInside(p.errs, p.errs, m.errs, q.errs);
      WaitsInside(p.errs, m.errs, q.errs, q.errs);
    }
  }

  /** The call was made between the two points of the run. */
  ghost predicate Called(p: Progress, q: Progress, call: Call) {
    exists i :: |p.w.calls| <= i < |q.w.calls| && q.w.calls[i] == call
  }

  // -------- the create phase --------

  ghost predicate Creation(s: Setup, gvk: GVK, objs: Objs, keys: seq<Key>, c: Creating, r: Creating)
    requires forall k :: k in keys ==> k in objs
  {
    && Grows(c.p, r.p) && c.updates <= r.updates
    && (Smooth(s, c.p, r.p) ==> r.p.errs == c.p.errs)
    && (forall id: Id :: id.gk != gvk.GK() || id.key !in keys ==> Find(r.p.w.objects, id) == Find(c.p.w.objects, id))
    && (forall k :: k in keys ==> CreatedAt(s, gvk, objs[k], k, c, r))
    && (forall k :: k in r.updates[|c.updates|..] ==> k in keys)
    && Distinct(r.updates[|c.updates|..])
    && (forall k :: k !in keys ==> Find(r.existing, k) == Find(c.existing, k))
  }

  ghost predicate CreatedAt(s: Setup, gvk: GVK, want: Object, k: Key, c: Creating, r: Creating)
    requires c.updates <= r.updates
  {
    var before, after := Live(c.p.w, gvk, k), Live(r.p.w, gvk, k);
    if k in r.updates[|c.updates|..] then
      before.Some? && after == before && Find(r.existing, k) == Some(before.value.As(gvk))
    else
      && Find(r.existing, k) == Find(c.existing, k)
      && (after == before || (before.None? && after == Some(Prepare(s, gvk, want))))
      && (r.p.errs == c.p.errs ==> before.None? && after == Some(Prepare(s, gvk, want)))
  }

  lemma {:induction false} CreateAllDoes(s: Setup, gvk: GVK, objs: Objs, keys: seq<Key>, c: Creating)
    requires Distinct(keys) && forall k :: k in keys ==> k in objs
    ensures Creation(s, gvk, objs, keys, c, CreateAll(s, gvk, objs, keys, c))
  {
    var r := CreateAll(s, gvk, objs, keys, c);
    if keys == [] {
      assert r.updates[|c.updates|..] == [];
    } else {
      var n := |keys| - 1;
      var m := CreateAll(s, gvk, objs, keys[..n], c);
      CreateAllDoes(s, gvk, objs, keys[..n], c);
      CreateOneDoes(s, gvk, objs, keys[n], m);
      CreationGrows(s, gvk, objs, keys, c, m, r);
    }
  }

  ghost predicate CreationStep(s: Setup, gvk: GVK, want: Object, k: Key, c: Creating, r: Creating) {
    && Grows(c.p, r.p)
    && (Smooth(s, c.p, r.p) ==> r.p.errs == c.p.errs)
    && (forall id :: id != Id(gvk.GK(), k) ==> Find(r.p.w.objects, id) == Find(c.p.w.objects, id))
    && (forall j :: j != k ==> Find(r.existing, j) == Find(c.existing, j))
    && (r.updates == c.updates || r.updates == c.updates + [k])
    && CreatedAt(s, gvk, want, k, c, r)
  }

  lemma CreateOneDoes(s: Setup, gvk: GVK, objs: Objs, k: Key, c: Creating)
    requires k in objs
    ensures CreationStep(s, gvk, objs[k], k, c, CreateOne(s, gvk, objs, k, c))
  {
    hide Prepare;
    var r := CreateOne(s, gvk, objs, k, c);
    assert r.p.errs == c.p.errs || r.p.errs[|c.p.errs|] == CreateFailed(gvk, k);
    assert Smooth(s, c.p, r.p) ==> r.p.errs == c.p.errs;
  }

  lemma CreationGrows(s: Setup, gvk: GVK, objs: Objs, keys: seq<Key>, c: Creating, m: Creating, r: Creating)
    requires Distinct(keys) && keys != [] && forall k :: k in keys ==> k in objs
    requires Creation(s, gvk, objs, keys[..|keys| - 1], c, m)
    requires CreationStep(s, gvk, objs[keys[|keys| - 1]], keys[|keys| - 1], m, r)
    ensures Creation(s, gvk, objs, keys, c, r)
  {
    hide Smooth, Prepare, CreatedAt, Distinct;
    var n := |keys| - 1;
    assert c.updates <= m.updates <= r.updates;
    LateOnes(keys, c.updates, m.updates, r.updates);
    LastIsNew(keys);
    if Smooth(s, c.p, r.p) {
      SmoothParts(s, c.p, m.p, r.p);
    }
    forall k | k in keys ensures CreatedAt(s, gvk, objs[k], k, c, r) {
      CreatedStill(s, gvk, objs, keys, c, m, r, k);
    }
  }

  lemma LastIsNew<T(!new)>(keys: seq<T>)
    requires keys != [] && Distinct(keys)
    ensures keys[|keys| - 1] !in keys[..|keys| - 1]
    ensures forall k :: k in keys <==> k in keys[..|keys| - 1] || k == keys[|keys| - 1]
  {
    assert keys == keys[..|keys| - 1] + [keys[|keys| - 1]];
  }

  /** The keys taken over so far, after one more key. */
  lemma LateOnes(keys: seq<Key>, first: seq<Key>, before: seq<Key>, after: seq<Key>)
    requires keys != [] && Distinct(keys) && first <= before
    requires after == before || after == before + [keys[|keys| - 1]]
    requires Distinct(before[|first|..]) && forall k :: k in before[|first|..] ==> k in keys[..|keys| - 1]
    ensures first <= after && Distinct(after[|first|..]) && forall k :: k in after[|first|..] ==> k in keys
    ensures after[|first|..] == before[|first|..] + (if after == before then [] else [keys[|keys| - 1]])
  {
    LastIsNew(keys);
    var late, late' := before[|first|..], after[|first|..];
    assert late' == late + (if after == before then [] else [keys[|keys| - 1]]);
    if after != before {
      DistinctConcat(late, [keys[|keys| - 1]]);
    }
  }

  lemma CreatedStill(s: Setup, gvk: GVK, objs: Objs, keys: seq<Key>, c: Creating, m: Creating, r: Creating, k: Key)
    requires Distinct(keys) && keys != [] && (forall k :: k in keys ==> k in objs) && k in keys
    requires Creation(s, gvk, objs, keys[..|keys| - 1], c, m)
    requires CreationStep(s, gvk, objs[keys[|keys| - 1]], keys[|keys| - 1], m, r)
    ensures c.updates <= r.updates && CreatedAt(s, gvk, objs[k], k, c, r)
  {
    hide Smooth, Prepare, Distinct;
    var last := keys[|keys| - 1];
    LateOnes(keys, c.updates, m.updates, r.updates);
    LastIsNew(keys);
    LastIsNewAfter(m.updates, r.updates, last);
    if k != last {
      assert k in keys[..|keys| - 1] && CreatedAt(s, gvk, objs[k], k, c, m);
    }
  }

  lemma LastIsNewAfter(before: seq<Key>, after: seq<Key>, k: Key)
    requires after == before || after == before + [k]
    ensures after[|before|..] == if after == before then [] else [k]
  {
  }

  // -------- the update phase --------

  ghost predicate Updating(s: Setup, gvk: GVK, objs: Objs, existing: Objs, keys: seq<Key>, p: Progress, q: Progress)
    requires forall k :: k in keys ==> k in objs && k in existing
  {
    && Grows(p, q)
    && (forall id: Id :: id.gk != gvk.GK() || id.key !in keys ==> Find(q.w.objects, id) == Find(p.w.objects, id))
    && (forall k :: k in keys ==> UpdatedAt(s, gvk, existing[k], objs[k], k, p, q))
  }

  ghost predicate UpdatedAt(s: Setup, gvk: GVK, live: Object, want: Object, k: Key, p: Progress, q: Progress) {
    Live(p.w, gvk, k).Some? && Live(p.w, gvk, k).value.As(gvk) == live ==>
      && MayTurnInto(s, gvk, want, Live(p.w, gvk, k).value, Live(q.w, gvk, k))
      && (q.errs == p.errs ==> TurnsInto(s, gvk, want, Live(p.w, gvk, k).value, Live(q.w, gvk, k)))
      && (OnlyWaits(p.errs, q.errs) ==>
          Decide(s, gvk, live, want).Replaced? || TurnsInto(s, gvk, want, Live(p.w, gvk, k).value, Live(q.w, gvk, k)))
      && (Decide(s, gvk, live, want).Replaced? ==>
          && ReplaceWait(gvk, k) in q.errs
          && Called(p, q, DeleteCall(Id(gvk.GK(), k), true))
          && (Smooth(s, p, q) ==> Live(q.w, gvk, k) == None))
  }

  lemma {:induction false} UpdateAllDoes(s: Setup, gvk: GVK, objs: Objs, existing: Objs, keys: seq<Key>, p: Progress)
    requires Distinct(keys) && forall k :: k in keys ==> k in objs && k in existing && existing[k].MetaKey() == k
    ensures Updating(s, gvk, objs, existing, keys, p, UpdateAll(s, gvk, objs, existing, keys, p))
  {
    hide UpdateOne, UpdatedAt, Distinct;
    if keys != [] {
      var n := |keys| - 1;
      var m := UpdateAll(s, gvk, objs, existing, keys[..n], p);
      var q := UpdateAll(s, gvk, objs, existing, keys, p);
      LastIsNew(keys);
      LastIsDistinct(keys);
      UpdateAllDoes(s, gvk, objs, existing, keys[..n], p);
      UpdateOneDoes(s, gvk, existing[keys[n]], objs[keys[n]], keys[n], m);
      forall k | k in keys ensures UpdatedAt(s, gvk, existing[k], objs[k], k, p, q) {
        if k == keys[n] {
          UpdatedLate(s, gvk, existing[k], objs[k], k, p, m, q);
        } else {
          UpdatedStill(s, gvk, existing[k], objs[k], k, p, m, q);
        }
      }
    }
  }

  lemma UpdatedLate(s: Setup, gvk: GVK, live: Object, want: Object, k: Key, p: Progress, m: Progress, q: Progress)
    requires Grows(p, m) && Grows(m, q) && UpdatedAt(s, gvk, live, want, k, m, q)
    requires Live(m.w, gvk, k) == Live(p.w, gvk, k)
    ensures UpdatedAt(s, gvk, live, want, k, p, q)
  {
    hide Decide, TurnsInto, MayTurnInto;
    if Smooth(s, p, q) {
      SmoothParts(s, p, m, q);
    }
    if OnlyWaits(p.errs, q.errs) {
      WaitsInside(p.errs, p.errs, m.errs, q.errs);
      WaitsInside(p.errs, m.errs, q.errs, q.errs);
    }
  }

  lemma UpdatedStill(s: Setup, gvk: GVK, live: Object, want: Object, k: Key, p: Progress, m: Progress, q: Progress)
    requires Grows(p, m) && Grows(m, q) && UpdatedAt(s, gvk, live, want, k, p, m)
    requires Live(q.w, gvk, k) == Live(m.w, gvk, k)
    ensures UpdatedAt(s, gvk, live, want, k, p, q)
  {
    hide Decide, TurnsInto, MayTurnInto;
    var call := DeleteCall(Id(gvk.GK(), k), true);
    if Smooth(s, p, q) {
      SmoothParts(s, p, m, q);
    }
    if OnlyWaits(p.errs, q.errs) {
      WaitsInside(p.errs, p.errs, m.errs, q.errs);
      WaitsInside(p.errs, m.errs, q.errs, q.errs);
    }
    if i :| |p.w.calls| <= i < |m.w.calls| && m.w.calls[i] == call {
      assert q.w.calls[i] == call;
    }
  }

  lemma UpdateOneDoes(s: Setup, gvk: GVK, live: Object, want: Object, k: Key, p: Progress)
    requires live.MetaKey() == k
    ensures var q := UpdateOne(s, gvk, live, want, k, p);
      && Grows(p, q)
      && (forall id :: id != Id(gvk.GK(), k) ==> Find(q.w.objects, id) == Find(p.w.objects, id))
      && UpdatedAt(s, gvk, live, want, k, p, q)
  {
    hide Change, VerdictOn;
    var q := UpdateOne(s, gvk, live, want, k, p);
    if Decide(s, gvk, live, want).Replaced? {
      assert q.w.calls[|p.w.calls|] == DeleteCall(Id(gvk.GK(), k), true);
      var gone := Delete(s, p.w, Id(gvk.GK(), k), true);
      if !gone.status.Done? {
        assert q.errs[|p.errs|] == DeleteFailed(gvk, k);
      }
      assert Smooth(s, p, q) && Live(p.w, gvk, k).Some? ==> gone.status.Done?;
    } else {
      assert q.errs == p.errs || q.errs[|p.errs|] == UpdateFailed(gvk, k);
    }
  }

  /** The reconciler of a kind, where there is one, is asked about what was wanted last time, or the live object if
      that is not known, and what is wanted now, each with its kind and its applied copy. */
  function AskedOf(s: Setup, gvk: GVK, live: Object, want: Object): Verdict {
    var applied := "objectset.rio.cattle.io/applied";
    var past := if applied in live.annotations then s.decode(live.annotations[applied]) else Never;
    if gvk !in s.reconcilers then Accept
    else
      s.reconcilers[gvk](
        if past.Was? then past.copy.(gvk := gvk, annotations := past.copy.annotations[applied := s.encode(past.copy)])
        else live,
        want.(gvk := gvk, annotations := want.annotations[applied := s.encode(want)]))
  }

  /** Which call is made for an object that is there, what is reported, and what a patch leaves. */
  lemma UpdateCallsExactly(s: Setup, gvk: GVK, live: Object, want: Object, k: Key, p: Progress)
    requires live.MetaKey() == k
    ensures var q := UpdateOne(s, gvk, live, want, k, p);
      var verdict, change := AskedOf(s, gvk, live, want), Change(s, gvk, live, want);
      var id := Id(gvk.GK(), k);
      if change.None? then q.w == p.w && q.errs == p.errs + [UpdateFailed(gvk, k)]
      else if change.value == map[] || verdict.Handled? then q == p
      else if verdict.Refuse? then q.w == p.w && q.errs == p.errs + [UpdateFailed(gvk, k)]
      else if verdict.Replace? || gvk in s.replaceOnChange then
        && q.w.calls == p.w.calls + [DeleteCall(id, true)]
        && (q.errs == p.errs + [ReplaceWait(gvk, k)] || q.errs == p.errs + [DeleteFailed(gvk, k), ReplaceWait(gvk, k)])
      else
        && q.w.calls == p.w.calls + [PatchCall(id)]
        && (q.errs == p.errs + [UpdateFailed(gvk, k)] ||
            (q.errs == p.errs && id in p.w.objects &&
             q.w.objects == p.w.objects[id := s.merge(p.w.objects[id].As(gvk), change.value)]))
  {
    hide Change;
    assert VerdictOn(s, gvk, live, want) == AskedOf(s, gvk, live, want);
  }

  // -------- the delete phase --------

  ghost predicate Deleting(s: Setup, gvk: GVK, keys: seq<Key>, p: Progress, q: Progress) {
    && Grows(p, q)
    && (forall id: Id :: id.gk != gvk.GK() || id.key !in keys || Gated(s, gvk) ==>
        Find(q.w.objects, id) == Find(p.w.objects, id))
    && (forall k :: k in keys ==> Live(q.w, gvk, k) == None || Live(q.w, gvk, k) == Live(p.w, gvk, k))
    && (q.errs == p.errs && !Gated(s, gvk) ==> forall k :: k in keys ==> Live(q.w, gvk, k) == None)
  }

  lemma {:induction false} DeleteAllDoes(s: Setup, gvk: GVK, keys: seq<Key>, p: Progress)
    requires Distinct(keys)
    ensures Deleting(s, gvk, keys, p, DeleteAll(s, gvk, keys, p))
  {
    hide DeleteOne, Gated, Distinct;
    if keys != [] {
      var n := |keys| - 1;
      LastIsNew(keys);
      LastIsDistinct(keys);
      DeleteAllDoes(s, gvk, keys[..n], p);
      DeleteOneDoes(s, gvk, keys[n], DeleteAll(s, gvk, keys[..n], p));
    }
  }

  lemma LastIsDistinct<T>(keys: seq<T>)
    requires keys != [] && Distinct(keys)
    ensures Distinct(keys[..|keys| - 1])
  {
  }

  lemma DeleteOneDoes(s: Setup, gvk: GVK, k: Key, p: Progress)
    ensures var q := DeleteOne(s, gvk, k, false, p);
      && Grows(p, q)
      && (forall id: Id :: id != Id(gvk.GK(), k) || Gated(s, gvk) ==> Find(q.w.objects, id) == Find(p.w.objects, id))
      && (Live(q.w, gvk, k) == None || Live(q.w, gvk, k) == Live(p.w, gvk, k))
      && (q.errs == p.errs && !Gated(s, gvk) ==> Live(q.w, gvk, k) == None)
  {
  }

  // -------- the three phases together --------

  /** The effect of processing one kind, on every object there is. */
  ghost predicate Effect(s: Setup, gvk: GVK, c: Choice, p: Progress, q: Progress) {
    && Grows(p, q)
    && (forall id: Id :: id.gk != gvk.GK() || (id.key !in c.objs && id.key !in c.delete) ==>
        Find(q.w.objects, id) == Find(p.w.objects, id))
    && (forall k :: k in c.objs ==>
        && MayBecome(s, gvk, c.objs[k], Live(p.w, gvk, k), Live(q.w, gvk, k))
        && (q.errs == p.errs ==> Becomes(s, gvk, c.objs[k], Live(p.w, gvk, k), Live(q.w, gvk, k)))
        && (OnlyWaits(p.errs, q.errs) ==> ToReplace(s, gvk, c.objs[k], Live(p.w, gvk, k)) ||
                                          Becomes(s, gvk, c.objs[k], Live(p.w, gvk, k), Live(q.w, gvk, k))))
    && (forall k :: k in c.delete ==>
        && (Live(q.w, gvk, k) == Live(p.w, gvk, k) || (Live(q.w, gvk, k) == None && !Gated(s, gvk)))
        && (q.errs == p.errs && !Gated(s, gvk) ==> Live(q.w, gvk, k) == None))
  }

  lemma WriteDoes(s: Setup, gvk: GVK, c: Choice, existing: Objs, p: Progress)
    requires Lists(s, gvk, c, existing)
    requires Stored(p.w.objects) && Fresh(p.w.objects, gvk, existing)
    ensures Effect(s, gvk, c, p, Write(s, gvk, c, existing, p))
  {
    var made := Made(s, gvk, c, existing, p);
    CreateAllDoes(s, gvk, c.objs, c.create, Creating(p, existing, c.update));
    TakenOver(s, gvk, c, existing, p);
    var u := UpdateAll(s, gvk, c.objs, made.existing, made.updates, made.p);
    UpdateAllDoes(s, gvk, c.objs, made.existing, made.updates, made.p);
    DeleteAllDoes(s, gvk, c.delete, u);
    var q := DeleteAll(s, gvk, c.delete, u);
    PhasesDo(s, gvk, c, existing, p, u, q);
  }

  lemma PhasesDo(s: Setup, gvk: GVK, c: Choice, existing: Objs, p: Progress, u: Progress, q: Progress)
    requires Lists(s, gvk, c, existing)
    requires Fresh(p.w.objects, gvk, existing) && Stored(p.w.objects)
    requires var made := Made(s, gvk, c, existing, p);
      && Creation(s, gvk, c.objs, c.create, Creating(p, existing, c.update), made)
      && Updating(s, gvk, c.objs, made.existing, made.updates, made.p, u)
    requires Deleting(s, gvk, c.delete, u, q)
    ensures Effect(s, gvk, c, p, q)
  {
    hide MayBecome, Becomes, ToReplace, OnlyWaits, Lists, Fresh, Stored, Gated, Made;
    PhasesGrow(s, gvk, c, existing, p, u, q);
    hide Creation, Updating;
    forall k | k in c.objs
      ensures MayBecome(s, gvk, c.objs[k], Live(p.w, gvk, k), Live(q.w, gvk, k))
      ensures q.errs == p.errs ==> Becomes(s, gvk, c.objs[k], Live(p.w, gvk, k), Live(q.w, gvk, k))
      ensures OnlyWaits(p.errs, q.errs) ==> ToReplace(s, gvk, c.objs[k], Live(p.w, gvk, k)) ||
                                            Becomes(s, gvk, c.objs[k], Live(p.w, gvk, k), Live(q.w, gvk, k))
    {
      DesiredKey(s, gvk, c, existing, p, u, q, k);
    }
    forall id: Id | id.gk != gvk.GK() || id.key !in c.objs ensures Find(u.w.objects, id) == Find(p.w.objects, id) {
      UndesiredId(s, gvk, c, existing, p, u, id);
    }
    forall k | k in c.delete ensures k !in c.objs && Live(u.w, gvk, k) == Live(p.w, gvk, k) {
      Unwanted(s, gvk, c, existing, k);
    }
  }

  lemma PhasesGrow(s: Setup, gvk: GVK, c: Choice, existing: Objs, p: Progress, u: Progress, q: Progress)
    requires Lists(s, gvk, c, existing)
    requires var made := Made(s, gvk, c, existing, p);
      && Creation(s, gvk, c.objs, c.create, Creating(p, existing, c.update), made)
      && Updating(s, gvk, c.objs, made.existing, made.updates, made.p, u)
    requires Deleting(s, gvk, c.delete, u, q)
    ensures Grows(p, Made(s, gvk, c, existing, p).p) && Grows(Made(s, gvk, c, existing, p).p, u)
    ensures Grows(p, u) && Grows(u, q) && Grows(p, q)
    ensures q.errs == p.errs ==> Made(s, gvk, c, existing, p).p.errs == u.errs == p.errs
  {
    hide CreatedAt, UpdatedAt, Made;
  }

  lemma Unwanted(s: Setup, gvk: GVK, c: Choice, existing: Objs, k: Key)
    requires Lists(s, gvk, c, existing)
    ensures k in c.delete ==> k !in c.objs
    ensures k in c.create <==> k in c.objs && k !in existing
    ensures k in c.update <==> k in c.objs && k in existing
  {
    assert k in c.delete ==> k in Elements(c.delete);
    assert k in c.create <==> k in Elements(c.create);
    assert k in c.update <==> k in Elements(c.update);
  }

  lemma UndesiredId(s: Setup, gvk: GVK, c: Choice, existing: Objs, p: Progress, u: Progress, id: Id)
    requires Lists(s, gvk, c, existing)
    requires var made := Made(s, gvk, c, existing, p);
      && Creation(s, gvk, c.objs, c.create, Creating(p, existing, c.update), made)
      && Updating(s, gvk, c.objs, made.existing, made.updates, made.p, u)
    requires id.gk != gvk.GK() || id.key !in c.objs
    ensures Find(u.w.objects, id) == Find(p.w.objects, id)
  {
    hide Lists, CreatedAt, UpdatedAt;
    Unwanted(s, gvk, c, existing, id.key);
    var made := Made(s, gvk, c, existing, p);
    assert id.key in made.updates ==> id.key in c.objs;
  }

  lemma DesiredKey(s: Setup, gvk: GVK, c: Choice, existing: Objs, p: Progress, u: Progress, q: Progress, k: Key)
    requires Lists(s, gvk, c, existing) && k in c.objs
    requires Fresh(p.w.objects, gvk, existing) && Stored(p.w.objects)
    requires var made := Made(s, gvk, c, existing, p);
      && Creation(s, gvk, c.objs, c.create, Creating(p, existing, c.update), made)
      && Updating(s, gvk, c.objs, made.existing, made.updates, made.p, u)
    requires Deleting(s, gvk, c.delete, u, q)
    ensures MayBecome(s, gvk, c.objs[k], Live(p.w, gvk, k), Live(q.w, gvk, k))
    ensures q.errs == p.errs ==> Becomes(s, gvk, c.objs[k], Live(p.w, gvk, k), Live(q.w, gvk, k))
    ensures OnlyWaits(p.errs, q.errs) ==> ToReplace(s, gvk, c.objs[k], Live(p.w, gvk, k)) ||
                                          Becomes(s, gvk, c.objs[k], Live(p.w, gvk, k), Live(q.w, gvk, k))
  {
    hide Lists, Fresh, Stored, TurnsInto, Decide, Prepare, OnlyWaits;
    var made := Made(s, gvk, c, existing, p);
    TakenOver(s, gvk, c, existing, p);
    PhasesGrow(s, gvk, c, existing, p, u, q);
    if OnlyWaits(p.errs, q.errs) {
      WaitsInside(p.errs, p.errs, made.p.errs, q.errs);
      WaitsInside(p.errs, made.p.errs, u.errs, q.errs);
    }
    Unwanted(s, gvk, c, existing, k);
    assert Live(q.w, gvk, k) == Live(u.w, gvk, k);
    if k in made.updates {
      MadeBefore(s, gvk, c, existing, p, k);
      assert UpdatedAt(s, gvk, made.existing[k], c.objs[k], k, made.p, u);
    } else {
      assert CreatedAt(s, gvk, c.objs[k], k, Creating(p, existing, c.update), made);
      assert Live(u.w, gvk, k) == Live(made.p.w, gvk, k);
      NotLate(made.updates, c.update, k);
    }
  }

  lemma NotLate(all: seq<Key>, first: seq<Key>, k: Key)
    requires first <= all && k !in all
    ensures k !in all[|first|..]
  {
  }

  /** An object to be updated has not been touched by the create phase. */
  lemma MadeBefore(s: Setup, gvk: GVK, c: Choice, existing: Objs, p: Progress, k: Key)
    requires Lists(s, gvk, c, existing) && k in c.objs
    requires Fresh(p.w.objects, gvk, existing) && Stored(p.w.objects)
    requires Creation(s, gvk, c.objs, c.create, Creating(p, existing, c.update), Made(s, gvk, c, existing, p))
    requires k in Made(s, gvk, c, existing, p).updates
    ensures Live(Made(s, gvk, c, existing, p).p.w, gvk, k) == Live(p.w, gvk, k)
  {
    hide Lists, Fresh, Stored, Prepare;
    var made := Made(s, gvk, c, existing, p);
    TakenOver(s, gvk, c, existing, p);
    Unwanted(s, gvk, c, existing, k);
    if k in c.create {
      assert CreatedAt(s, gvk, c.objs[k], k, Creating(p, existing, c.update), made);
    }
  }

  /** The keys to update after the create phase, and what is known of their live objects. */
  lemma TakenOver(s: Setup, gvk: GVK, c: Choice, existing: Objs, p: Progress)
    requires Lists(s, gvk, c, existing)
    requires Stored(p.w.objects) && Fresh(p.w.objects, gvk, existing)
    ensures var made := Made(s, gvk, c, existing, p);
      && Distinct(made.updates)
      && (forall k :: k in c.update ==> k in made.updates && Find(made.existing, k) == Find(existing, k))
      && (forall k :: k in made.updates && k !in c.update ==> k in made.updates[|c.update|..])
      && (forall k :: k in made.updates ==>
          && k in made.existing && made.existing[k].MetaKey() == k
          && Live(made.p.w, gvk, k).Some?
          && made.existing[k] == Live(made.p.w, gvk, k).value.As(gvk))
  {
    var made := Made(s, gvk, c, existing, p);
    var c0 := Creating(p, existing, c.update);
    CreateAllDoes(s, gvk, c.objs, c.create, c0);
    var late := made.updates[|c.update|..];
    assert made.updates == c.update + late;
    forall k | k in made.updates
      ensures k in c.update <==> k !in late
      ensures k in made.existing && made.existing[k].MetaKey() == k
      ensures Live(made.p.w, gvk, k).Some? && made.existing[k] == Live(made.p.w, gvk, k).value.As(gvk)
    {
      if k in c.update {
        assert k in Elements(c.update) && k !in Elements(c.create);
        assert Find(made.existing, k) == Find(existing, k);
      } else {
        assert k in late && CreatedAt(s, gvk, c.objs[k], k, c0, made);
      }
    }
    forall k | k in c.update ensures k in made.updates && Find(made.existing, k) == Find(existing, k) {
      assert k in Elements(c.update) && k !in Elements(c.create);
    }
    forall i, j | 0 <= i < j < |made.updates| ensures made.updates[i] != made.updates[j] {
      if i < |c.update| <= j {
        assert made.updates[j] == late[j - |c.update|];
        assert made.updates[i] in c.update && made.updates[j] in late;
      } else if |c.update| <= i {
        assert late[i - |c.update|] != late[j - |c.update|];
      }
    }
  }

  // -------- one kind, from listing to pruning --------

  /** An informer shows the cluster as it is when the kind is processed. */
  ghost predicate UpToDate(s: Setup, gvk: GVK, w: World) {
    gvk in s.informers ==> s.cache(gvk, |w.calls|) == View(w.objects, gvk)
  }

  /** The listing of a kind that is not refused, if it succeeds. */
  function Found(s: Setup, gvk: GVK, c: Choice, w: World): Option<Objs> {
    if Refused(s, gvk) then None else Listing(s, gvk, c.objs.Keys, w).1
  }

  ghost predicate KindEffect(s: Setup, gvk: GVK, c: Choice, r: Run, r': Run) {
    var found := Found(s, gvk, c, r.w);
    if found.None? then
      r'.w.objects == r.w.objects && r.errs < r'.errs && r.w.calls <= r'.w.calls
    else
      && Fresh(r.w.objects, gvk, found.value)
      && Lists(s, gvk, c, found.value)
      && Effect(s, gvk, c, Progress(r.w, r.errs), Progress(r'.w, r'.errs))
  }

  lemma KindDoes(s: Setup, gvk: GVK, raw: Objs, c: Choice, r: Run)
    requires Stored(r.w.objects) && UpToDate(s, gvk, r.w)
    requires WellKeyed(raw) && Legal(s, gvk, raw, r.w, c)
    ensures KindEffect(s, gvk, c, r, ProcessKind(s, false, gvk, raw, c, r))
    ensures Stored(ProcessKind(s, false, gvk, raw, c, r).w.objects)
  {
    var found := Found(s, gvk, c, r.w);
    if found.Some? {
      ListingIsFresh(s, gvk, c, r.w);
      var w := Listing(s, gvk, c.objs.Keys, r.w).0;
      WriteDoes(s, gvk, c, found.value, Progress(w, r.errs));
      var q := Write(s, gvk, c, found.value, Progress(w, r.errs));
      EffectFrom(s, gvk, c, Progress(w, r.errs), Progress(r.w, r.errs), q);
      NormalisedFacts(s, gvk, raw, c.objs);
      EffectStores(s, gvk, c, Progress(r.w, r.errs), q);
    }
  }

  lemma ListingIsFresh(s: Setup, gvk: GVK, c: Choice, w: World)
    requires Stored(w.objects) && UpToDate(s, gvk, w) && Found(s, gvk, c, w).Some?
    ensures Fresh(w.objects, gvk, Found(s, gvk, c, w).value)
    ensures Listing(s, gvk, c.objs.Keys, w).0.objects == w.objects
    ensures w.calls <= Listing(s, gvk, c.objs.Keys, w).0.calls
  {
  }

  lemma EffectFrom(s: Setup, gvk: GVK, c: Choice, p: Progress, p0: Progress, q: Progress)
    requires Effect(s, gvk, c, p, q)
    requires p0.w.objects == p.w.objects && p0.errs == p.errs && p0.w.calls <= p.w.calls
    ensures Effect(s, gvk, c, p0, q)
  {
    forall k ensures Live(p0.w, gvk, k) == Live(p.w, gvk, k) {}
  }

  /** The normalised object is a declared one but for its namespace and its owners. */
  ghost predicate From(raw: Objs, o: Object) {
    exists j :: j in raw && o.(ns := raw[j].ns, owners := raw[j].owners) == raw[j]
  }

  lemma NormalisedFacts(s: Setup, gvk: GVK, raw: Objs, objs: Objs)
    requires !Refused(s, gvk) && WellKeyed(raw) && Normalised(s, gvk, raw, objs)
    ensures WellKeyed(objs)
    ensures forall k :: k in objs ==> From(raw, objs[k])
  {
    var mid := Adopted(s, gvk, raw);
    forall k | k in mid ensures mid[k].MetaKey() == k && From(raw, mid[k]) {
      AdoptedKeeps(s, gvk, raw, k);
    }
    forall k | k in objs ensures objs[k].MetaKey() == k && From(raw, objs[k]) {
      var j: Key;
      if s.scopes[gvk] {
        j := Defaulting(s.defaultNs).Source(mid, k);
        DefaultingKeeps(s.defaultNs, mid, k);
      } else {
        j := ClearingKeeps(mid, objs, k);
      }
      FromAgain(raw, mid[j], objs[k]);
    }
  }

  lemma FromAgain(raw: Objs, o: Object, o': Object)
    requires From(raw, o) && o'.(ns := o.ns) == o
    ensures From(raw, o')
  {
    var j :| j in raw && o.(ns := raw[j].ns, owners := raw[j].owners) == raw[j];
    assert o'.(ns := raw[j].ns, owners := raw[j].owners) == raw[j];
  }

  lemma AdoptedKeeps(s: Setup, gvk: GVK, raw: Objs, k: Key)
    requires !Refused(s, gvk) && WellKeyed(raw) && k in Adopted(s, gvk, raw)
    ensures Adopted(s, gvk, raw)[k].MetaKey() == k && From(raw, Adopted(s, gvk, raw)[k])
  {
    var mid := Adopted(s, gvk, raw);
    var j := k;
    if s.setOwnerReference && s.owner.Some? {
      var own := OwnershipOf(s);
      OwnersAfter(own, s.scopes[gvk], raw, k);
      j := Adoption(own, s.scopes[gvk]).Source(raw, k);
    }
    assert j in raw && mid[k].(ns := raw[j].ns, owners := raw[j].owners) == raw[j];
  }

  lemma ClearingKeeps(mid: Objs, objs: Objs, k: Key) returns (j: Key)
    requires WellKeyed(mid) && Cleared(mid, objs) && k in objs
    ensures j in mid && objs[k].(ns := mid[j].ns) == mid[j] && objs[k].MetaKey() == k
  {
    assert ClearedFrom(mid, {}, k.name, objs[k]);
    if i :| i in mid && i.name == k.name && i.ns != "" && objs[k] == mid[i].(ns := "") {
      j := i;
    } else {
      j := Key("", k.name);
    }
  }

  lemma DefaultingKeeps(ns: string, mid: Objs, k: Key)
    requires WellKeyed(mid) && k in Defaulting(ns).All(mid)
    ensures var j := Defaulting(ns).Source(mid, k);
      && j in mid && Defaulting(ns).All(mid)[k].MetaKey() == k
      && Defaulting(ns).All(mid)[k].(ns := mid[j].ns) == mid[j]
  {
    var v := Defaulting(ns);
    var j0 :| j0 in mid && v.Target(j0) == k;
    var j := v.Source(mid, k);
    assert mid[j].MetaKey() == j;
  }

  /** A kind is refused, which is reported and nothing else, if discovery does not know it or the owner's kind
      where that matters, if it has no informer where only informers will do, or if it is not namespaced where
      only namespaced kinds are allowed; any other kind of an owned set, without informer, is listed first. */
  lemma RefusedOrListed(s: Setup, gvk: GVK, raw: Objs, c: Choice, r: Run)
    requires Stored(r.w.objects) && UpToDate(s, gvk, r.w) && WellKeyed(raw) && Legal(s, gvk, raw, r.w, c)
    ensures var r' := ProcessKind(s, false, gvk, raw, c, r);
      if || gvk !in s.scopes || (s.strictCaching && gvk !in s.informers)
         || (s.restrictClusterScoped && !s.scopes[gvk])
         || (s.setOwnerReference && s.owner.Some? && s.owner.value.gvk !in s.scopes)
      then r' == r.(errs := r.errs + [Refusal(gvk)])
      else gvk !in s.informers && s.owner.Some? ==>
        |r.w.calls| < |r'.w.calls| && r'.w.calls[|r.w.calls|] == ListCall(gvk)
  {
    hide Write, Lists, Normalised;
    var found := Found(s, gvk, c, r.w);
    if !Refused(s, gvk) && found.Some? {
      ListingIsFresh(s, gvk, c, r.w);
      WriteDoes(s, gvk, c, found.value, Progress(Listing(s, gvk, c.objs.Keys, r.w).0, r.errs));
    }
  }

  /** Objects stay filed under their own keys. */
  lemma EffectStores(s: Setup, gvk: GVK, c: Choice, p: Progress, q: Progress)
    requires Stored(p.w.objects) && Effect(s, gvk, c, p, q)
    requires forall k :: k in c.objs ==> c.objs[k].MetaKey() == k
    ensures Stored(q.w.objects)
  {
    forall id | id in q.w.objects ensures q.w.objects[id].MetaKey() == id.key {
      assert Find(q.w.objects, id) == Some(q.w.objects[id]);
      if id.gk == gvk.GK() && id.key in c.objs {
        assert MayBecome(s, gvk, c.objs[id.key], Live(p.w, gvk, id.key), Live(q.w, gvk, id.key));
      } else if id.gk == gvk.GK() && id.key in c.delete {
        assert Live(q.w, gvk, id.key) == Live(p.w, gvk, id.key);
      } else {
        assert Find(q.w.objects, id) == Find(p.w.objects, id);
      }
    }
  }
}
