/** A dry run against the real run it predicts. */
module DryRun {
  import opened Common
  import opened Json
  import opened Kube
  import opened Patches
  import opened Engine
  import opened EngineFacts
  import opened Isolation

  /** A dry run asks the server for listings and nothing else, and leaves every object as it is. */
  lemma {:induction false} DryRunOnlyLists(s: Setup, order: seq<GVK>, raws: map<GVK, Objs>, choices: seq<Choice>,
                                           states: seq<Run>, n: nat)
    requires IsRun(s, true, order, raws, choices, states) && n <= |order|
    ensures states[n].w.objects == states[0].w.objects
    ensures states[0].w.calls <= states[n].w.calls
    ensures forall j :: |states[0].w.calls| <= j < |states[n].w.calls| ==> states[n].w.calls[j].ListCall?
  {
    hide ProcessKind, Legal;
    if n > 0 {
      DryRunOnlyLists(s, order, raws, choices, states, n - 1);
      DryKind(s, order[n - 1], Raw(raws, order[n - 1]), choices[n - 1], states[n - 1]);
    }
  }

  /** The world and the lists are settled before the updates are planned. */
  lemma {:induction false} PlanningIsPure(s: Setup, gvk: GVK, objs: Objs, existing: Objs, keys: seq<Key>, r: Run)
    requires forall k :: k in keys ==> k in objs && k in existing
    ensures var r' := PlanAll(s, gvk, objs, existing, keys, r);
      && r'.w == r.w && r.errs <= r'.errs
      && r'.plan.create == r.plan.create && r'.plan.delete == r.plan.delete
      && forall g :: g != gvk ==> Find(r'.plan.update, g) == Find(r.plan.update, g)
  {
    hide Change;
    if keys != [] {
      PlanningIsPure(s, gvk, objs, existing, keys[..|keys| - 1], r);
    }
  }

  lemma DryKind(s: Setup, gvk: GVK, raw: Objs, c: Choice, r: Run)
    requires Legal(s, gvk, raw, r.w, c)
    ensures var r' := ProcessKind(s, true, gvk, raw, c, r);
      && r'.w.objects == r.w.objects
      && (r'.w.calls == r.w.calls || r'.w.calls == r.w.calls + [ListCall(gvk)])
      && (Found(s, gvk, c, r.w).Some? ==>
          && r'.plan.create == r.plan.create[gvk := c.create]
          && r'.plan.delete == r.plan.delete[gvk := c.delete])
  {
    hide PlanAll, Normalised, Ordered;
    var found := Found(s, gvk, c, r.w);
    if found.Some? {
      var w := Listing(s, gvk, c.objs.Keys, r.w).0;
      var plan := r.plan.(create := r.plan.create[gvk := c.create], delete := r.plan.delete[gvk := c.delete]);
      UpdatesListed(s, gvk, c, found.value);
      PlanningIsPure(s, gvk, c.objs, found.value, c.update, r.(w := w, plan := plan));
    }
  }

  lemma UpdatesListed(s: Setup, gvk: GVK, c: Choice, existing: Objs)
    requires Lists(s, gvk, c, existing)
    ensures forall k :: k in c.update ==> k in c.objs && k in existing
  {
    assert forall k :: k in c.update ==> k in Elements(c.update);
  }

  // -------- the lists --------

  /** No two of these keys are written the same way; names and namespaces hold no slash. */
  ghost predicate TextsDiffer(keys: set<Key>) {
    forall a, b :: a in keys && b in keys && a.Text() == b.Text() ==> a == b
  }

  lemma {:induction false} LessIsStrict(a: string, b: string)
    ensures !(StringLess(a, b) && StringLess(b, a))
    ensures !StringLess(a, b) && !StringLess(b, a) ==> a == b
  {
    if a != [] && b != [] {
      LessIsStrict(a[1..], b[1..]);
      assert a == [a[0]] + a[1..] && b == [b[0]] + b[1..];
    }
  }

  /** The last key of an ordered listing is the greatest. */
  lemma LastIsGreatest(a: seq<Key>, all: set<Key>, k: Key)
    requires Ordered(a, all) && a != [] && k in all
    ensures a[|a| - 1] in all && NotAfter(k, a[|a| - 1])
  {
    assert k in Elements(a) && a[|a| - 1] in Elements(a);
    LessIsStrict(k.Text(), k.Text());
  }

  lemma SameLast(a: seq<Key>, b: seq<Key>, all: set<Key>)
    requires Ordered(a, all) && Ordered(b, all) && TextsDiffer(all) && a != []
    ensures b != [] && a[|a| - 1] == b[|b| - 1]
  {
    hide StringLess, Ordered;
    var m, n := |a| - 1, |b| - 1;
    SameLength(a, b, all);
    InAll(a, all, m);
    LastIsGreatest(a, all, a[m]);
    LastIsGreatest(b, all, a[m]);
    InAll(b, all, n);
    LastIsGreatest(a, all, b[n]);
    LessIsStrict(a[m].Text(), b[n].Text());
  }

  lemma InAll(a: seq<Key>, all: set<Key>, i: nat)
    requires Ordered(a, all) && i < |a|
    ensures a[i] in all
  {
    assert a[i] in Elements(a);
  }

  lemma SameLength(a: seq<Key>, b: seq<Key>, all: set<Key>)
    requires Ordered(a, all) && Ordered(b, all)
    ensures a == [] <==> b == []
  {
    if a != [] {
      assert a[0] in Elements(a) && Elements(a) == Elements(b);
    }
    if b != [] {
      assert b[0] in Elements(b) && Elements(a) == Elements(b);
    }
  }

  /** A set has one ordered listing. */
  lemma {:induction false} OneOrder(a: seq<Key>, b: seq<Key>, all: set<Key>)
    requires Ordered(a, all) && Ordered(b, all) && TextsDiffer(all)
    ensures a == b
    decreases |a|
  {
    hide Ordered, TextsDiffer;
    SameLength(a, b, all);
    if a != [] {
      var m, n := |a| - 1, |b| - 1;
      SameLast(a, b, all);
      ButLast(a, all);
      ButLast(b, all);
      FewerTexts(all, a[m]);
      OneOrder(a[..m], b[..n], all - {a[m]});
      assert a == a[..m] + [a[m]] && b == b[..n] + [b[n]];
    }
  }

  lemma FewerTexts(all: set<Key>, k: Key)
    requires TextsDiffer(all)
    ensures TextsDiffer(all - {k})
  {
  }

  lemma ButLast(a: seq<Key>, all: set<Key>)
    requires Ordered(a, all) && a != []
    ensures Ordered(a[..|a| - 1], all - {a[|a| - 1]})
  {
    hide NotAfter, StringLess;
    LastIsNew(a);
    LastIsDistinct(a);
    assert Elements(a[..|a| - 1]) == all - {a[|a| - 1]};
  }

  /** On one snapshot of the cluster, the lists a dry run reports are the lists a real run works through. */
  lemma SameLists(s: Setup, gvk: GVK, w: World, c: Choice, d: Choice)
    requires Found(s, gvk, c, w).Some? && c.objs.Keys == d.objs.Keys
    requires Lists(s, gvk, c, Found(s, gvk, c, w).value) && Lists(s, gvk, d, Found(s, gvk, d, w).value)
    ensures Elements(c.create) == Elements(d.create) && Elements(c.delete) == Elements(d.delete)
    ensures TextsDiffer(Elements(c.create) + Elements(c.delete)) ==> c.create == d.create && c.delete == d.delete
  {
    hide Ordered, Listing;
    var existing := Found(s, gvk, c, w).value;
    assert existing == Found(s, gvk, d, w).value;
    assert Elements(c.create) == Elements(d.create) == c.objs.Keys - existing.Keys by {
      OrderedElements(c.create, c.objs.Keys - existing.Keys);
      OrderedElements(d.create, c.objs.Keys - existing.Keys);
    }
    var gone := ToDelete(s, gvk, c.objs.Keys, existing);
    assert Elements(c.delete) == Elements(d.delete) == gone by {
      OrderedElements(c.delete, gone);
      OrderedElements(d.delete, gone);
    }
    if TextsDiffer(Elements(c.create) + Elements(c.delete)) {
      OneOrder(c.create, d.create, c.objs.Keys - existing.Keys);
      OneOrder(c.delete, d.delete, gone);
    }
  }

  lemma OrderedElements(keys: seq<Key>, all: set<Key>)
    requires Ordered(keys, all)
    ensures Elements(keys) == all
  {
  }

  // -------- the updates --------

  /** A reported update: a patch that a real run would send or hand to its reconciler, less the
      bookkeeping annotations. */
  ghost predicate Reported(s: Setup, gvk: GVK, live: Object, want: Object, patch: Record) {
    var change := Change(s, gvk, live, want);
    && change.Some? && change.value != map[]
    && patch == Sanitized(change.value, true) && patch != map[]
  }

  function PlannedAt(r: Run, gvk: GVK, k: Key): Option<Record> {
    if gvk in r.plan.update then Find(r.plan.update[gvk], k) else None
  }

  ghost predicate Reportable(s: Setup, gvk: GVK, live: Object, want: Object) {
    exists patch :: Reported(s, gvk, live, want, patch)
  }

  /** In a dry run an object is noted, and so is, under its own key, the patch it would be sent, exactly if there
      is one to report; the world and every other note are left alone. */
  lemma PlanOneDoes(s: Setup, gvk: GVK, live: Object, want: Object, k: Key, r: Run, j: Key)
    ensures var r' := PlanOne(s, gvk, live, want, k, r);
      && r'.w == r.w && r'.plan.create == r.plan.create && r'.plan.delete == r.plan.delete
      && r'.plan.seen == r.plan.seen + [live]
      && r'.errs == r.errs + (if Change(s, gvk, live, want).None? then [UpdateFailed(gvk, k)] else [])
      && (forall g :: g != gvk ==> Find(r'.plan.update, g) == Find(r.plan.update, g))
      && if j == live.MetaKey() && Reportable(s, gvk, live, want)
         then PlannedAt(r', gvk, j).Some? && Reported(s, gvk, live, want, PlannedAt(r', gvk, j).value)
         else PlannedAt(r', gvk, j) == PlannedAt(r, gvk, j)
  {
    hide Change;
    var change := Change(s, gvk, live, want);
    if change.Some? && change.value != map[] && Sanitized(change.value, true) != map[] {
      assert Reported(s, gvk, live, want, Sanitized(change.value, true));
    }
  }

  /** The listed objects of these keys. */
  function Listed(existing: Objs, keys: seq<Key>): seq<Object>
    requires forall k :: k in keys ==> k in existing
  {
    if keys == [] then [] else Listed(existing, keys[..|keys| - 1]) + [existing[keys[|keys| - 1]]]
  }

  /** The listed objects of the keys to update are noted, and exactly those with something to report are reported
      as updates, each with the change a real run works on. */
  lemma {:induction false} ReportedUpdates(s: Setup, gvk: GVK, objs: Objs, existing: Objs, keys: seq<Key>, r: Run,
                                           k: Key)
    requires forall k :: k in keys ==> k in objs && k in existing && existing[k].MetaKey() == k
    requires PlannedAt(r, gvk, k) == None
    ensures var r' := PlanAll(s, gvk, objs, existing, keys, r);
      var planned := PlannedAt(r', gvk, k);
      && r'.plan.seen == r.plan.seen + Listed(existing, keys)
      && (planned.Some? <==> k in keys && Reportable(s, gvk, existing[k], objs[k]))
      && (planned.Some? ==> Reported(s, gvk, existing[k], objs[k], planned.value))
  {
    hide Reported, Reportable, PlanOne;
    if keys != [] {
      var n := |keys| - 1;
      ReportedUpdates(s, gvk, objs, existing, keys[..n], r, k);
      PlanOneDoes(s, gvk, existing[keys[n]], objs[keys[n]], keys[n], PlanAll(s, gvk, objs, existing, keys[..n], r), k);
    }
  }

  /** What the update loop does about one of its keys, whatever calls fail and however old the object it
      decides about. */
  ghost predicate ActsOn(s: Setup, gvk: GVK, live: Object, want: Object, k: Key, p: Progress, q: Progress)
    requires |p.errs| <= |q.errs|
  {
    match Decide(s, gvk, live, want)
    case Send(_) => Called(p, q, PatchCall(Id(gvk.GK(), k)))
    case Replaced => Called(p, q, DeleteCall(Id(gvk.GK(), k), true)) && ReplaceWait(gvk, k) in q.errs[|p.errs|..]
    case Failed => UpdateFailed(gvk, k) in q.errs[|p.errs|..]
    case _ => true
  }

  lemma {:induction false} UpdatesAct(s: Setup, gvk: GVK, objs: Objs, existing: Objs, keys: seq<Key>, p: Progress,
                                      k: Key)
    requires forall j :: j in keys ==> j in objs && j in existing && existing[j].MetaKey() == j
    ensures var q := UpdateAll(s, gvk, objs, existing, keys, p);
      Grows(p, q) && (k in keys ==> |p.errs| <= |q.errs| && ActsOn(s, gvk, existing[k], objs[k], k, p, q))
  {
    hide UpdateOne, ActsOn;
    if keys != [] {
      var n := |keys| - 1;
      var m, q := UpdateAll(s, gvk, objs, existing, keys[..n], p), UpdateAll(s, gvk, objs, existing, keys, p);
      UpdatesAct(s, gvk, objs, existing, keys[..n], p, k);
      UpdateOneActs(s, gvk, existing[keys[n]], objs[keys[n]], keys[n], m);
      if k in keys[..n] {
        ActsWithin(s, gvk, existing[k], objs[k], k, p, p, m, q);
      } else if k in keys {
        ActsWithin(s, gvk, existing[k], objs[k], k, p, m, q, q);
      }
    }
  }

  lemma UpdateOneActs(s: Setup, gvk: GVK, live: Object, want: Object, k: Key, p: Progress)
    requires live.MetaKey() == k
    ensures var q := UpdateOne(s, gvk, live, want, k, p);
      Grows(p, q) && |p.errs| <= |q.errs| && ActsOn(s, gvk, live, want, k, p, q)
  {
    hide Change, VerdictOn;
    var q := UpdateOne(s, gvk, live, want, k, p);
    match Decide(s, gvk, live, want)
    case Send(_) => assert q.w.calls[|p.w.calls|] == PatchCall(Id(gvk.GK(), k));
    case Replaced =>
      assert q.w.calls[|p.w.calls|] == DeleteCall(Id(gvk.GK(), k), true);
      assert q.errs[|p.errs|..][|q.errs| - 1 - |p.errs|] == ReplaceWait(gvk, k);
    case Failed => assert q.errs[|p.errs|..][0] == UpdateFailed(gvk, k);
    case _ =>
  }

  lemma ActsWithin(s: Setup, gvk: GVK, live: Object, want: Object, k: Key, p: Progress, m: Progress, u: Progress,
                   q: Progress)
    requires Grows(p, m) && Grows(m, u) && Grows(u, q) && ActsOn(s, gvk, live, want, k, m, u)
    ensures Grows(p, q) && ActsOn(s, gvk, live, want, k, p, q)
  {
    hide Decide;
    NewErrors(p.errs, m.errs, u.errs, q.errs);
    forall call | Called(m, u, call) ensures Called(p, q, call) {
      var i :| |m.w.calls| <= i < |u.w.calls| && u.w.calls[i] == call;
      assert q.w.calls[i] == call;
    }
  }

  lemma NewErrors(a: seq<Err>, b: seq<Err>, c: seq<Err>, d: seq<Err>)
    requires a <= b <= c <= d
    ensures forall e :: e in c[|b|..] ==> e in d[|a|..]
  {
    forall e | e in c[|b|..] ensures e in d[|a|..] {
      var i :| 0 <= i < |c[|b|..]| && c[|b|..][i] == e;
      assert d[|a|..][i + |b| - |a|] == e;
    }
  }

  /** The updates of a real pass over a kind, as its listing shows the objects. */
  lemma ListedUpdatesAct(s: Setup, gvk: GVK, raw: Objs, d: Choice, r: Run, k: Key)
    requires Legal(s, gvk, raw, r.w, d) && Found(s, gvk, d, r.w).Some?
    requires WellKeyed(d.objs) && WellKeyed(Found(s, gvk, d, r.w).value) && Stored(r.w.objects)
    requires k in d.update
    ensures var existing, actual := Found(s, gvk, d, r.w).value, ProcessKind(s, false, gvk, raw, d, r);
      && k in existing && k in d.objs && |r.errs| <= |actual.errs|
      && ActsOn(s, gvk, existing[k], d.objs[k], k, Progress(r.w, r.errs), Progress(actual.w, actual.errs))
  {
    hide Decide, Normalised, Listing, Ordered, ActsOn, CreateAll, UpdateAll, DeleteAll;
    var existing := Found(s, gvk, d, r.w).value;
    var w := Listing(s, gvk, d.objs.Keys, r.w).0;
    var p := Progress(w, r.errs);
    var made := Made(s, gvk, d, existing, p);
    UpdatesListed(s, gvk, d, existing);
    ListGrows(s, gvk, d, r.w);
    CreateLists(s, gvk, d, existing);
    CreateCalls(s, gvk, d, existing, r.w.objects, d.create, Creating(p, existing, d.update));
    CreateGrows(s, gvk, d.objs, d.create, Creating(p, existing, d.update));
    assert made.updates[..|d.update|] == d.update;
    assert k in made.updates;
    assert Find(made.existing, k) == Find(existing, k);
    var u := UpdateAll(s, gvk, d.objs, made.existing, made.updates, made.p);
    UpdatesAct(s, gvk, d.objs, made.existing, made.updates, made.p, k);
    DeleteGrows(s, gvk, d.delete, u);
    ActsWithin(s, gvk, existing[k], d.objs[k], k, Progress(r.w, r.errs), made.p, u, DeleteAll(s, gvk, d.delete, u));
  }

  lemma ListGrows(s: Setup, gvk: GVK, d: Choice, w: World)
    requires Found(s, gvk, d, w).Some?
    ensures var w' := Listing(s, gvk, d.objs.Keys, w).0; w'.objects == w.objects && w.calls <= w'.calls
  {
    hide View;
  }

  lemma CreateLists(s: Setup, gvk: GVK, c: Choice, existing: Objs)
    requires Lists(s, gvk, c, existing)
    ensures Distinct(c.create) && forall k :: k in c.create ==> k in c.objs && k !in existing
  {
    assert forall k :: k in c.create ==> k in Elements(c.create);
  }

  lemma {:induction false} CreateGrows(s: Setup, gvk: GVK, objs: Objs, keys: seq<Key>, c: Creating)
    requires forall k :: k in keys ==> k in objs
    ensures Grows(c.p, CreateAll(s, gvk, objs, keys, c).p)
  {
    hide CreateOne;
    if keys != [] {
      CreateGrows(s, gvk, objs, keys[..|keys| - 1], c);
      CreateOneDoes(s, gvk, objs, keys[|keys| - 1], CreateAll(s, gvk, objs, keys[..|keys| - 1], c));
    }
  }

  lemma {:induction false} DeleteGrows(s: Setup, gvk: GVK, keys: seq<Key>, p: Progress)
    ensures Grows(p, DeleteAll(s, gvk, keys, p))
  {
    hide DeleteOne;
    if keys != [] {
      DeleteGrows(s, gvk, keys[..|keys| - 1], p);
      DeleteOneDoes(s, gvk, keys[|keys| - 1], DeleteAll(s, gvk, keys[..|keys| - 1], p));
    }
  }

  /** The update of a key is made: by a patch, by a forced delete where replacement is demanded, by its
      reconciler, or it fails and is reported. */
  ghost predicate Heeded(s: Setup, gvk: GVK, live: Object, want: Object, k: Key, before: Progress, after: Progress) {
    match VerdictOn(s, gvk, live, want)
    case Accept =>
      if gvk in s.replaceOnChange then Called(before, after, DeleteCall(Id(gvk.GK(), k), true))
      else Called(before, after, PatchCall(Id(gvk.GK(), k)))
    case Replace => Called(before, after, DeleteCall(Id(gvk.GK(), k), true))
    case Refuse => |before.errs| <= |after.errs| && UpdateFailed(gvk, k) in after.errs[|before.errs|..]
    case Handled => true
  }

  lemma ReportedIsHeeded(s: Setup, gvk: GVK, live: Object, want: Object, k: Key, patch: Record, p: Progress,
                         q: Progress)
    requires Reported(s, gvk, live, want, patch) && |p.errs| <= |q.errs| && ActsOn(s, gvk, live, want, k, p, q)
    ensures Heeded(s, gvk, live, want, k, p, q)
  {
    hide Change, VerdictOn, Called;
  }

  /** Dry run and real run of one kind from one state: the create and delete lists agree, the listed objects to
      update are noted, the plan reports exactly those of them that have something to report, and of every key it
      reports the real run takes care, whatever calls fail: it sends a patch or, where
      replacement is demanded, a forced delete; unless its reconciler does it all, or fails, which is
      reported. */
  lemma DryRunPredicts(s: Setup, gvk: GVK, raw: Objs, c: Choice, d: Choice, r: Run, k: Key)
    requires Legal(s, gvk, raw, r.w, c) && Legal(s, gvk, raw, r.w, d) && d.objs == c.objs
    requires Found(s, gvk, c, r.w).Some? && WellKeyed(Found(s, gvk, c, r.w).value)
    requires WellKeyed(raw) && Stored(r.w.objects) && PlannedAt(r, gvk, k) == None
    ensures var existing := Found(s, gvk, c, r.w).value;
      var dry, actual := ProcessKind(s, true, gvk, raw, c, r), ProcessKind(s, false, gvk, raw, d, r);
      var before, after := Progress(r.w, r.errs), Progress(actual.w, actual.errs);
      && Find(dry.plan.create, gvk) == Some(c.create) && Elements(c.create) == Elements(d.create)
      && Find(dry.plan.delete, gvk) == Some(c.delete) && Elements(c.delete) == Elements(d.delete)
      && (forall j :: j in c.update ==> j in existing && j in c.objs)
      && dry.plan.seen == r.plan.seen + Listed(existing, c.update)
      && (PlannedAt(dry, gvk, k).Some? <==> k in c.update && Reportable(s, gvk, existing[k], c.objs[k]))
      && (PlannedAt(dry, gvk, k).Some? ==>
          && Reported(s, gvk, existing[k], c.objs[k], PlannedAt(dry, gvk, k).value)
          && k in d.update && Heeded(s, gvk, existing[k], d.objs[k], k, before, after))
  {
    hide Lists, Listing, Normalised, PlanKind, Write, Reported, Reportable, ActsOn, Heeded;
    var existing := Found(s, gvk, c, r.w).value;
    var dry, actual := ProcessKind(s, true, gvk, raw, c, r), ProcessKind(s, false, gvk, raw, d, r);
    SameFound(s, gvk, c, d, r.w);
    SameLists(s, gvk, r.w, c, d);
    DryKind(s, gvk, raw, c, r);
    PlannedIsReported(s, gvk, raw, c, r, k);
    if PlannedAt(dry, gvk, k).Some? {
      SameUpdates(s, gvk, c, d, existing);
      NormalisedFacts(s, gvk, raw, d.objs);
      ListedUpdatesAct(s, gvk, raw, d, r, k);
      ReportedIsHeeded(s, gvk, existing[k], d.objs[k], k, PlannedAt(dry, gvk, k).value,
                       Progress(r.w, r.errs), Progress(actual.w, actual.errs));
    }
  }

  lemma SameUpdates(s: Setup, gvk: GVK, c: Choice, d: Choice, existing: Objs)
    requires Lists(s, gvk, c, existing) && Lists(s, gvk, d, existing) && d.objs == c.objs
    ensures forall k :: k in c.update <==> k in d.update
  {
    OrderedElements(c.update, c.objs.Keys * existing.Keys);
    OrderedElements(d.update, c.objs.Keys * existing.Keys);
    forall k ensures k in c.update <==> k in d.update {
      assert k in c.update <==> k in Elements(c.update);
      assert k in d.update <==> k in Elements(d.update);
    }
  }

  lemma PlannedIsReported(s: Setup, gvk: GVK, raw: Objs, c: Choice, r: Run, k: Key)
    requires Legal(s, gvk, raw, r.w, c) && Found(s, gvk, c, r.w).Some? && WellKeyed(Found(s, gvk, c, r.w).value)
    requires PlannedAt(r, gvk, k) == None
    ensures var existing := Found(s, gvk, c, r.w).value;
      var dry := ProcessKind(s, true, gvk, raw, c, r);
      var planned := PlannedAt(dry, gvk, k);
      && (forall j :: j in c.update ==> j in existing && j in c.objs)
      && dry.plan.seen == r.plan.seen + Listed(existing, c.update)
      && (planned.Some? <==> k in c.update && Reportable(s, gvk, existing[k], c.objs[k]))
      && (planned.Some? ==> Reported(s, gvk, existing[k], c.objs[k], planned.value))
  {
    hide Reported, Reportable, Listing, Normalised, Ordered, PlanAll;
    var existing := Found(s, gvk, c, r.w).value;
    UpdatesListed(s, gvk, c, existing);
    var plan := r.plan.(create := r.plan.create[gvk := c.create], delete := r.plan.delete[gvk := c.delete]);
    ReportedUpdates(s, gvk, c.objs, existing, c.update,
                    r.(w := Listing(s, gvk, c.objs.Keys, r.w).0).(plan := plan), k);
  }

  lemma SameFound(s: Setup, gvk: GVK, c: Choice, d: Choice, w: World)
    requires c.objs == d.objs
    ensures Found(s, gvk, c, w) == Found(s, gvk, d, w)
  {
  }
}
