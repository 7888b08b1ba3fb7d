/** desiredSet as the code has it: an object that works on a cluster step by step.  Every method is
    proved to do what the functions of module Engine say. */
module DesiredSet {
  import opened Common
  import opened Json
  import opened Kube
  import opened Patches
  import opened Namespaces
  import opened Engine
  import opened Sorting

  /** The API server. */
  class Cluster {
    var objects: map<Id, Object>
    var calls: seq<Call>

    function Now(): World
      reads this
    {
      World(objects, calls)
    }

    method Accept(r: Reply) returns (status: Status)
      modifies this
      ensures Now() == r.w && status == r.status
    {
      objects, calls, status := r.w.objects, r.w.calls, r.status;
    }

    method Create(s: Setup, id: Id, o: Object) returns (status: Status)
      modifies this
      ensures Reply(Now(), status) == Engine.Create(s, old(Now()), id, o)
    {
      status := Accept(Engine.Create(s, Now(), id, o));
    }

    method Get(s: Setup, id: Id) returns (status: Status, o: Option<Object>)
      modifies this
      ensures Reply(Now(), status) == Engine.Get(s, old(Now()), id)
      ensures status.Done? ==> o == Find(objects, id) && o.Some?
    {
      status := Accept(Engine.Get(s, Now(), id));
      o := if status.Done? then Find(objects, id) else None;
    }

    method Delete(s: Setup, id: Id, forced: bool) returns (status: Status)
      modifies this
      ensures Reply(Now(), status) == Engine.Delete(s, old(Now()), id, forced)
    {
      status := Accept(Engine.Delete(s, Now(), id, forced));
    }

    method Patch(s: Setup, gvk: GVK, id: Id, patch: Record) returns (status: Status)
      modifies this
      ensures Reply(Now(), status) == Engine.Patch(s, old(Now()), gvk, id, patch)
    {
      status := Accept(Engine.Patch(s, Now(), gvk, id, patch));
    }

    method List(s: Setup, gvk: GVK, desired: set<Key>) returns (found: Option<Objs>)
      requires gvk in s.scopes
      modifies this
      ensures (Now(), found) == Engine.Listing(s, gvk, desired, old(Now()))
    {
      var (w, r) := Engine.Listing(s, gvk, desired, Now());
      objects, calls, found := w.objects, w.calls, r;
    }
  }

  // -------- lists of keys --------

  method SortObjectKeys(keys: seq<Key>, ghost all: set<Key>) returns (r: seq<Key>)
    requires Distinct(keys) && Elements(keys) == all
    ensures Ordered(r, all)
  {
    r := Sort(keys, (k: Key) => k.Text());
    PermutationFacts(r, keys);
    assert forall k :: k in keys <==> k in Elements(keys);
    assert Elements(r) == all;
  }

  /** The keys of a set, once each, in the order in which they were collected. */
  ghost predicate Collects(keys: seq<Key>, all: set<Key>) {
    Distinct(keys) && Elements(keys) == all
  }

  lemma Snoc(keys: seq<Key>, all: set<Key>, k: Key)
    requires Collects(keys, all) && k !in all
    ensures Collects(keys + [k], all + {k})
  {
    assert forall j :: j in keys ==> j in Elements(keys);
    assert Elements(keys + [k]) == Elements(keys) + {k};
  }

  /** The first loop of compareSets, over the desired objects. */
  method Match(existing: Objs, objs: Objs) returns (missing: seq<Key>, matched: seq<Key>)
    ensures Collects(missing, objs.Keys - existing.Keys)
    ensures Collects(matched, objs.Keys * existing.Keys)
  {
    hide Collects;
    missing, matched := [], [];
    var todo := objs.Keys;
    ghost var created: set<Key>, updated: set<Key> := {}, {};
    NothingCollected();
    while todo != {}
      invariant todo <= objs.Keys
      invariant Collects(missing, created) && Collects(matched, updated)
      invariant forall k :: k in created <==> k in objs && k !in existing && k !in todo
      invariant forall k :: k in updated <==> k in objs && k in existing && k !in todo
      decreases |todo|
    {
      var k :| k in todo;
      todo := todo - {k};
      if k in existing {
        Snoc(matched, updated, k);
        matched, updated := matched + [k], updated + {k};
      } else {
        Snoc(missing, created, k);
        missing, created := missing + [k], created + {k};
      }
    }
    assert created == objs.Keys - existing.Keys;
    assert updated == objs.Keys * existing.Keys;
  }

  lemma NothingCollected()
    ensures Collects([], {})
  {
  }

  function Prunable(existing: Objs, objs: Objs): set<Key> {
    set k | k in existing && k !in objs && ShouldPrune(existing[k])
  }

  /** The second loop of compareSets, over the listed objects. */
  method Superfluous(existing: Objs, objs: Objs) returns (keys: seq<Key>)
    ensures Collects(keys, Prunable(existing, objs))
  {
    keys := [];
    var todo := existing.Keys;
    while todo != {}
      invariant todo <= existing.Keys
      invariant Collects(keys, Prunable(existing, objs) - todo)
      decreases |todo|
    {
      var k :| k in todo;
      ghost var gone := Prunable(existing, objs) - todo;
      todo := todo - {k};
      if k !in objs && ShouldPrune(existing[k]) {
        Snoc(keys, gone, k);
        keys := keys + [k];
        assert Prunable(existing, objs) - todo == gone + {k};
      } else {
        assert Prunable(existing, objs) - todo == gone;
      }
    }
    assert Prunable(existing, objs) - todo == Prunable(existing, objs);
  }

  method CompareSets(existing: Objs, objs: Objs) returns (toCreate: seq<Key>, toDelete: seq<Key>, toUpdate: seq<Key>)
    ensures Ordered(toCreate, objs.Keys - existing.Keys)
    ensures Ordered(toUpdate, objs.Keys * existing.Keys)
    ensures Ordered(toDelete, Prunable(existing, objs))
  {
    toCreate, toUpdate := Match(existing, objs);
    toDelete := Superfluous(existing, objs);
    toCreate := SortObjectKeys(toCreate, objs.Keys - existing.Keys);
    toDelete := SortObjectKeys(toDelete, Prunable(existing, objs));
    toUpdate := SortObjectKeys(toUpdate, objs.Keys * existing.Keys);
  }

  method FilterCrossVersion(s: Setup, gk: GroupKind, keys: seq<Key>, ghost all: set<Key>) returns (r: seq<Key>)
    requires Ordered(keys, all)
    ensures Ordered(r, set k | k in all && !Protected(s, gk, k))
  {
    r := [];
    for i := 0 to |keys|
      invariant Distinct(r) && Elements(r) == set k | k in keys[..i] && !Protected(s, gk, k)
      invariant forall a, b :: 0 <= a < b < |r| ==> NotAfter(r[a], r[b])
      invariant forall a, b :: 0 <= a < |r| && i <= b < |keys| ==> NotAfter(r[a], keys[b])
    {
      var key := keys[i];
      assert keys[..i + 1] == keys[..i] + [key] && key !in keys[..i];
      if Id(gk, key) in s.declared {
        continue;
      }
      if key.ns == s.defaultNs && Id(gk, Key("", key.name)) in s.declared {
        continue;
      }
      assert Elements(r + [key]) == Elements(r) + {key};
      r := r + [key];
    }
    assert keys[..|keys|] == keys;
    assert forall k :: k in keys <==> k in Elements(keys);
  }

  // -------- the desired set --------

  class DesiredSet {
    const cluster: Cluster
    var errs: seq<Err>
    var createPlan: bool
    var plan: Plan

    constructor (cluster: Cluster)
      ensures this.cluster == cluster && errs == [] && !createPlan
      ensures plan == Plan(map[], map[], map[], [])
    {
      this.cluster := cluster;
      errs, createPlan, plan := [], false, Plan(map[], map[], map[], []);
    }

    ghost function Done(): Progress
      reads this, cluster
    {
      Progress(cluster.Now(), errs)
    }

    ghost function Now(): Run
      reads this, cluster
    {
      Run(cluster.Now(), errs, plan)
    }

    method Fail(e: Err)
      modifies this`errs
      ensures errs == old(errs) + [e]
    {
      errs := errs + [e];
    }

    /** createF: create, or take over an object that is there already. */
    method CreateF(s: Setup, gvk: GVK, objs: Objs, k: Key, existing: Objs, toUpdate: seq<Key>)
      returns (existing': Objs, toUpdate': seq<Key>)
      requires k in objs
      modifies this`errs, cluster
      ensures Creating(Done(), existing', toUpdate') ==
        CreateOne(s, gvk, objs, k, Creating(old(Done()), existing, toUpdate))
    {
      hide Prepare;
      existing', toUpdate' := existing, toUpdate;
      var id := Id(gvk.GK(), k);
      var status := cluster.Create(s, id, Prepare(s, gvk, objs[k]));
      if status.AlreadyExists? {
        // Taking over an object that wasn't previously managed by us
        var got, o := cluster.Get(s, id);
        if got.Done? {
          toUpdate' := toUpdate + [k];
          existing' := existing[k := o.value.As(gvk)];
          return;
        }
      }
      if !status.Done? {
        Fail(CreateFailed(gvk, k));
      }
    }

    /** deleteF, with the no-delete rules of delete. */
    method DeleteF(s: Setup, gvk: GVK, k: Key, force: bool)
      modifies this`errs, cluster
      ensures Done() == DeleteOne(s, gvk, k, force, old(Done()))
    {
      if !force {
        if s.noDelete {
          return;
        }
        if gvk in s.noDeleteKinds {
          return;
        }
      }
      var status := cluster.Delete(s, Id(gvk.GK(), k), force);
      if !status.Done? {
        Fail(DeleteFailed(gvk, k));
      }
    }

    /** updateF of a real run: applyPatch, and the forced delete when replacement is demanded. */
    method UpdateF(s: Setup, gvk: GVK, live: Object, want: Object, k: Key)
      modifies this`errs, cluster
      ensures Done() == UpdateOne(s, gvk, live, want, k, old(Done()))
    {
      hide Change, VerdictOn;
      var change := Change(s, gvk, live, want);
      if change.None? {
        Fail(UpdateFailed(gvk, k));
        return;
      }
      if change.value == map[] {
        return;
      }
      match VerdictOn(s, gvk, live, want)
      case Refuse =>
        Fail(UpdateFailed(gvk, k));
      case Handled =>
      case Replace =>
        DeleteF(s, gvk, k, true);
        Fail(ReplaceWait(gvk, k));
      case Accept =>
        if gvk in s.replaceOnChange {
          DeleteF(s, gvk, k, true);
          Fail(ReplaceWait(gvk, k));
        } else {
          var status := cluster.Patch(s, gvk, Id(gvk.GK(), live.MetaKey()), change.value);
          if !status.Done? {
            Fail(UpdateFailed(gvk, k));
          }
        }
    }

    /** updateF of a dry run: no reconciler, and a patcher that only notes the patch. */
    method PlanF(s: Setup, gvk: GVK, live: Object, want: Object, k: Key)
      modifies this`errs, this`plan
      ensures Now() == PlanOne(s, gvk, live, want, k, old(Now()))
    {
      hide Change, Sanitized;
      plan := plan.(seen := plan.seen + [live]);
      var change := Change(s, gvk, live, want);
      if change.None? {
        Fail(UpdateFailed(gvk, k));
        return;
      }
      if change.value == map[] {
        return;
      }
      var data := SanitizePatch(change.value, true);
      if data != map[] {
        var updates := if gvk in plan.update then plan.update[gvk] else map[];
        plan := plan.(update := plan.update[gvk := updates[live.MetaKey() := data]]);
      }
    }

    method CreateLoop(s: Setup, gvk: GVK, objs: Objs, keys: seq<Key>, existing: Objs, toUpdate: seq<Key>)
      returns (existing': Objs, toUpdate': seq<Key>)
      requires forall k :: k in keys ==> k in objs
      modifies this`errs, cluster
      ensures Creating(Done(), existing', toUpdate') ==
        CreateAll(s, gvk, objs, keys, Creating(old(Done()), existing, toUpdate))
    {
      hide CreateOne;
      existing', toUpdate' := existing, toUpdate;
      for i := 0 to |keys|
        invariant Creating(Done(), existing', toUpdate') ==
                  CreateAll(s, gvk, objs, keys[..i], Creating(old(Done()), existing, toUpdate))
      {
        existing', toUpdate' := CreateF(s, gvk, objs, keys[i], existing', toUpdate');
        assert keys[..i + 1][..i] == keys[..i];
      }
      assert keys[..|keys|] == keys;
    }

    method UpdateLoop(s: Setup, gvk: GVK, objs: Objs, existing: Objs, keys: seq<Key>)
      requires forall k :: k in keys ==> k in objs && k in existing
      modifies this`errs, cluster
      ensures Done() == UpdateAll(s, gvk, objs, existing, keys, old(Done()))
    {
      hide UpdateOne;
      for i := 0 to |keys|
        invariant Done() == UpdateAll(s, gvk, objs, existing, keys[..i], old(Done()))
      {
        UpdateF(s, gvk, existing[keys[i]], objs[keys[i]], keys[i]);
        assert keys[..i + 1][..i] == keys[..i];
      }
      assert keys[..|keys|] == keys;
    }

    method PlanLoop(s: Setup, gvk: GVK, objs: Objs, existing: Objs, keys: seq<Key>)
      requires forall k :: k in keys ==> k in objs && k in existing
      modifies this`errs, this`plan
      ensures Now() == PlanAll(s, gvk, objs, existing, keys, old(Now()))
    {
      hide PlanOne;
      for i := 0 to |keys|
        invariant Now() == PlanAll(s, gvk, objs, existing, keys[..i], old(Now()))
      {
        PlanF(s, gvk, existing[keys[i]], objs[keys[i]], keys[i]);
        assert keys[..i + 1][..i] == keys[..i];
      }
      assert keys[..|keys|] == keys;
    }

    method DeleteLoop(s: Setup, gvk: GVK, keys: seq<Key>)
      modifies this`errs, cluster
      ensures Done() == DeleteAll(s, gvk, keys, old(Done()))
    {
      hide DeleteOne;
      for i := 0 to |keys|
        invariant Done() == DeleteAll(s, gvk, keys[..i], old(Done()))
      {
        DeleteF(s, gvk, keys[i], false);
        assert keys[..i + 1][..i] == keys[..i];
      }
      assert keys[..|keys|] == keys;
    }

    /** The first half of process: checks, owner references and namespaces. */
    method Normalise(s: Setup, gvk: GVK, raw: Objs) returns (refused: bool, objs: Objs)
      ensures refused == Refused(s, gvk)
      ensures !refused ==> Normalised(s, gvk, raw, objs)
    {
      refused, objs := true, raw;
      if gvk !in s.scopes || (gvk !in s.informers && s.strictCaching) {
        return;
      }
      var nsed := s.scopes[gvk];
      if !nsed && s.restrictClusterScoped {
        return;
      }
      if s.setOwnerReference && s.owner.Some? {
        if s.owner.value.gvk !in s.scopes {
          return;
        }
        objs := AssignOwnerReference(OwnershipOf(s), nsed, objs);
      }
      refused := false;
      if nsed {
        objs := AdjustNamespace(s.defaultNs, objs);
      } else {
        objs := ClearNamespace(objs);
      }
    }

    /** The second half of process: the three lists, and the loops over them. */
    method Work(s: Setup, gvk: GVK, objs: Objs, listed: Objs) returns (ghost c: Choice)
      modifies this`errs, this`plan, cluster
      ensures c.objs == objs && Lists(s, gvk, c, listed)
      ensures createPlan ==> Now() == PlanKind(s, gvk, c, listed, old(Now()))
      ensures !createPlan ==> Done() == Write(s, gvk, c, listed, old(Done())) && plan == old(plan)
    {
      hide NotAfter, CreateAll, UpdateAll, DeleteAll, PlanAll, ShouldPrune, Protected, Distinct;
      var existing := listed;
      var toCreate, toDelete, toUpdate := CompareSets(existing, objs);
      toDelete := FilterCrossVersion(s, gvk.GK(), toDelete, Prunable(existing, objs));
      assert ToDelete(s, gvk, objs.Keys, existing) ==
        set k | k in Prunable(existing, objs) && !Protected(s, gvk.GK(), k);
      c := Choice(objs, toCreate, toUpdate, toDelete);
      OrderedKeys(toCreate, objs.Keys - existing.Keys);
      OrderedKeys(toUpdate, objs.Keys * existing.Keys);
      if createPlan {
        plan := plan.(create := plan.create[gvk := toCreate], delete := plan.delete[gvk := toDelete]);
        PlanLoop(s, gvk, objs, existing, toUpdate);
      } else {
        ghost var made := Made(s, gvk, c, listed, Done());
        existing, toUpdate := CreateLoop(s, gvk, objs, toCreate, existing, toUpdate);
        assert made.existing == existing && made.updates == toUpdate;
        UpdateLoop(s, gvk, objs, existing, toUpdate);
        DeleteLoop(s, gvk, toDelete);
      }
    }

    /** process: one kind, from its declared objects to the changes in the cluster or in the plan. */
    method Process(s: Setup, gvk: GVK, raw: Objs) returns (ghost c: Choice)
      modifies this`errs, this`plan, cluster
      ensures Legal(s, gvk, raw, old(Now()).w, c)
      ensures Now() == ProcessKind(s, createPlan, gvk, raw, c, old(Now()))
    {
      hide Normalised, Refused, Listing, Lists, Write, PlanKind;
      var refused, objs := Normalise(s, gvk, raw);
      c := Choice(objs, [], [], []);
      if refused {
        Fail(Refusal(gvk));
        return;
      }
      RefusedFacts(s, gvk);
      var found := cluster.List(s, gvk, objs.Keys);
      if found.None? {
        Fail(Unlisted(gvk));
        return;
      }
      c := Work(s, gvk, objs, found.value);
    }
  }

  lemma RefusedFacts(s: Setup, gvk: GVK)
    ensures gvk !in s.scopes ==> Refused(s, gvk)
  {
  }

  lemma OrderedKeys(keys: seq<Key>, all: set<Key>)
    requires Ordered(keys, all)
    ensures forall k :: k in keys <==> k in all
  {
    assert forall k :: k in keys <==> k in Elements(keys);
  }
}
