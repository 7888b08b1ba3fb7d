/** objectLifecycleAdapter as an object that works on a store; its sync issues exactly the updates that
    the state machine in module Lifecycle takes apart into steps. */
module Adapter {
  import opened Common
  import opened FinalizerList
  import opened Lifecycle

  /** The API server behind the updater: compare and swap on the resource version. */
  class ObjectStore {
    var live: Option<Obj>
    var nextRv: nat

    constructor (live: Option<Obj>, nextRv: nat)
      ensures this.live == live && this.nextRv == nextRv
    {
      this.live, this.nextRv := live, nextRv;
    }

    method Update(o: Obj, lost: bool) returns (stored: Option<Obj>)
      modifies this
      ensures (live, nextRv) == Swapped(old(live), old(nextRv), o, lost)
      ensures stored.Some? <==> !lost && old(live).Some? && old(live).value.rv == o.rv
    {
      if lost || live.None? || live.value.rv != o.rv {
        return None;
      }
      var v := live.value.(rv := nextRv, finalizers := o.finalizers);
      nextRv := nextRv + 1;
      live := Kept(v);
      stored := Some(v);
    }
  }

  function Swapped(live: Option<Obj>, nextRv: nat, o: Obj, lost: bool): (Option<Obj>, nat) {
    if lost || live.None? || live.value.rv != o.rv then (live, nextRv)
    else
      var v := live.value.(rv := nextRv, finalizers := o.finalizers);
      (Kept(v), nextRv + 1)
  }

  /** What one sync, run on its own, does to the store. */
  function Synced(live: Option<Obj>, nextRv: nat, key: string, o: Obj, answer: Answer, lost: bool): (Option<Obj>, nat) {
    var intent := match FirstHalf(key, o)
      case CallHandler => SecondHalf(key, o, answer)
      case other => other;
    if intent.Update? then Swapped(live, nextRv, intent.o, lost) else (live, nextRv)
  }

  class ObjectLifecycleAdapter {
    const name: string
    const store: ObjectStore

    constructor (name: string, store: ObjectStore)
      ensures this.name == name && this.store == store
    {
      this.name, this.store := name, store;
    }

    method HasFinalizer(o: Obj) returns (has: bool)
      ensures has <==> KeyOf(name) in o.finalizers
    {
      var key := FINALIZER_KEY + name;
      for i := 0 to |o.finalizers|
        invariant key !in o.finalizers[..i]
      {
        if o.finalizers[i] == key {
          return true;
        }
      }
      assert o.finalizers[..|o.finalizers|] == o.finalizers;
      has := false;
    }

    method AddFinalizer(o: Obj, lost: bool)
      modifies store
      ensures (store.live, store.nextRv) ==
        if KeyOf(name) in o.finalizers then (old(store.live), old(store.nextRv))
        else Swapped(old(store.live), old(store.nextRv), o.(finalizers := o.finalizers + [KeyOf(name)]), lost)
    {
      var has := HasFinalizer(o);
      if has {
        return;
      }
      var _ := store.Update(o.(finalizers := o.finalizers + [FINALIZER_KEY + name]), lost);
    }

    /** removeFinalizer: on a copy of the list, shifted in place. */
    method RemoveFinalizer(o: Obj, lost: bool)
      modifies store
      ensures (store.live, store.nextRv) ==
        if KeyOf(name) !in o.finalizers then (old(store.live), old(store.nextRv))
        else Swapped(old(store.live), old(store.nextRv), o.(finalizers := Removed(o.finalizers, KeyOf(name))), lost)
    {
      var has := HasFinalizer(o);
      if !has {
        return;
      }
      var n := |o.finalizers|;
      var finalizers := new string[n](i requires 0 <= i < n => o.finalizers[i]);
      assert finalizers[..] == o.finalizers;
      var length := RemoveInPlace(finalizers, FINALIZER_KEY + name);
      var _ := store.Update(o.(finalizers := finalizers[..length]), lost);
    }

    /** sync, for a handler that will give this answer if it is called. */
    method Sync(obj: Option<Obj>, answer: Answer, lost: bool) returns (called: bool)
      modifies store
      ensures obj.None? ==> !called && (store.live, store.nextRv) == (old(store.live), old(store.nextRv))
      ensures obj.Some? ==>
        && (called <==> obj.value.deleting && KeyOf(name) in obj.value.finalizers)
        && (store.live, store.nextRv) ==
           Synced(old(store.live), old(store.nextRv), KeyOf(name), obj.value, answer, lost)
    {
      called := false;
      if obj.None? {
        return;
      }
      var o := obj.value;
      if !o.deleting {
        AddFinalizer(o, lost);
        return;
      }
      var has := HasFinalizer(o);
      if !has {
        return;
      }
      called := true;
      if answer.Failed? {
        return;
      }
      if answer.Returned? {
        o := answer.o;
      }
      RemoveFinalizer(o, lost);
    }
  }

  /** A sync of the newest version of an object that is being deleted: once the handler succeeds, on what it
      returns or else on the object itself, the adapter's finalizer is gone, the others are as they were, and an
      object with no other finalizer is gone too. */
  lemma SyncReleases(live: Obj, nextRv: nat, name: string, answer: Answer)
    requires live.deleting && KeyOf(name) in live.finalizers && !answer.Failed?
    requires var o := if answer.Returned? then answer.o else live;
      o.rv == live.rv && Count(o.finalizers, KeyOf(name)) == 1
    ensures var o := if answer.Returned? then answer.o else live;
      var rest := Without(o.finalizers, "wrangler.cattle.io/" + name);
      && |rest| == |o.finalizers| - 1
      && Synced(Some(live), nextRv, KeyOf(name), live, answer, false) ==
           (if rest == [] then None else Some(Obj(live.uid, nextRv, rest, true)), nextRv + 1)
  {
    var o := if answer.Returned? then answer.o else live;
    WithoutFacts(o.finalizers, KeyOf(name));
    RemovesExactlyWhen(o.finalizers, KeyOf(name));
  }

  /** A sync on the newest version of an object that is not being deleted puts the adapter's finalizer at the end
      of the list, where it is not there yet, and changes nothing else; where it is, nothing is sent. */
  lemma SyncAdds(live: Obj, nextRv: nat, name: string, answer: Answer)
    requires !live.deleting
    ensures Synced(Some(live), nextRv, KeyOf(name), live, answer, false) ==
      if "wrangler.cattle.io/" + name in live.finalizers then (Some(live), nextRv)
      else (Some(Obj(live.uid, nextRv, live.finalizers + ["wrangler.cattle.io/" + name], false)), nextRv + 1)
  {
  }

  /** Without a successful handler, without its finalizer, on an old version or with a lost call, a sync of an
      object that is being deleted leaves the server as it is. */
  lemma SyncHolds(live: Option<Obj>, nextRv: nat, name: string, o: Obj, answer: Answer, lost: bool)
    requires o.deleting
    requires || answer.Failed? || "wrangler.cattle.io/" + name !in o.finalizers || lost
             || live.None? || live.value.rv != (if answer.Returned? then answer.o else o).rv
    ensures Synced(live, nextRv, KeyOf(name), o, answer, lost) == (live, nextRv)
  {
  }

  /** One sync is a path of the state machine: it begins, looks, waits for its handler where it calls it, and
      sends its update where it has one; what the server holds in the end is what Sync leaves there. */
  lemma SyncIsAPath(names: seq<string>, s: State, adapter: nat, o: Obj, answer: Answer, lost: bool)
      returns (states: seq<State>, steps: seq<Step>)
    requires adapter < |names| && o in s.history
    requires answer.Returned? ==> Honest(names, s, adapter, o, answer.o)
    ensures IsPath(names, states, steps) && states[0] == s
    ensures forall step :: step in steps ==>
      step in {Begin(adapter, o), Look(|s.tasks|), Answered(|s.tasks|, answer), Send(|s.tasks|, lost)}
    ensures var end := states[|steps|];
      && (end.live, end.nextRv) == Synced(s.live, s.nextRv, KeyOf(names[adapter]), o, answer, lost)
      && end.tasks == s.tasks + [Task(adapter, Finished)]
  {
    hide Next, Enabled, Honest, Swapped, FirstHalf;
    var t, key := |s.tasks|, KeyOf(names[adapter]);
    Begins(names, s, adapter, o);
    states, steps := OneStep(names, [s], [], Begin(adapter, o));
    Looks(names, states[1], t, o);
    states, steps := OneStep(names, states, steps, Look(t));
    var intent := FirstHalf(key, o);
    if intent.CallHandler? {
      Answers(names, s, states[2], adapter, o, answer);
      states, steps := OneStep(names, states, steps, Answered(t, answer));
      intent := SecondHalf(key, o, answer);
    }
    if intent.Update? {
      Sends(names, states[|steps|], t, intent.o, lost);
      states, steps := OneStep(names, states, steps, Send(t, lost));
    }
    var tasks := states[|steps|].tasks;
    assert tasks[..t] == s.tasks && tasks[t..] == [Task(adapter, Finished)];
  }

  /** A run in which an adapter syncs the newest version of an object that is not being deleted goes on to a point
      where its finalizer has been stored. */
  lemma SyncStores(names: seq<string>, states: seq<State>, steps: seq<Step>, adapter: nat, o: Obj, answer: Answer)
      returns (states': seq<State>, steps': seq<Step>)
    requires DistinctNames(names) && IsRun(names, states, steps) && adapter < |names|
    requires states[|steps|].live == Some(o) && !o.deleting
    requires answer.Returned? ==> Honest(names, states[|steps|], adapter, o, answer.o)
    ensures IsRun(names, states', steps') && states <= states' && steps <= steps'
    ensures (o.uid, adapter) in states'[|steps'|].stored
    ensures var live := states'[|steps'|].live;
      live.Some? && live.value.uid == o.uid && KeyOf(names[adapter]) in live.value.finalizers
  {
    hide Enabled, Next, Honest, Synced;
    var s, n := states[|steps|], |steps|;
    InvAlways(names, states, steps, n);
    LiveIsKnown(names, s);
    var more, further := SyncIsAPath(names, s, adapter, o, answer, false);
    SyncAdds(o, s.nextRv, names[adapter], answer);
    states', steps' := states + more[1..], steps + further;
    Joined(names, states, steps, more, further);
    InvAlways(names, states', steps', |steps'|);
    LiveIsKnown(names, states'[|steps'|]);
  }

  lemma LiveIsKnown(names: seq<string>, s: State)
    requires Inv(names, s) && s.live.Some?
    ensures s.live.value in s.history
    ensures forall i :: 0 <= i < |names| && KeyOf(names[i]) in s.live.value.finalizers ==>
      (s.live.value.uid, i) in s.stored
  {
  }

  lemma Joined(names: seq<string>, states: seq<State>, steps: seq<Step>, more: seq<State>, further: seq<Step>)
    requires IsPath(names, states, steps) && IsPath(names, more, further) && more[0] == states[|steps|]
    ensures IsPath(names, states + more[1..], steps + further)
    ensures (states + more[1..])[|steps| + |further|] == more[|further|] && (states + more[1..])[0] == states[0]
  {
    hide Enabled, Next;
    var all, every := states + more[1..], steps + further;
    forall n | 0 <= n < |every|
      ensures Enabled(names, all[n], every[n]) && all[n + 1] == Next(names, all[n], every[n])
    {
      if n >= |steps| {
        assert all[n] == more[n - |steps|] && all[n + 1] == more[n + 1 - |steps|] && every[n] == further[n - |steps|];
      }
    }
  }

  lemma Begins(names: seq<string>, s: State, adapter: nat, o: Obj)
    requires adapter < |names| && o in s.history
    ensures Enabled(names, s, Begin(adapter, o))
    ensures Next(names, s, Begin(adapter, o)) == s.(tasks := s.tasks + [Task(adapter, Looking(o))])
  {
  }

  lemma Looks(names: seq<string>, s: State, t: nat, o: Obj)
    requires t < |s.tasks| && s.tasks[t].adapter < |names| && s.tasks[t].phase == Looking(o)
    ensures Enabled(names, s, Look(t))
    ensures Next(names, s, Look(t)) == Continue(s, t, o, FirstHalf(KeyOf(names[s.tasks[t].adapter]), o))
  {
  }

  /** Beginning and looking do not touch what the handler is given. */
  lemma Answers(names: seq<string>, s: State, s': State, adapter: nat, o: Obj, answer: Answer)
    requires adapter < |names| && s'.history == s.history
    requires |s.tasks| < |s'.tasks| && s'.tasks[|s.tasks|] == Task(adapter, Calling(o))
    requires answer.Returned? ==> Honest(names, s, adapter, o, answer.o)
    ensures Enabled(names, s', Answered(|s.tasks|, answer))
    ensures var n := Next(names, s', Answered(|s.tasks|, answer));
      n == Continue(s'.(handled := n.handled), |s.tasks|, o, SecondHalf(KeyOf(names[adapter]), o, answer))
  {
  }

  lemma Sends(names: seq<string>, s: State, t: nat, u: Obj, lost: bool)
    requires t < |s.tasks| && s.tasks[t].phase == Sending(u)
    ensures Enabled(names, s, Send(t, lost))
    ensures var n := Next(names, s, Send(t, lost));
      (n.live, n.nextRv) == Swapped(s.live, s.nextRv, u, lost) &&
        n.tasks == s.tasks[t := s.tasks[t].(phase := Finished)]
  {
  }

  lemma OneStep(names: seq<string>, states: seq<State>, steps: seq<Step>, step: Step)
      returns (states': seq<State>, steps': seq<Step>)
    requires IsPath(names, states, steps) && Enabled(names, states[|steps|], step)
    ensures states' == states + [Next(names, states[|steps|], step)] && steps' == steps + [step]
    ensures IsPath(names, states', steps')
  {
    hide Enabled, Next;
    states', steps' := states + [Next(names, states[|steps|], step)], steps + [step];
  }
}
