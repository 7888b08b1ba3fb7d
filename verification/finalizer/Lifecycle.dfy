/** The life of one object under any number of finalizer adapters (pkg/generic/remove.go), each of which
    may run any number of syncs at once, on copies of the object as old as they like. */
module Lifecycle {
  import opened Common
  import opened FinalizerList

  const FINALIZER_KEY := "wrangler.cattle.io/"

  /** What the adapters look at in a stored version of the object. */
  datatype Obj = Obj(uid: nat, rv: nat, finalizers: seq<string>, deleting: bool)

  function KeyOf(name: string): string { FINALIZER_KEY + name }

  // -------- what sync decides --------

  /** The first half of sync: nothing, an update that adds the finalizer, or a call of the handler. */
  datatype Intent = Nothing | Update(o: Obj) | CallHandler

  function FirstHalf(key: string, o: Obj): Intent {
    if !o.deleting then
      if key in o.finalizers then Nothing else Update(o.(finalizers := o.finalizers + [key]))
    else if key in o.finalizers then CallHandler else Nothing
  }

  /** What the handler returns: an error, nothing, or the object as it last saw it. */
  datatype Answer = Failed | Nil | Returned(o: Obj)

  /** The second half of sync, after the handler. */
  function SecondHalf(key: string, o: Obj, answer: Answer): Intent {
    if answer.Failed? then Nothing
    else
      var obj := if answer.Returned? then answer.o else o;
      if key in obj.finalizers then Update(obj.(finalizers := Removed(obj.finalizers, key))) else Nothing
  }

  // -------- the system --------

  /** A sync under way: about to look at its copy, waiting for the handler, or about to send an update. */
  datatype Phase = Looking(o: Obj) | Calling(o: Obj) | Sending(o: Obj) | Finished

  datatype Task = Task(adapter: nat, phase: Phase)

  datatype State = State(
    live: Option<Obj>, history: set<Obj>,    // the stored object, and every version of it there has been
    nextRv: nat, nextUid: nat,
    tasks: seq<Task>,
    stored: set<(nat, nat)>,                 // (uid, adapter): its finalizer was on a stored version
    handled: set<(nat, nat)>)                // (uid, adapter): its handler succeeded on a version marked for deletion

  function Start(): State {
    State(None, {}, 0, 0, [], {}, {})
  }

  datatype Step =
    | Make(finalizers: seq<string>)
    | Foreign(finalizers: seq<string>)
    | RequestDelete
    | Begin(adapter: nat, o: Obj)
    | Look(t: nat)
    | Answered(t: nat, answer: Answer)
    | Send(t: nat, lost: bool)

  /** No adapter's finalizer occurs twice. */
  ghost predicate Single(names: seq<string>, finalizers: seq<string>) {
    forall i :: 0 <= i < |names| ==> Count(finalizers, KeyOf(names[i])) <= 1
  }

  /** Other clients may change anything but the adapters' finalizers. */
  ghost predicate Respects(names: seq<string>, before: seq<string>, after: seq<string>) {
    forall i :: 0 <= i < |names| ==> Count(after, KeyOf(names[i])) == Count(before, KeyOf(names[i]))
  }

  /** A handler may change the object as it likes, and has the resource version of some stored version of it;
      it leaves the other adapters' finalizers of that version alone and does not double its own. */
  ghost predicate Honest(names: seq<string>, s: State, adapter: nat, given: Obj, o: Obj)
    requires adapter < |names|
  {
    && o.uid == given.uid && Count(o.finalizers, KeyOf(names[adapter])) <= 1
    && exists v ::
        v in s.history && v.uid == o.uid && v.rv == o.rv && OthersSame(names, adapter, v.finalizers, o.finalizers)
  }

  ghost predicate OthersSame(names: seq<string>, adapter: nat, before: seq<string>, after: seq<string>) {
    forall i :: 0 <= i < |names| && i != adapter ==> Count(after, KeyOf(names[i])) == Count(before, KeyOf(names[i]))
  }

  ghost predicate Enabled(names: seq<string>, s: State, step: Step) {
    match step
    case Make(fs) => s.live.None? && Single(names, fs)
    case Foreign(fs) => s.live.Some? && Respects(names, s.live.value.finalizers, fs)
    case RequestDelete => s.live.Some?
    case Begin(adapter, o) => adapter < |names| && o in s.history
    case Look(t) => t < |s.tasks| && s.tasks[t].adapter < |names| && s.tasks[t].phase.Looking?
    case Answered(t, answer) =>
      && t < |s.tasks| && s.tasks[t].adapter < |names| && s.tasks[t].phase.Calling?
      && (answer.Returned? ==> Honest(names, s, s.tasks[t].adapter, s.tasks[t].phase.o, answer.o))
    case Send(t, _) => t < |s.tasks| && s.tasks[t].phase.Sending?
  }

  /** The adapters whose finalizers are on the list. */
  ghost function Owed(names: seq<string>, uid: nat, finalizers: seq<string>): set<(nat, nat)> {
    set i | 0 <= i < |names| && KeyOf(names[i]) in finalizers :: (uid, i)
  }

  /** A version that is marked for deletion and has no finalizers is removed instead of stored. */
  function Kept(v: Obj): Option<Obj> {
    if v.deleting && v.finalizers == [] then None else Some(v)
  }

  /** The server stores a version under the next resource version. */
  ghost function Store(names: seq<string>, s: State, o: Obj): State {
    var v := o.(rv := s.nextRv);
    s.(live := Kept(v),
       history := s.history + {v}, nextRv := s.nextRv + 1,
       stored := s.stored + Owed(names, v.uid, v.finalizers))
  }

  function Move(s: State, t: nat, phase: Phase): State
    requires t < |s.tasks|
  {
    s.(tasks := s.tasks[t := s.tasks[t].(phase := phase)])
  }

  function Continue(s: State, t: nat, o: Obj, intent: Intent): State
    requires t < |s.tasks|
  {
    match intent
    case Nothing => Move(s, t, Finished)
    case Update(u) => Move(s, t, Sending(u))
    case CallHandler => Move(s, t, Calling(o))
  }

  ghost function Next(names: seq<string>, s: State, step: Step): State
    requires Enabled(names, s, step)
  {
    match step
    case Make(fs) => Store(names, s.(nextUid := s.nextUid + 1), Obj(s.nextUid, 0, fs, false))
    case Foreign(fs) => Store(names, s, s.live.value.(finalizers := fs))
    case RequestDelete => Store(names, s, s.live.value.(deleting := true))
    case Begin(adapter, o) => s.(tasks := s.tasks + [Task(adapter, Looking(o))])
    case Look(t) =>
      var o := s.tasks[t].phase.o;
      Continue(s, t, o, FirstHalf(KeyOf(names[s.tasks[t].adapter]), o))
    case Answered(t, answer) =>
      var o := s.tasks[t].phase.o;
      var s' := if answer.Failed? then s else s.(handled := s.handled + {(o.uid, s.tasks[t].adapter)});
      Continue(s', t, o, SecondHalf(KeyOf(names[s.tasks[t].adapter]), o, answer))
    case Send(t, lost) =>
      // compare and swap on the resource version; a lost update has no effect
      var u := s.tasks[t].phase.o;
      var s' := Move(s, t, Finished);
      if lost || s.live.None? || s.live.value.rv != u.rv then s'
      else Store(names, s', s.live.value.(finalizers := u.finalizers))
  }

  // -------- what always holds --------

  ghost predicate DistinctNames(names: seq<string>) {
    forall i, j :: 0 <= i < j < |names| ==> names[i] != names[j]
  }

  /** Versions are numbered apart, and deletion is never taken back. */
  ghost predicate VersionsOk(names: seq<string>, s: State) {
    && (s.live.Some? ==> s.live.value in s.history)
    && (forall o :: o in s.history ==> o.rv < s.nextRv && o.uid < s.nextUid && Single(names, o.finalizers))
    && (forall a, b :: a in s.history && b in s.history && a.rv == b.rv ==> a == b)
    && (forall o :: s.live.Some? && o in s.history && o.uid == s.live.value.uid && o.deleting ==> s.live.value.deleting)
    && (forall o, i :: o in s.history && 0 <= i < |names| && KeyOf(names[i]) in o.finalizers ==> (o.uid, i) in s.stored)
  }

  /** The adapter's own finalizer is gone, the others' are as they were. */
  ghost predicate Releases(names: seq<string>, adapter: nat, before: seq<string>, after: seq<string>)
    requires adapter < |names|
  {
    Count(after, KeyOf(names[adapter])) == 0 && OthersSame(names, adapter, before, after)
  }

  /** An update on its way adds the adapter's finalizer to a version without it, or takes it off one of an
      object for which the handler has succeeded. */
  ghost predicate UpdateOk(names: seq<string>, s: State, adapter: nat, u: Obj) {
    exists o :: o in s.history && o.rv == u.rv && adapter < |names| &&
      var key := KeyOf(names[adapter]);
      || (key !in o.finalizers && !o.deleting && u.finalizers == o.finalizers + [key])
      || ((o.uid, adapter) in s.handled && Releases(names, adapter, o.finalizers, u.finalizers))
  }

  ghost predicate TaskOk(names: seq<string>, s: State, task: Task) {
    match task.phase
    case Looking(o) => o in s.history
    case Calling(o) => o in s.history && o.deleting
    case Sending(u) => UpdateOk(names, s, task.adapter, u)
    case Finished => true
  }

  /** A finalizer that was stored stays on the object until its handler has succeeded. */
  ghost predicate OwedOk(names: seq<string>, s: State) {
    forall i, uid :: 0 <= i < |names| && (uid, i) in s.stored && (uid, i) !in s.handled ==>
      s.live.Some? && s.live.value.uid == uid && KeyOf(names[i]) in s.live.value.finalizers
  }

  ghost predicate Inv(names: seq<string>, s: State) {
    && VersionsOk(names, s)
    && (forall t :: 0 <= t < |s.tasks| ==> TaskOk(names, s, s.tasks[t]))
    && (forall p :: p in s.stored || p in s.handled ==> p.0 < s.nextUid)
    && OwedOk(names, s)
  }

  lemma KeysDiffer(names: seq<string>, i: nat, j: nat)
    requires DistinctNames(names) && i < |names| && j < |names| && i != j
    ensures KeyOf(names[i]) != KeyOf(names[j])
  {
    assert names[i] == KeyOf(names[i])[|FINALIZER_KEY|..];
    assert names[j] == KeyOf(names[j])[|FINALIZER_KEY|..];
    assert if i < j then names[i] != names[j] else names[j] != names[i];
  }

  /** The list an adapter stores on removal is the old one without its finalizer: the in-place loop is
      right because the list has the finalizer once. */
  lemma RemovedIsWithout(finalizers: seq<string>, key: string)
    requires Count(finalizers, key) <= 1 && key in finalizers
    ensures Removed(finalizers, key) == Without(finalizers, key)
  {
    WithoutFacts(finalizers, key);
    RemovesExactlyWhen(finalizers, key);
  }

  lemma RemovedReleases(names: seq<string>, adapter: nat, before: seq<string>, finalizers: seq<string>)
    requires DistinctNames(names) && adapter < |names| && OthersSame(names, adapter, before, finalizers)
    requires Count(finalizers, KeyOf(names[adapter])) <= 1 && KeyOf(names[adapter]) in finalizers
    ensures Releases(names, adapter, before, Removed(finalizers, KeyOf(names[adapter])))
  {
    var key := KeyOf(names[adapter]);
    RemovedIsWithout(finalizers, key);
    WithoutTwice(finalizers, key);
    forall i | 0 <= i < |names| && i != adapter
      ensures Count(Without(finalizers, key), KeyOf(names[i])) == Count(before, KeyOf(names[i]))
    {
      KeysDiffer(names, adapter, i);
      OtherCount(finalizers, key, KeyOf(names[i]));
    }
  }

  lemma AddingKeepsSingle(names: seq<string>, i: nat, finalizers: seq<string>)
    requires DistinctNames(names) && i < |names| && Single(names, finalizers) && KeyOf(names[i]) !in finalizers
    ensures Single(names, finalizers + [KeyOf(names[i])])
    ensures forall j :: 0 <= j < |names| && KeyOf(names[j]) in finalizers ==>
      KeyOf(names[j]) in finalizers + [KeyOf(names[i])]
  {
    forall j | 0 <= j < |names| ensures Count(finalizers + [KeyOf(names[i])], KeyOf(names[j])) <= 1 {
      CountSnoc(finalizers, KeyOf(names[i]), KeyOf(names[j]));
      WithoutFacts(finalizers, KeyOf(names[i]));
      if j != i { KeysDiffer(names, i, j); }
    }
  }

  lemma ReleasingKeepsSingle(names: seq<string>, i: nat, before: seq<string>, after: seq<string>)
    requires i < |names| && Single(names, before) && Releases(names, i, before, after)
    ensures Single(names, after)
    ensures forall j :: 0 <= j < |names| && j != i && KeyOf(names[j]) in before ==> KeyOf(names[j]) in after
  {
    forall j | 0 <= j < |names|
      ensures Count(after, KeyOf(names[j])) <= 1
      ensures j != i && KeyOf(names[j]) in before ==> KeyOf(names[j]) in after
    {
      WithoutFacts(before, KeyOf(names[j]));
      WithoutFacts(after, KeyOf(names[j]));
    }
  }

  lemma {:induction false} WithoutTwice(a: seq<string>, x: string)
    ensures Count(Without(a, x), x) == 0
  {
    if a != [] {
      WithoutTwice(a[1..], x);
      var rest := Without(a[1..], x);
      if a[0] == x {
        assert Without(a, x) == rest;
      } else {
        assert Without(a, x) == [a[0]] + rest && ([a[0]] + rest)[1..] == rest;
      }
    }
  }

  lemma RespectKeepsSingle(names: seq<string>, before: seq<string>, after: seq<string>)
    requires Single(names, before) && Respects(names, before, after)
    ensures Single(names, after)
    ensures forall j :: 0 <= j < |names| ==> (KeyOf(names[j]) in before <==> KeyOf(names[j]) in after)
  {
    forall j | 0 <= j < |names| ensures KeyOf(names[j]) in before <==> KeyOf(names[j]) in after {
      WithoutFacts(before, KeyOf(names[j]));
      WithoutFacts(after, KeyOf(names[j]));
    }
  }

  /** Storing a version of the live object that keeps every finalizer still owed. */
  lemma StoreHolds(names: seq<string>, s: State, o: Obj)
    requires Inv(names, s) && Single(names, o.finalizers)
    requires s.live.Some? && o.uid == s.live.value.uid && (s.live.value.deleting ==> o.deleting)
    requires forall j :: 0 <= j < |names| && KeyOf(names[j]) in s.live.value.finalizers && (o.uid, j) !in s.handled ==>
      KeyOf(names[j]) in o.finalizers
    ensures Inv(names, Store(names, s, o))
  {
    var t := Store(names, s, o);
    forall k | 0 <= k < |t.tasks| ensures TaskOk(names, t, t.tasks[k]) {
      assert TaskOk(names, s, s.tasks[k]);
    }
    forall i, uid | 0 <= i < |names| && (uid, i) in t.stored && (uid, i) !in t.handled
      ensures t.live.Some? && t.live.value.uid == uid && KeyOf(names[i]) in t.live.value.finalizers {
      assert KeyOf(names[i]) in o.finalizers && uid == o.uid;
    }
  }

  lemma MakeHolds(names: seq<string>, s: State, fs: seq<string>)
    requires Inv(names, s) && Enabled(names, s, Make(fs))
    ensures Inv(names, Next(names, s, Make(fs)))
  {
    var t := Next(names, s, Make(fs));
    forall k | 0 <= k < |t.tasks| ensures TaskOk(names, t, t.tasks[k]) {
      assert TaskOk(names, s, s.tasks[k]);
    }
    forall i, uid | 0 <= i < |names| && (uid, i) in t.stored && (uid, i) !in t.handled
      ensures t.live.Some? && t.live.value.uid == uid && KeyOf(names[i]) in t.live.value.finalizers {
      assert (uid, i) !in s.stored;
    }
  }

  lemma MoveHolds(names: seq<string>, s: State, t: nat, phase: Phase, handled: set<(nat, nat)>)
    requires Inv(names, s) && t < |s.tasks|
    requires s.handled <= handled && forall p :: p in handled ==> p.0 < s.nextUid
    requires TaskOk(names, s.(handled := handled), Task(s.tasks[t].adapter, phase))
    ensures Inv(names, Move(s.(handled := handled), t, phase))
  {
    var s' := Move(s.(handled := handled), t, phase);
    forall k | 0 <= k < |s'.tasks| ensures TaskOk(names, s', s'.tasks[k]) {
      assert TaskOk(names, s, s.tasks[k]);
      if k != t && s.tasks[k].phase.Sending? {
        var u := s.tasks[k].phase.o;
        assert UpdateOk(names, s', s.tasks[k].adapter, u);
      }
    }
  }

  lemma LookHolds(names: seq<string>, s: State, t: nat)
    requires Inv(names, s) && Enabled(names, s, Look(t))
    ensures Inv(names, Next(names, s, Look(t)))
  {
    var task := s.tasks[t];
    assert TaskOk(names, s, task);
    var o, key := task.phase.o, KeyOf(names[task.adapter]);
    assert s.(handled := s.handled) == s;
    match FirstHalf(key, o)
    case Nothing => MoveHolds(names, s, t, Finished, s.handled);
    case Update(u) =>
      assert UpdateOk(names, s, task.adapter, u);
      MoveHolds(names, s, t, Sending(u), s.handled);
    case CallHandler => MoveHolds(names, s, t, Calling(o), s.handled);
  }

  lemma AnsweredHolds(names: seq<string>, s: State, t: nat, answer: Answer)
    requires DistinctNames(names) && Inv(names, s) && Enabled(names, s, Answered(t, answer))
    ensures Inv(names, Next(names, s, Answered(t, answer)))
  {
    var task := s.tasks[t];
    assert TaskOk(names, s, task);
    var o, key := task.phase.o, KeyOf(names[task.adapter]);
    var handled := if answer.Failed? then s.handled else s.handled + {(o.uid, task.adapter)};
    var s' := s.(handled := handled);
    match SecondHalf(key, o, answer)
    case Nothing => MoveHolds(names, s, t, Finished, handled);
    case Update(u) =>
      var base := if answer.Returned? then answer.o else o;
      var v := o;
      if answer.Returned? {
        v :| v in s.history && v.uid == base.uid && v.rv == base.rv &&
             OthersSame(names, task.adapter, v.finalizers, base.finalizers);
      }
      RemovedReleases(names, task.adapter, v.finalizers, base.finalizers);
      assert v in s'.history && v.rv == u.rv && (v.uid, task.adapter) in s'.handled;
      MoveHolds(names, s, t, Sending(u), handled);
  }

  lemma SendHolds(names: seq<string>, s: State, t: nat, lost: bool)
    requires DistinctNames(names) && Inv(names, s) && Enabled(names, s, Send(t, lost))
    ensures Inv(names, Next(names, s, Send(t, lost)))
  {
    var task := s.tasks[t];
    assert TaskOk(names, s, task);
    var u, s' := task.phase.o, Move(s, t, Finished);
    assert s.(handled := s.handled) == s;
    MoveHolds(names, s, t, Finished, s.handled);
    if !lost && s.live.Some? && s.live.value.rv == u.rv {
      var live := s.live.value;
      var o :| o in s.history && o.rv == u.rv && task.adapter < |names| &&
        var key := KeyOf(names[task.adapter]);
        || (key !in o.finalizers && !o.deleting && u.finalizers == o.finalizers + [key])
        || ((o.uid, task.adapter) in s.handled && Releases(names, task.adapter, o.finalizers, u.finalizers));
      assert o == live;
      if Releases(names, task.adapter, live.finalizers, u.finalizers) && (o.uid, task.adapter) in s.handled {
        ReleasingKeepsSingle(names, task.adapter, live.finalizers, u.finalizers);
      } else {
        AddingKeepsSingle(names, task.adapter, live.finalizers);
      }
      StoreHolds(names, s', live.(finalizers := u.finalizers));
    }
  }

  lemma NextHolds(names: seq<string>, s: State, step: Step)
    requires DistinctNames(names) && Inv(names, s) && Enabled(names, s, step)
    ensures Inv(names, Next(names, s, step))
  {
    match step
    case Make(fs) => MakeHolds(names, s, fs);
    case Foreign(fs) =>
      RespectKeepsSingle(names, s.live.value.finalizers, fs);
      StoreHolds(names, s, s.live.value.(finalizers := fs));
    case RequestDelete => StoreHolds(names, s, s.live.value.(deleting := true));
    case Begin(adapter, o) => BeginHolds(names, s, adapter, o);
    case Look(t) => LookHolds(names, s, t);
    case Answered(t, answer) => AnsweredHolds(names, s, t, answer);
    case Send(t, lost) => SendHolds(names, s, t, lost);
  }

  lemma BeginHolds(names: seq<string>, s: State, adapter: nat, o: Obj)
    requires Inv(names, s) && Enabled(names, s, Begin(adapter, o))
    ensures Inv(names, Next(names, s, Begin(adapter, o)))
  {
    var t := Next(names, s, Begin(adapter, o));
    forall k | 0 <= k < |t.tasks| ensures TaskOk(names, t, t.tasks[k]) {
      if k < |s.tasks| { assert TaskOk(names, s, s.tasks[k]); }
    }
  }

  // -------- over all runs --------

  ghost predicate IsPath(names: seq<string>, states: seq<State>, steps: seq<Step>) {
    && |states| == |steps| + 1
    && forall n :: 0 <= n < |steps| ==>
      Enabled(names, states[n], steps[n]) && states[n + 1] == Next(names, states[n], steps[n])
  }

  ghost predicate IsRun(names: seq<string>, states: seq<State>, steps: seq<Step>) {
    IsPath(names, states, steps) && states[0] == Start()
  }

  lemma {:induction false} InvAlways(names: seq<string>, states: seq<State>, steps: seq<Step>, n: nat)
    requires DistinctNames(names) && IsRun(names, states, steps) && n < |states|
    ensures Inv(names, states[n])
  {
    hide Enabled, Next;
    if n > 0 {
      InvAlways(names, states, steps, n - 1);
      NextHolds(names, states[n - 1], steps[n - 1]);
    }
  }

  /** In every interleaving, with handlers and updates that may fail: once an adapter's finalizer has been
      stored on an object, the object is not physically removed before that adapter's handler has
      succeeded on it after its deletion was requested. */
  lemma NotRemovedEarly(names: seq<string>, states: seq<State>, steps: seq<Step>, n: nat, uid: nat, i: nat)
    requires DistinctNames(names) && IsRun(names, states, steps) && n < |states| && i < |names|
    requires (uid, i) in states[n].stored
    requires states[n].live.None? || states[n].live.value.uid != uid
    ensures (uid, i) in states[n].handled
  {
    InvAlways(names, states, steps, n);
  }

  lemma {:induction false} StoredStays(names: seq<string>, states: seq<State>, steps: seq<Step>, m: nat, n: nat)
    requires IsPath(names, states, steps) && m <= n < |states|
    ensures states[m].stored <= states[n].stored && states[m].history <= states[n].history
    decreases n
  {
    if m < n {
      StoredStays(names, states, steps, m, n - 1);
      assert states[n] == Next(names, states[n - 1], steps[n - 1]);
    }
  }

  /** Once the finalizer of every adapter has been stored on an object, it is not physically removed before all
      their handlers have succeeded on it. */
  lemma HeldByAll(names: seq<string>, states: seq<State>, steps: seq<Step>, m: nat, n: nat, uid: nat)
    requires DistinctNames(names) && IsRun(names, states, steps) && m <= n < |states|
    requires forall i :: 0 <= i < |names| ==> (uid, i) in states[m].stored
    requires states[n].live.None? || states[n].live.value.uid != uid
    ensures forall i :: 0 <= i < |names| ==> (uid, i) in states[n].handled
  {
    StoredStays(names, states, steps, m, n);
    forall i | 0 <= i < |names| ensures (uid, i) in states[n].handled {
      NotRemovedEarly(names, states, steps, n, uid, i);
    }
  }

  /** No stored version ever has an adapter's finalizer twice, so each removal stores exactly the rest of
      the list in its old order. */
  lemma FinalizersStaySingle(names: seq<string>, states: seq<State>, steps: seq<Step>, n: nat, o: Obj, i: nat)
    requires DistinctNames(names) && IsRun(names, states, steps) && n < |states| && o in states[n].history &&
      i < |names|
    ensures Count(o.finalizers, KeyOf(names[i])) <= 1
    ensures KeyOf(names[i]) in o.finalizers ==>
      Removed(o.finalizers, KeyOf(names[i])) == Without(o.finalizers, KeyOf(names[i]))
  {
    InvAlways(names, states, steps, n);
    if KeyOf(names[i]) in o.finalizers {
      RemovedIsWithout(o.finalizers, KeyOf(names[i]));
    }
  }

  /** A handler is recorded as having succeeded only on a version that was marked for deletion. */
  lemma HandledAfterRequest(names: seq<string>, states: seq<State>, steps: seq<Step>, n: nat, t: nat, answer: Answer)
    requires DistinctNames(names) && IsRun(names, states, steps) && n < |steps| && steps[n] == Answered(t, answer)
    ensures t < |states[n].tasks| && states[n].tasks[t].phase.Calling?
    ensures var o := states[n].tasks[t].phase.o; o.deleting && o in states[n].history
  {
    InvAlways(names, states, steps, n);
    assert Enabled(names, states[n], steps[n]);
    assert TaskOk(names, states[n], states[n].tasks[t]);
  }
}
