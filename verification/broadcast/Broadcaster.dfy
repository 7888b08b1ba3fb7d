/** The Broadcaster as an object.  Its methods are the bodies of Subscribe, unsub and stream; each is
    proved to take the broadcaster along a path of the state machine in module Broadcast. */
module Broadcaster {
  import opened Common
  import opened Broadcast

  /** A path of the state machine. */
  ghost predicate Path<T(!new)>(from: State<T>, steps: seq<Step<T>>, states: seq<State<T>>) {
    && |states| == |steps| + 1 && states[0] == from
    && forall n :: 0 <= n < |steps| ==> Enabled(states[n], steps[n]) && states[n + 1] == Next(states[n], steps[n])
  }

  lemma OneMore<T(!new)>(from: State<T>, steps: seq<Step<T>>, states: seq<State<T>>, step: Step<T>)
    requires Path(from, steps, states) && Enabled(states[|steps|], step)
    ensures Path(from, steps + [step], states + [Next(states[|steps|], step)])
  {
    hide Enabled, Next;
  }

  lemma {:induction false} PathHolds<T(!new)>(from: State<T>, steps: seq<Step<T>>, states: seq<State<T>>, n: nat)
    requires Path(from, steps, states) && Inv(from) && n < |states|
    ensures Inv(states[n])
  {
    hide Inv, Enabled, Next;
    if n > 0 {
      PathHolds(from, steps, states, n - 1);
      NextHolds(states[n - 1], steps[n - 1]);
    }
  }

  class Broadcaster<T(==,!new)> {
    var running: bool
    var subs: set<nat>
    // the channels and goroutines around it
    var chans: seq<Channel<T>>
    var streams: seq<Phase<T>>
    var watchers: set<nat>
    var droppers: multiset<nat>
    var panicked: bool
    // what has happened, for the history in View
    var log: seq<T>
    var dropped: set<nat>

    constructor ()
      ensures View() == Start<T>()
    {
      running, subs, chans, streams, watchers, droppers, panicked := false, {}, [], [], {}, multiset{}, false;
      log, dropped := [], {};
    }

    ghost function View(): State<T>
      reads this
    {
      State(running, subs, chans, streams, watchers, droppers, log, dropped, panicked)
    }

    /** Subscribe: start a stream if there is none, and register a new channel; the result is None where
        connecting failed. */
    method Subscribe(connected: bool) returns (sub: Option<nat>)
      requires !Locked(View())
      modifies this
      ensures View() == Next(old(View()), Step.Subscribe(connected))
      ensures sub == if old(running) || connected then Some(|old(chans)|) else None
      ensures sub.Some? ==> sub.value in subs && running
    {
      if !running {
        if !connected {
          return None;
        }
        streams := streams + [Waiting];
        running := true;
      }
      var ch := |chans|;
      chans := chans + [Channel([], [], |log|, false, 0)];
      subs := subs + {ch};
      watchers := watchers + {ch};
      sub := Some(ch);
    }

    /** unsub, with the lock held by the caller. */
    method Unsub(sub: nat)
      modifies this`subs, this`chans, this`panicked
      ensures View() == Broadcast.Unsub(old(View()), sub)
    {
      if sub in subs {
        if sub >= |chans| || chans[sub].closed {
          panicked := true;
        } else {
          chans := chans[sub := chans[sub].(closed := true, left := |log|)];
        }
        subs := subs - {sub};
      }
    }

    /** The select in stream. */
    method Offer(sub: nat, item: T)
      requires sub < |chans|
      modifies this`chans, this`droppers, this`dropped, this`panicked
      ensures View() == Send(old(View()), sub, item)
    {
      if chans[sub].closed {
        panicked := true;
      } else if |chans[sub].buffer| < CAPACITY {
        chans := chans[sub := chans[sub].(buffer := chans[sub].buffer + [item])];
      } else {
        // Slow consumer, drop
        droppers := droppers + multiset{sub};
        dropped := dropped + {sub};
      }
    }

    /** One subscriber's turn in a round. */
    method Turn(i: nat, item: T, todo: set<nat>, sub: nat)
      requires Inv(View()) && i < |streams| && streams[i] == Sending(item, todo) && sub in todo && sub in subs
      modifies this`chans, this`droppers, this`dropped, this`panicked, this`streams
      ensures Enabled(old(View()), Step.Offer(i, sub)) && View() == Next(old(View()), Step.Offer(i, sub))
      ensures Offered(old(View()), View(), item, sub)
      ensures streams == old(streams)[i := Sending(item, todo - {sub})]
    {
      hide Enabled, Next, Inv;
      OfferStep(View(), i, sub);
      Offer(sub, item);
      streams := streams[i := Sending(item, todo - {sub})];
    }

    /** One turn of the loop in stream, from the lock to the unlock: every subscriber is offered the item
        once, in any order; one that is full gets a dropper instead. */
    method Deliver(i: nat) returns (ghost steps: seq<Step<T>>, ghost states: seq<State<T>>)
      requires Inv(View()) && Enabled(View(), Lock(i))
      modifies this
      ensures Path(old(View()), steps, states) && View() == states[|steps|]
      ensures Round(old(View()), View(), old(streams)[i].item, {})
      ensures streams == old(streams)[i := Waiting]
    {
      hide Path, Enabled, Next, Inv, Offered;
      ghost var from := View();
      LockStep(from, i);
      var item := streams[i].item;
      var todo := subs;
      StartPath(from, Lock(i));
      steps, states := [Lock(i)], [from, Next(from, Lock(i))];
      log := log + [item];
      streams := streams[i := Sending(item, todo)];
      while todo != {}
        invariant |states| == |steps| + 1 && Path(from, steps, states) && View() == states[|steps|]
        invariant todo <= subs && i < |streams| && streams == from.streams[i := Sending(item, todo)]
        invariant Round(from, View(), item, todo)
        decreases |todo|
      {
        var sub :| sub in todo;
        PathHolds(from, steps, states, |steps|);
        Turn(i, item, todo, sub);
        RoundGoesOn(from, states[|steps|], View(), item, todo, sub);
        todo := todo - {sub};
        OneMore(from, steps, states, Step.Offer(i, sub));
        steps, states := steps + [Step.Offer(i, sub)], states + [View()];
      }
      UnlockStep(View(), i);
      OneMore(from, steps, states, Unlock(i));
      streams := streams[i := Waiting];
      steps, states := steps + [Unlock(i)], states + [View()];
    }

    /** The end of stream: every subscriber is closed and nothing runs any more. */
    method End(i: nat) returns (ghost steps: seq<Step<T>>, ghost states: seq<State<T>>)
      requires Inv(View()) && Enabled(View(), LockEnd(i))
      modifies this
      ensures Path(old(View()), steps, states) && View() == states[|steps|]
      ensures subs == {} && !running && streams == old(streams)[i := Gone] && |chans| == |old(chans)|
      ensures forall sub :: 0 <= sub < |chans| ==>
        chans[sub].closed && chans[sub].Delivered() == old(chans)[sub].Delivered()
    {
      hide Path, Enabled, Next, Inv, Broadcast.Unsub;
      ghost var from := View();
      LockEndStep(from, i);
      var todo := subs;
      StartPath(from, LockEnd(i));
      steps, states := [LockEnd(i)], [from, Next(from, LockEnd(i))];
      streams := streams[i := Closing(todo)];
      while todo != {}
        invariant |states| == |steps| + 1 && Path(from, steps, states) && View() == states[|steps|]
        invariant i < |streams| && streams == from.streams[i := Closing(todo)]
        invariant todo == subs && SameDelivery(from, View())
        decreases |todo|
      {
        var sub :| sub in todo;
        ghost var before := View();
        CloseStep(before, i, sub);
        todo := todo - {sub};
        Unsub(sub);
        streams := streams[i := Closing(todo)];
        OneMore(from, steps, states, CloseOne(i, sub));
        steps, states := steps + [CloseOne(i, sub)], states + [View()];
      }
      PathHolds(from, steps, states, |steps|);
      AllClosed(View());
      FinishStep(View(), i);
      OneMore(from, steps, states, Finish(i));
      streams := streams[i := Gone];
      running := false;
      steps, states := steps + [Finish(i)], states + [View()];
    }
  }

  /** A round of sends, with the subscribers in todo still to come: every subscriber with room got the
      item at the end of its buffer, every full one got a dropper, and nothing else changed. */
  ghost predicate Round<T>(s: State<T>, t: State<T>, item: T, todo: set<nat>) {
    && t.subs == s.subs && t.log == s.log + [item] && |t.chans| == |s.chans|
    && forall sub :: 0 <= sub < |s.chans| ==>
      if sub !in s.subs || sub in todo then t.chans[sub] == s.chans[sub] && t.droppers[sub] == s.droppers[sub]
      else if |s.chans[sub].buffer| < CAPACITY then
        t.chans[sub] == s.chans[sub].(buffer := s.chans[sub].buffer + [item]) && t.droppers[sub] == s.droppers[sub]
      else t.chans[sub] == s.chans[sub] && t.droppers[sub] == s.droppers[sub] + 1
  }

  ghost predicate Offered<T>(m: State<T>, t: State<T>, item: T, sub: nat) {
    && sub < |m.chans| && !m.chans[sub].closed
    && var n := Send(m, sub, item);
       t.subs == n.subs && t.log == n.log && t.chans == n.chans && t.droppers == n.droppers
  }

  lemma RoundGoesOn<T>(s: State<T>, m: State<T>, t: State<T>, item: T, todo: set<nat>, sub: nat)
    requires Round(s, m, item, todo) && sub in todo && sub in s.subs && Offered(m, t, item, sub)
    ensures Round(s, t, item, todo - {sub})
  {
  }

  ghost predicate SameDelivery<T>(s: State<T>, t: State<T>) {
    |t.chans| == |s.chans| && forall sub :: 0 <= sub < |s.chans| ==>
      t.chans[sub].Delivered() == s.chans[sub].Delivered()
  }

  lemma AllClosed<T>(s: State<T>)
    requires Inv(s) && s.subs == {}
    ensures forall sub :: 0 <= sub < |s.chans| ==> s.chans[sub].closed
  {
  }

  lemma StartPath<T(!new)>(from: State<T>, step: Step<T>)
    requires Enabled(from, step)
    ensures Path(from, [step], [from, Next(from, step)])
  {
  }

  // The steps above: when they can be taken, and the states they lead to.

  lemma LockStep<T>(s: State<T>, i: nat)
    requires Enabled(s, Lock(i))
    ensures i < |s.streams| && s.streams[i].Holding?
    ensures Next(s, Lock(i)) ==
      s.(log := s.log + [s.streams[i].item], streams := s.streams[i := Sending(s.streams[i].item, s.subs)])
  {
  }

  lemma OfferStep<T>(s: State<T>, i: nat, sub: nat)
    requires Inv(s) && i < |s.streams| && s.streams[i].Sending? && sub in s.streams[i].todo && sub in s.subs
    ensures Enabled(s, Offer(i, sub)) && !s.chans[sub].closed
    ensures Next(s, Offer(i, sub)) ==
      Send(s, sub, s.streams[i].item).(streams := s.streams[i := Sending(s.streams[i].item, s.streams[i].todo - {sub})])
  {
  }

  lemma UnlockStep<T>(s: State<T>, i: nat)
    requires i < |s.streams| && s.streams[i].Sending? && s.streams[i].todo == {}
    ensures Enabled(s, Unlock(i)) && Next(s, Unlock(i)) == s.(streams := s.streams[i := Waiting])
  {
  }

  lemma LockEndStep<T>(s: State<T>, i: nat)
    requires Enabled(s, LockEnd(i))
    ensures i < |s.streams| && Next(s, LockEnd(i)) == s.(streams := s.streams[i := Closing(s.subs)])
  {
  }

  lemma CloseStep<T>(s: State<T>, i: nat, sub: nat)
    requires i < |s.streams| && s.streams[i].Closing? && sub in s.streams[i].todo && sub in s.subs
    ensures Enabled(s, CloseOne(i, sub))
    ensures Next(s, CloseOne(i, sub)) ==
      Broadcast.Unsub(s, sub).(streams := s.streams[i := Closing(s.streams[i].todo - {sub})])
    ensures Broadcast.Unsub(s, sub).subs == s.subs - {sub} && SameDelivery(s, Broadcast.Unsub(s, sub))
  {
  }

  lemma FinishStep<T>(s: State<T>, i: nat)
    requires i < |s.streams| && s.streams[i].Closing? && s.streams[i].todo == {}
    ensures Enabled(s, Finish(i)) && Next(s, Finish(i)) == s.(running := false, streams := s.streams[i := Gone])
  {
  }
}
