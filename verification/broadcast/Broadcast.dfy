/** The fan-out protocol of pkg/broadcast/generic.go as a state machine.

    A step is what one goroutine does between two points where others can run: a critical section of
    the mutex, except that the two loops under the lock are taken one subscriber at a time, because
    consumers receive without the lock and may do so between two sends. */
module Broadcast {
  const CAPACITY: nat := 100

  /** One subscriber's channel: what is buffered, what its consumer has taken, how many items had been
      broadcast when it joined and, once it is closed, when it was closed. */
  datatype Channel<T> = Channel(buffer: seq<T>, received: seq<T>, joined: nat, closed: bool, left: nat) {
    function Delivered(): seq<T> { received + buffer }
  }

  /** Where a stream goroutine stands.  Sending and Closing hold the lock; todo is the part of the range
      over subs still to come. */
  datatype Phase<T> =
    | Waiting
    | Holding(item: T)
    | Sending(item: T, todo: set<nat>)
    | Ended
    | Closing(todo: set<nat>)
    | Gone

  datatype State<T> = State(
    running: bool, subs: set<nat>,     // the fields of Broadcaster
    chans: seq<Channel<T>>,            // every channel ever made
    streams: seq<Phase<T>>,            // one goroutine for every successful connect
    watchers: set<nat>,                // goroutines waiting for a context
    droppers: multiset<nat>,           // goroutines started for slow consumers
    log: seq<T>,                       // history: the items broadcast so far
    dropped: set<nat>,                 // history: the channels a dropper was ever started for
    panicked: bool)                    // a send on, or close of, a closed channel

  function Start<T>(): State<T> {
    State(false, {}, [], [], {}, multiset{}, [], {}, false)
  }

  datatype Step<T> =
    | Subscribe(connected: bool)
    | Cancel(sub: nat)
    | Drop(sub: nat)
    | Take(i: nat, item: T)
    | Hang(i: nat)
    | Lock(i: nat)
    | Offer(i: nat, sub: nat)
    | Unlock(i: nat)
    | LockEnd(i: nat)
    | CloseOne(i: nat, sub: nat)
    | Finish(i: nat)
    | Receive(sub: nat)

  predicate HoldsLock<T>(p: Phase<T>) { p.Sending? || p.Closing? }

  predicate Locked<T>(s: State<T>) {
    exists i :: 0 <= i < |s.streams| && HoldsLock(s.streams[i])
  }

  predicate Enabled<T>(s: State<T>, step: Step<T>) {
    match step
    case Subscribe(_) => !Locked(s)
    case Cancel(sub) => !Locked(s) && sub in s.watchers
    case Drop(sub) => !Locked(s) && sub in s.droppers
    case Take(i, _) => i < |s.streams| && s.streams[i].Waiting?
    case Hang(i) => i < |s.streams| && s.streams[i].Waiting?
    case Lock(i) => !Locked(s) && i < |s.streams| && s.streams[i].Holding?
    case Offer(i, sub) => i < |s.streams| && s.streams[i].Sending? && sub in s.streams[i].todo && sub < |s.chans|
    case Unlock(i) => i < |s.streams| && s.streams[i].Sending? && s.streams[i].todo == {}
    case LockEnd(i) => !Locked(s) && i < |s.streams| && s.streams[i].Ended?
    case CloseOne(i, sub) => i < |s.streams| && s.streams[i].Closing? && sub in s.streams[i].todo
    case Finish(i) => i < |s.streams| && s.streams[i].Closing? && s.streams[i].todo == {}
    case Receive(sub) => sub < |s.chans| && s.chans[sub].buffer != []
  }

  function Become<T>(s: State<T>, i: nat, p: Phase<T>): State<T>
    requires i < |s.streams|
  {
    s.(streams := s.streams[i := p])
  }

  /** unsub: close the channel and forget it, unless that was done before. */
  function Unsub<T>(s: State<T>, sub: nat): State<T> {
    if sub !in s.subs then s
    else if sub >= |s.chans| || s.chans[sub].closed then s.(subs := s.subs - {sub}, panicked := true)
    else s.(subs := s.subs - {sub}, chans := s.chans[sub := s.chans[sub].(closed := true, left := |s.log|)])
  }

  /** The select in stream: send if there is room, otherwise start a dropper. */
  function Send<T>(s: State<T>, sub: nat, item: T): State<T>
    requires sub < |s.chans|
  {
    var c := s.chans[sub];
    if c.closed then s.(panicked := true)
    else if |c.buffer| < CAPACITY then s.(chans := s.chans[sub := c.(buffer := c.buffer + [item])])
    else s.(droppers := s.droppers + multiset{sub}, dropped := s.dropped + {sub})
  }

  /** Subscribe with the lock held: connect first if no stream is running, and fail if that fails. */
  function Join<T>(s: State<T>, connected: bool): State<T> {
    if !s.running && !connected then s
    else
      var t := if s.running then s else s.(streams := s.streams + [Waiting], running := true);
      var sub := |t.chans|;
      t.(chans := t.chans + [Channel([], [], |t.log|, false, 0)],
         subs := t.subs + {sub}, watchers := t.watchers + {sub})
  }

  function Next<T>(s: State<T>, step: Step<T>): State<T>
    requires Enabled(s, step)
  {
    match step
    case Subscribe(connected) => Join(s, connected)
    case Cancel(sub) => Unsub(s.(watchers := s.watchers - {sub}), sub)
    case Drop(sub) => Unsub(s.(droppers := s.droppers - multiset{sub}), sub)
    case Take(i, item) => Become(s, i, Holding(item))
    case Hang(i) => Become(s, i, Ended)
    case Lock(i) =>
      Become(s.(log := s.log + [s.streams[i].item]), i, Sending(s.streams[i].item, s.subs))
    case Offer(i, sub) =>
      var p := s.streams[i];
      Become(Send(s, sub, p.item), i, Sending(p.item, p.todo - {sub}))
    case Unlock(i) => Become(s, i, Waiting)
    case LockEnd(i) => Become(s, i, Closing(s.subs))
    case CloseOne(i, sub) => Become(Unsub(s, sub), i, Closing(s.streams[i].todo - {sub}))
    case Finish(i) => Become(s.(running := false), i, Gone)
    case Receive(sub) =>
      var c := s.chans[sub];
      s.(chans := s.chans[sub := c.(buffer := c.buffer[1..], received := c.received + [c.buffer[0]])])
  }

  // -------- what always holds --------

  /** a can be had from b by leaving items out. */
  ghost predicate Subsequence<T>(a: seq<T>, b: seq<T>) {
    a == [] ||
    (b != [] &&
     var m, n := |a| - 1, |b| - 1;
     (a[m] == b[n] && Subsequence(a[..m], b[..n])) || Subsequence(a, b[..n]))
  }

  /** The subscriber's turn in the current round of sends is still to come. */
  ghost predicate Pending<T>(s: State<T>, sub: nat) {
    exists i :: 0 <= i < |s.streams| && s.streams[i].Sending? && sub in s.streams[i].todo
  }

  /** How far into the log a channel has been served. */
  ghost function Reach<T>(s: State<T>, sub: nat): int
    requires sub < |s.chans|
  {
    if s.chans[sub].closed then s.chans[sub].left
    else if Pending(s, sub) then |s.log| - 1
    else |s.log|
  }

  /** The items broadcast while the subscriber was there. */
  ghost function Due<T>(s: State<T>, sub: nat): seq<T>
    requires sub < |s.chans| && s.chans[sub].joined <= Reach(s, sub) <= |s.log|
  {
    s.log[s.chans[sub].joined..Reach(s, sub)]
  }

  /** Channels: open exactly while subscribed, and nobody has sent to or closed a closed one. */
  ghost predicate ChannelsSafe<T>(s: State<T>) {
    && !s.panicked
    && (forall sub: nat :: sub in s.subs <==> sub < |s.chans| && !s.chans[sub].closed)
    && (forall sub: nat :: sub in s.droppers ==> sub in s.dropped)
    && (forall sub: nat :: sub in s.dropped ==> sub < |s.chans|)
  }

  /** Streams: at most one is alive, exactly while running, and subscribers imply one. */
  ghost predicate StreamsSafe<T>(s: State<T>) {
    && (forall i, j :: 0 <= i < j < |s.streams| ==> s.streams[i].Gone? || s.streams[j].Gone?)
    && (s.running <==> exists i :: 0 <= i < |s.streams| && !s.streams[i].Gone?)
    && (s.subs != {} ==> s.running)
    && (forall i :: 0 <= i < |s.streams| ==>
        match s.streams[i]
        case Sending(item, todo) => todo <= s.subs && s.log != [] && s.log[|s.log| - 1] == item
        case Closing(todo) => todo == s.subs
        case _ => true)
  }

  ghost predicate Served<T>(s: State<T>, sub: nat)
    requires sub < |s.chans|
  {
    var c := s.chans[sub];
    && c.joined <= Reach(s, sub) <= |s.log|
    && |c.buffer| <= CAPACITY
    && Subsequence(c.Delivered(), Due(s, sub))
    && (if sub in s.dropped then |c.Delivered()| < |Due(s, sub)| else c.Delivered() == Due(s, sub))
    && (!c.closed && sub in s.dropped ==> sub in s.droppers)
  }

  ghost predicate Inv<T>(s: State<T>) {
    && ChannelsSafe(s) && StreamsSafe(s)
    && forall sub: nat :: sub < |s.chans| ==> Served(s, sub)
  }

  lemma StartHolds<T>()
    ensures Inv(Start<T>())
  {
  }

  lemma {:induction false} SubsequenceOfLonger<T>(a: seq<T>, b: seq<T>, x: T)
    requires Subsequence(a, b)
    ensures Subsequence(a, b + [x]) && Subsequence(a + [x], b + [x])
  {
    assert (b + [x])[..|b|] == b && (a + [x])[..|a|] == a;
  }

  lemma {:induction false} SubsequenceOfItself<T>(a: seq<T>)
    ensures Subsequence(a, a)
  {
    if a != [] {
      SubsequenceOfItself(a[..|a| - 1]);
    }
  }

  /** unsub touches nothing but the subscriber's channel and its place in subs. */
  lemma UnsubFrame<T>(s: State<T>, sub: nat)
    ensures var t := Unsub(s, sub);
      && t.subs == s.subs - {sub} && t.running == s.running && t.streams == s.streams && t.log == s.log
      && t.watchers == s.watchers && t.droppers == s.droppers && t.dropped == s.dropped && |t.chans| == |s.chans|
  {
  }

  lemma SendFrame<T>(s: State<T>, sub: nat, item: T)
    requires sub < |s.chans|
    ensures var t := Send(s, sub, item);
      && t.subs == s.subs && t.running == s.running && t.streams == s.streams && t.log == s.log
      && t.watchers == s.watchers && |t.chans| == |s.chans|
  {
  }

  lemma UnsubKeepsChannels<T>(s: State<T>, sub: nat)
    requires ChannelsSafe(s)
    ensures ChannelsSafe(Unsub(s, sub))
  {
  }

  lemma SendKeepsChannels<T>(s: State<T>, sub: nat, item: T)
    requires ChannelsSafe(s) && sub in s.subs
    ensures ChannelsSafe(Send(s, sub, item))
  {
  }

  lemma JoinKeepsChannels<T>(s: State<T>, connected: bool)
    requires ChannelsSafe(s)
    ensures ChannelsSafe(Join(s, connected))
  {
    var t := Join(s, connected);
    assert forall sub: nat :: sub < |s.chans| ==> t.chans[sub] == s.chans[sub];
  }

  /** Only these fields matter to the channels. */
  lemma SameChannels<T>(s: State<T>, t: State<T>)
    requires ChannelsSafe(s)
    requires t.subs == s.subs && t.chans == s.chans && t.panicked == s.panicked && t.dropped == s.dropped
    requires forall sub :: sub in t.droppers ==> sub in s.droppers
    ensures ChannelsSafe(t)
  {
  }

  lemma NextKeepsChannels<T>(s: State<T>, step: Step<T>)
    requires Inv(s) && Enabled(s, step)
    ensures ChannelsSafe(Next(s, step))
  {
    hide Served, Locked, ChannelsSafe, StreamsSafe, Unsub, Send, Join;
    var t := Next(s, step);
    match step
    case Subscribe(connected) => JoinKeepsChannels(s, connected);
    case Cancel(sub) =>
      SameChannels(s, s.(watchers := s.watchers - {sub}));
      UnsubKeepsChannels(s.(watchers := s.watchers - {sub}), sub);
    case Drop(sub) =>
      SameChannels(s, s.(droppers := s.droppers - multiset{sub}));
      UnsubKeepsChannels(s.(droppers := s.droppers - multiset{sub}), sub);
    case Offer(i, sub) =>
      OfferedIsSubscribed(s, i, sub);
      SendKeepsChannels(s, sub, s.streams[i].item);
      SameChannels(Send(s, sub, s.streams[i].item), t);
    case CloseOne(i, sub) =>
      UnsubKeepsChannels(s, sub);
      SameChannels(Unsub(s, sub), t);
    case Receive(sub) => ReceiveKeepsChannels(s, sub);
    case _ => SameChannels(s, t);
  }

  lemma OfferedIsSubscribed<T>(s: State<T>, i: nat, sub: nat)
    requires StreamsSafe(s) && Enabled(s, Offer(i, sub))
    ensures sub in s.subs
  {
    assert s.streams[i].Sending?;
  }

  lemma ReceiveKeepsChannels<T>(s: State<T>, sub: nat)
    requires ChannelsSafe(s) && Enabled(s, Receive(sub))
    ensures ChannelsSafe(Next(s, Receive(sub)))
  {
  }

  /** Replacing one live phase by another leaves the same single stream alive. */
  lemma OneStream<T>(s: State<T>, i: nat, p: Phase<T>, t: State<T>)
    requires StreamsSafe(s) && i < |s.streams| && !s.streams[i].Gone? && !p.Gone?
    requires t.streams == s.streams[i := p] && t.running == s.running && t.subs <= s.subs
    requires match p
      case Sending(item, todo) => todo <= t.subs && t.log != [] && t.log[|t.log| - 1] == item
      case Closing(todo) => todo == t.subs
      case _ => true
    ensures StreamsSafe(t)
  {
    assert t.streams[i] == p;
    assert forall j :: 0 <= j < |s.streams| && j != i ==> t.streams[j] == s.streams[j] && s.streams[j].Gone?;
  }

  /** Without a lock holder, subscribers may come and go. */
  lemma OnlySubscribers<T>(s: State<T>, t: State<T>)
    requires StreamsSafe(s) && !Locked(s)
    requires t.streams == s.streams && t.running == s.running && (t.subs <= s.subs || s.running)
    ensures StreamsSafe(t)
  {
    forall i | 0 <= i < |t.streams| ensures !HoldsLock(t.streams[i]) {}
  }

  lemma JoinKeepsStreams<T>(s: State<T>, connected: bool)
    requires StreamsSafe(s) && !Locked(s)
    ensures StreamsSafe(Join(s, connected))
  {
    var t := Join(s, connected);
    if s.running || !connected {
      OnlySubscribers(s, t);
    } else {
      assert t.streams[|s.streams|] == Waiting;
      assert forall i :: 0 <= i < |s.streams| ==> t.streams[i] == s.streams[i] && s.streams[i].Gone?;
    }
  }

  lemma OfferKeepsStreams<T>(s: State<T>, i: nat, sub: nat)
    requires StreamsSafe(s) && Enabled(s, Offer(i, sub))
    ensures StreamsSafe(Next(s, Offer(i, sub)))
  {
    hide Send;
    assert s.streams[i].Sending?;
    SendFrame(s, sub, s.streams[i].item);
    OneStream(s, i, Sending(s.streams[i].item, s.streams[i].todo - {sub}), Next(s, Offer(i, sub)));
  }

  lemma CloseKeepsStreams<T>(s: State<T>, i: nat, sub: nat)
    requires StreamsSafe(s) && Enabled(s, CloseOne(i, sub))
    ensures StreamsSafe(Next(s, CloseOne(i, sub)))
  {
    hide Unsub;
    assert s.streams[i].Closing?;
    UnsubFrame(s, sub);
    OneStream(s, i, Closing(s.streams[i].todo - {sub}), Next(s, CloseOne(i, sub)));
  }

  lemma FinishKeepsStreams<T>(s: State<T>, i: nat)
    requires StreamsSafe(s) && Enabled(s, Finish(i))
    ensures StreamsSafe(Next(s, Finish(i)))
  {
    var t := Next(s, Finish(i));
    assert s.streams[i].Closing?;
    assert forall j :: 0 <= j < |s.streams| ==> t.streams[j].Gone?;
  }

  lemma LockKeepsStreams<T>(s: State<T>, i: nat)
    requires StreamsSafe(s) && Enabled(s, Lock(i))
    ensures StreamsSafe(Next(s, Lock(i)))
  {
    hide Locked;
    OneStream(s, i, Sending(s.streams[i].item, s.subs), Next(s, Lock(i)));
  }

  lemma NextKeepsStreams<T>(s: State<T>, step: Step<T>)
    requires Inv(s) && Enabled(s, step)
    ensures StreamsSafe(Next(s, step))
  {
    hide Served, ChannelsSafe, StreamsSafe, Locked, Unsub, Send, Join;
    var t := Next(s, step);
    match step
    case Subscribe(connected) => JoinKeepsStreams(s, connected);
    case Cancel(sub) =>
      UnsubFrame(s.(watchers := s.watchers - {sub}), sub);
      OnlySubscribers(s, t);
    case Drop(sub) =>
      UnsubFrame(s.(droppers := s.droppers - multiset{sub}), sub);
      OnlySubscribers(s, t);
    case Take(i, item) => OneStream(s, i, Holding(item), t);
    case Hang(i) => OneStream(s, i, Ended, t);
    case Lock(i) => LockKeepsStreams(s, i);
    case Offer(i, sub) => OfferKeepsStreams(s, i, sub);
    case Unlock(i) => OneStream(s, i, Waiting, t);
    case LockEnd(i) => OneStream(s, i, Closing(s.subs), t);
    case CloseOne(i, sub) => CloseKeepsStreams(s, i, sub);
    case Finish(i) => FinishKeepsStreams(s, i);
    case Receive(_) => SameStreams(s, t);
  }

  lemma SameStreams<T>(s: State<T>, t: State<T>)
    requires StreamsSafe(s) && t.streams == s.streams && t.running == s.running && t.subs == s.subs && t.log == s.log
    ensures StreamsSafe(t)
  {
  }

  // -------- delivery --------

  lemma SameService<T>(s: State<T>, t: State<T>, sub: nat)
    requires sub < |s.chans| && sub < |t.chans| && Served(s, sub)
    requires t.log == s.log && t.chans[sub] == s.chans[sub]
    requires Pending(t, sub) <==> Pending(s, sub)
    requires sub in t.dropped <==> sub in s.dropped
    requires sub in s.droppers ==> sub in t.droppers
    ensures Served(t, sub)
  {
    hide Subsequence;
  }

  /** Whose turn is to come is decided by the one stream that is alive. */
  lemma PendingIn<T>(s: State<T>, i: nat, sub: nat)
    requires StreamsSafe(s) && i < |s.streams| && !s.streams[i].Gone?
    ensures Pending(s, sub) <==> s.streams[i].Sending? && sub in s.streams[i].todo
  {
  }

  /** unsub by a goroutine that holds the lock while nobody is sending. */
  lemma Closes<T>(s: State<T>, t: State<T>, x: nat, sub: nat)
    requires ChannelsSafe(s) && sub < |s.chans| && Served(s, sub)
    requires !Pending(s, sub) && !Pending(t, sub)
    requires t.log == s.log && t.dropped == s.dropped && t.chans == Unsub(s, x).chans
    requires sub != x ==> (sub in s.droppers ==> sub in t.droppers)
    requires sub == x ==> sub in t.droppers || sub in Unsub(s, x).subs || t.chans[sub].closed
    ensures Served(t, sub)
  {
    hide Subsequence, Pending;
  }

  lemma Locks<T>(s: State<T>, i: nat, sub: nat)
    requires Inv(s) && Enabled(s, Lock(i)) && sub < |s.chans|
    ensures Served(Next(s, Lock(i)), sub)
  {
    hide Subsequence;
    var t := Next(s, Lock(i));
    assert Served(s, sub) && !Pending(s, sub);
    assert t.streams[i].Sending?;
    PendingIn(s, i, sub);
    assert Pending(t, sub) <==> sub in s.subs by {
      assert forall j :: 0 <= j < |s.streams| && j != i ==> t.streams[j] == s.streams[j];
    }
    assert Due(t, sub) == Due(s, sub);
  }

  lemma Offers<T>(s: State<T>, i: nat, x: nat, sub: nat)
    requires Inv(s) && Enabled(s, Offer(i, x)) && sub < |s.chans|
    requires StreamsSafe(Next(s, Offer(i, x)))
    ensures Served(Next(s, Offer(i, x)), sub)
  {
    hide Subsequence, Served, Send, ChannelsSafe, StreamsSafe, Pending;
    var t, u, item := Next(s, Offer(i, x)), Send(s, x, s.streams[i].item), s.streams[i].item;
    assert Served(s, sub);
    SendFrame(s, x, item);
    OfferedIsSubscribed(s, i, x);
    PendingIn(s, i, sub);
    PendingIn(t, i, sub);
    if x != sub {
      SendsElsewhere(s, x, item, sub);
      SameService(s, t, sub);
    } else {
      OfferedLast(s, i, item);
      SubscribedIsOpen(s, sub);
      ServesOne(s, t, sub, item);
    }
  }

  lemma OfferedLast<T>(s: State<T>, i: nat, item: T)
    requires StreamsSafe(s) && i < |s.streams| && s.streams[i].Sending? && s.streams[i].item == item
    ensures s.log != [] && s.log[|s.log| - 1] == item
  {
  }

  lemma SubscribedIsOpen<T>(s: State<T>, sub: nat)
    requires ChannelsSafe(s) && sub in s.subs
    ensures sub < |s.chans| && !s.chans[sub].closed
  {
  }

  lemma SendsElsewhere<T>(s: State<T>, x: nat, item: T, sub: nat)
    requires x < |s.chans| && sub < |s.chans| && x != sub
    ensures var t := Send(s, x, item);
      && t.chans[sub] == s.chans[sub] && (sub in t.dropped <==> sub in s.dropped)
      && (sub in s.droppers ==> sub in t.droppers)
  {
  }

  /** A subscriber's own turn: it gets the newest item, or a dropper. */
  lemma ServesOne<T>(s: State<T>, t: State<T>, sub: nat, item: T)
    requires sub < |s.chans| && |t.chans| == |s.chans| && Served(s, sub) && !s.chans[sub].closed
    requires s.log != [] && s.log[|s.log| - 1] == item && Pending(s, sub) && !Pending(t, sub)
    requires var u := Send(s, sub, item);
      t.chans == u.chans && t.log == s.log && t.dropped == u.dropped && t.droppers == u.droppers
    ensures Served(t, sub)
  {
    hide Subsequence, Pending;
    var c := s.chans[sub];
    assert Due(t, sub) == Due(s, sub) + [item];
    SubsequenceOfLonger(c.Delivered(), Due(s, sub), item);
    assert |c.buffer| < CAPACITY ==> t.chans[sub].Delivered() == c.Delivered() + [item];
  }

  lemma ClosesOne<T>(s: State<T>, i: nat, x: nat, sub: nat)
    requires Inv(s) && Enabled(s, CloseOne(i, x)) && StreamsSafe(Next(s, CloseOne(i, x)))
    requires sub < |s.chans|
    ensures sub < |Next(s, CloseOne(i, x)).chans| && Served(Next(s, CloseOne(i, x)), sub)
  {
    hide Subsequence, Served, StreamsSafe, Pending;
    var t := Next(s, CloseOne(i, x));
    assert Served(s, sub);
    PendingIn(s, i, sub);
    PendingIn(t, i, sub);
    Closes(s, t, x, sub);
  }

  lemma Receives<T>(s: State<T>, x: nat, sub: nat)
    requires sub < |s.chans| && Served(s, sub) && Enabled(s, Receive(x))
    ensures Served(Next(s, Receive(x)), sub)
  {
    hide Subsequence;
    var t := Next(s, Receive(x));
    assert Pending(t, sub) == Pending(s, sub);
    assert t.chans[sub].Delivered() == s.chans[sub].Delivered();
  }

  lemma NextServes<T>(s: State<T>, step: Step<T>, sub: nat)
    requires Inv(s) && Enabled(s, step) && ChannelsSafe(Next(s, step)) && StreamsSafe(Next(s, step))
    requires sub < |Next(s, step).chans|
    ensures Served(Next(s, step), sub)
  {
    hide Subsequence, Locked, Served, ChannelsSafe, StreamsSafe, Unsub, Send, Join;
    match step
    case Subscribe(connected) => Joins(s, connected, sub);
    case Cancel(x) =>
      UnsubFrame(s.(watchers := s.watchers - {x}), x);
      Unlocks(s, step, sub);
    case Drop(x) =>
      UnsubFrame(s.(droppers := s.droppers - multiset{x}), x);
      Unlocks(s, step, sub);
    case Lock(i) => Locks(s, i, sub);
    case Offer(i, x) =>
      SendFrame(s, x, s.streams[i].item);
      Offers(s, i, x, sub);
    case CloseOne(i, x) =>
      UnsubFrame(s, x);
      ClosesOne(s, i, x, sub);
    case Receive(x) => Receives(s, x, sub);
    case _ => StreamMoves(s, step, sub);
  }

  lemma Joins<T>(s: State<T>, connected: bool, sub: nat)
    requires Inv(s) && Enabled(s, Subscribe(connected)) && sub < |Next(s, Subscribe(connected)).chans|
    ensures Served(Next(s, Subscribe(connected)), sub)
  {
    var t := Next(s, Subscribe(connected));
    assert !Pending(t, sub) && !Pending(s, sub);
    if sub < |s.chans| {
      assert Served(s, sub);
      SameService(s, t, sub);
    } else {
      assert t.chans[sub].joined == |t.log|;
      assert sub !in s.dropped;
    }
  }

  lemma Unlocks<T>(s: State<T>, step: Step<T>, sub: nat)
    requires Inv(s) && Enabled(s, step) && (step.Cancel? || step.Drop?) && sub < |s.chans|
    ensures sub < |Next(s, step).chans| && Served(Next(s, step), sub)
  {
    hide Subsequence;
    var t := Next(s, step);
    assert Served(s, sub);
    assert !Pending(s, sub) && !Pending(t, sub);
    Closes(s, t, step.sub, sub);
  }

  /** Steps that move the stream but neither send nor close. */
  lemma StreamMoves<T>(s: State<T>, step: Step<T>, sub: nat)
    requires Inv(s) && Enabled(s, step) && sub < |s.chans|
    requires step.Take? || step.Hang? || step.Unlock? || step.LockEnd? || step.Finish?
    requires StreamsSafe(Next(s, step))
    ensures Served(Next(s, step), sub)
  {
    hide Subsequence, Locked;
    var t := Next(s, step);
    assert Served(s, sub);
    PendingIn(s, step.i, sub);
    assert !Pending(t, sub) by {
      if !t.streams[step.i].Gone? { PendingIn(t, step.i, sub); }
    }
    SameService(s, t, sub);
  }

  /** Every step keeps the invariant. */
  lemma NextHolds<T>(s: State<T>, step: Step<T>)
    requires Inv(s) && Enabled(s, step)
    ensures Inv(Next(s, step))
  {
    hide ChannelsSafe, StreamsSafe, Served;
    NextKeepsChannels(s, step);
    NextKeepsStreams(s, step);
    forall sub: nat | sub < |Next(s, step).chans| ensures Served(Next(s, step), sub) {
      NextServes(s, step, sub);
    }
  }

  // -------- over all runs --------

  /** One of the possible interleavings. */
  ghost predicate IsRun<T(!new)>(states: seq<State<T>>, steps: seq<Step<T>>) {
    && |states| == |steps| + 1 && states[0] == Start<T>()
    && forall n :: 0 <= n < |steps| ==> Enabled(states[n], steps[n]) && states[n + 1] == Next(states[n], steps[n])
  }

  lemma {:induction false} InvAlways<T(!new)>(states: seq<State<T>>, steps: seq<Step<T>>, n: nat)
    requires IsRun(states, steps) && n < |states|
    ensures Inv(states[n])
  {
    hide Inv, Enabled, Next;
    if n == 0 {
      StartHolds<T>();
    } else {
      InvAlways(states, steps, n - 1);
      NextHolds(states[n - 1], steps[n - 1]);
    }
  }

  /** Safety, in every interleaving: no send on and no second close of a closed channel; a channel is in
      subs exactly while it is open; at most one stream goroutine is alive, exactly while running; and
      there are no subscribers without it. */
  lemma Safety<T(!new)>(states: seq<State<T>>, steps: seq<Step<T>>, n: nat)
    requires IsRun(states, steps) && n < |states|
    ensures var s := states[n];
      && !s.panicked
      && (forall sub: nat :: sub in s.subs <==> sub < |s.chans| && !s.chans[sub].closed)
      && (forall i, j :: 0 <= i < j < |s.streams| ==> s.streams[i].Gone? || s.streams[j].Gone?)
      && (s.running <==> exists i :: 0 <= i < |s.streams| && !s.streams[i].Gone?)
      && (s.subs != {} ==> s.running)
  {
    InvAlways(states, steps, n);
  }

  /** Delivery, in every interleaving: what a subscriber got, with its buffer of at most 100 items, is the
      broadcast items of its time in their order; some are missing exactly if it was ever found full, and
      while it is open exactly if a goroutine to close it is still to run. */
  lemma Delivery<T(!new)>(states: seq<State<T>>, steps: seq<Step<T>>, n: nat, sub: nat)
    requires IsRun(states, steps) && n < |states| && sub < |states[n].chans|
    ensures var s := states[n];
      var c := s.chans[sub];
      && c.joined <= Reach(s, sub) <= |s.log|
      && |c.buffer| <= 100
      && Subsequence(c.received + c.buffer, Due(s, sub))
      && (c.received + c.buffer == Due(s, sub) <==> sub !in s.dropped)
      && (!c.closed ==> (c.received + c.buffer == Due(s, sub) <==> sub !in s.droppers))
  {
    InvAlways(states, steps, n);
    assert Served(states[n], sub);
  }

  /** Between rounds, a subscriber that nobody is about to drop holds every item since it joined. */
  lemma NothingMissing<T(!new)>(states: seq<State<T>>, steps: seq<Step<T>>, n: nat, sub: nat)
    requires IsRun(states, steps) && n < |states| && sub in states[n].subs
    requires !Locked(states[n]) && sub !in states[n].droppers
    ensures sub < |states[n].chans|
    ensures var c := states[n].chans[sub];
      c.joined <= |states[n].log| && c.received + c.buffer == states[n].log[c.joined..]
  {
    Safety(states, steps, n);
    Delivery(states, steps, n, sub);
    assert !Pending(states[n], sub);
  }

  /** A closed channel stays closed, and nothing is added to what it delivers. */
  lemma ClosedIsFinal<T>(s: State<T>, step: Step<T>, sub: nat)
    requires Inv(s) && Enabled(s, step) && sub < |s.chans| && s.chans[sub].closed
    ensures sub < |Next(s, step).chans|
    ensures var c, d := s.chans[sub], Next(s, step).chans[sub];
      d.closed && d.left == c.left && d.Delivered() == c.Delivered()
  {
    hide Served, StreamsSafe, Locked;
    if step.Offer? {
      OfferedIsSubscribed(s, step.i, step.sub);
    } else if step.Receive? && step.sub == sub {
      assert s.chans[sub].Delivered() == Next(s, step).chans[sub].Delivered();
    }
  }

  /** What the steps are for.  A subscription that can be served opens a channel of its own, watched and empty,
      and one that cannot changes nothing; a cancelled subscriber, or one to be dropped, is closed and forgotten;
      a consumer takes the oldest item that it has not taken; a round of sends is for everybody subscribed, and
      gives an item to whoever has room for it. */
  lemma StepsDo<T>(s: State<T>, step: Step<T>)
    requires Inv(s) && Enabled(s, step)
    ensures var t, n := Next(s, step), |s.chans|;
      match step
      case Subscribe(connected) =>
        if s.running || connected then
          && t.running && |t.chans| == n + 1 && t.chans[..n] == s.chans && t.subs == s.subs + {n} && n in t.watchers
          && !t.chans[n].closed && t.chans[n].received == [] && t.chans[n].buffer == []
        else t == s
      case Cancel(sub) =>
        sub !in t.subs && sub !in t.watchers && (sub < n ==> t.chans[sub].closed) && t.subs == s.subs - {sub}
      case Drop(sub) => sub !in t.subs && t.chans[sub].closed && t.subs == s.subs - {sub}
      case Receive(sub) =>
        var c, d := s.chans[sub], t.chans[sub];
        d.received == (c.received + c.buffer)[..|c.received| + 1] && d.received + d.buffer == c.received + c.buffer
      case Lock(i) =>
        t.streams[i].Sending? && t.streams[i].todo == s.subs && t.log == s.log + [s.streams[i].item]
      case Offer(i, sub) =>
        var c, d := s.chans[sub], t.chans[sub];
        d.buffer == (if |c.buffer| < 100 then c.buffer + [s.streams[i].item] else c.buffer) && d.received == c.received
      case _ => true
  {
    hide Served, Subsequence, Locked;
    match step
    case Offer(i, sub) => OfferedIsSubscribed(s, i, sub);
    case Receive(sub) =>
      var c := s.chans[sub];
      assert c.buffer == [c.buffer[0]] + c.buffer[1..];
    case _ =>
  }

  /** Every open channel is watched, so that cancelling its context will close it. */
  lemma {:induction false} OpenIsWatched<T(!new)>(states: seq<State<T>>, steps: seq<Step<T>>, n: nat, sub: nat)
    requires IsRun(states, steps) && n < |states| && sub in states[n].subs
    ensures sub in states[n].watchers
  {
    hide Enabled, Next;
    if n > 0 {
      if sub in states[n - 1].subs {
        OpenIsWatched(states, steps, n - 1, sub);
      }
      WatchedOn(states[n - 1], steps[n - 1], sub);
    }
  }

  lemma WatchedOn<T>(s: State<T>, step: Step<T>, sub: nat)
    requires Enabled(s, step) && (sub in s.subs ==> sub in s.watchers)
    ensures sub in Next(s, step).subs ==> sub in Next(s, step).watchers
  {
    hide Locked, Unsub, Send;
    match step
    case Cancel(c) => UnsubFrame(s.(watchers := s.watchers - {c}), c);
    case Drop(c) => UnsubFrame(s.(droppers := s.droppers - multiset{c}), c);
    case Offer(i, c) => SendFrame(s, c, s.streams[i].item);
    case CloseOne(i, c) => UnsubFrame(s, c);
    case _ =>
  }

  /** When a stream has ended, nobody is left subscribed, including whoever subscribed meanwhile. */
  lemma EndLeavesNobody<T>(s: State<T>, i: nat)
    requires Inv(s) && Enabled(s, Finish(i))
    ensures Next(s, Finish(i)).subs == {} && forall sub: nat :: sub < |s.chans| ==> s.chans[sub].closed
  {
    assert s.streams[i].Closing?;
  }
}
