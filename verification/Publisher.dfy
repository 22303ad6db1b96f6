/**
 The retrieval event publisher: a queue of at most 16 events, a loop that takes
 one event at a time, snapshots the subscribers and then delivers, and
 subscriptions that come and go at any moment.
 */
module Publisher {

  const CAPACITY: nat := 16

  /** Where the loop goroutine is. `todo` lists the subscriptions of the snapshot not yet called. */
  datatype Loop<E> =
    | Waiting
    | Taken(event: E)
    | Delivering(event: E, todo: seq<nat>)
    | Stopped

  /**
   The fields of the publisher, its loop, and the history the specification
   talks about. A subscription is identified by the index it was given.
   */
  datatype State<E, S> = State(
    subscribers: map<nat, S>,
    idx: nat,
    queue: seq<E>,
    cancelled: bool,
    loop: Loop<E>,
    // history
    published: seq<E>,              // accepted by Publish
    snapshots: nat,                 // events for which the subscribers were snapshotted
    since: map<nat, nat>,           // snapshots taken before the subscription was made
    until: map<nat, nat>,           // snapshots taken before it was ended
    received: map<nat, seq<E>>)     // calls of OnRetrievalEvent

  function Initial<E, S>(): State<E, S> {
    State(map[], 0, [], false, Waiting, [], 0, map[], map[], map[])
  }

  datatype Action<E, S> =
    | Subscribe(subscriber: S)
    | Unsubscribe(index: nat)
    | Publish(event: E)
    | DropPublish(event: E)      // Publish returns because the context is done
    | Cancel                     // the context is done
    | Take
    | Snapshot(order: seq<nat>)  // map iteration order is arbitrary
    | Deliver
    | Stop

  predicate Distinct(s: seq<nat>) { forall i, j :: 0 <= i < j < |s| ==> s[i] != s[j] }

  function Elements(s: seq<nat>): set<nat> { set x | x in s }

  predicate Enabled<E, S>(s: State<E, S>, a: Action<E, S>) {
    match a
    case Unsubscribe(index) => index < s.idx
    case Publish(_) => |s.queue| < CAPACITY
    case DropPublish(_) => s.cancelled
    case Take => s.loop.Waiting? && s.queue != []
    case Snapshot(order) => s.loop.Taken? && Distinct(order) && Elements(order) == s.subscribers.Keys
    case Deliver => s.loop.Delivering?
    case Stop => s.loop.Waiting? && s.cancelled
    case _ => true
  }

  function Received<E, S>(s: State<E, S>, i: nat): seq<E> {
    if i in s.received then s.received[i] else []
  }

  function Next<E, S>(s: State<E, S>, a: Action<E, S>): State<E, S>
    requires Enabled(s, a)
  {
    match a
    case Subscribe(sub) =>
      s.(subscribers := s.subscribers[s.idx := sub], idx := s.idx + 1,
      since := s.since[s.idx := s.snapshots], received := s.received[s.idx := []])
    case Unsubscribe(index) =>
      s.(subscribers := s.subscribers - {index},
      until := if index in s.subscribers then s.until[index := s.snapshots] else s.until)
    case Publish(event) => s.(queue := s.queue + [event], published := s.published + [event])
    case DropPublish(_) => s
    case Cancel => s.(cancelled := true)
    case Take => s.(queue := s.queue[1..], loop := Taken(s.queue[0]))
    case Snapshot(order) => s.(loop := Delivering(s.loop.event, order), snapshots := s.snapshots + 1)
    case Deliver =>
      if s.loop.todo == [] then s.(loop := Waiting)
      else
        var i := s.loop.todo[0];
        s.(loop := Delivering(s.loop.event, s.loop.todo[1..]),
        received := s.received[i := Received(s, i) + [s.loop.event]])
    case Stop => s.(loop := Stopped)
  }

  ghost predicate Schedule<E(!new), S(!new)>(actions: seq<Action<E, S>>)
    decreases |actions|, 0
  {
    actions != [] ==>
      var n := |actions| - 1;
      Schedule(actions[..n]) && Enabled(Run(actions[..n]), actions[n])
  }

  ghost function Run<E(!new), S(!new)>(actions: seq<Action<E, S>>): State<E, S>
    requires Schedule(actions)
    decreases |actions|, 1
  {
    if actions == [] then Initial()
    else Next(Run(actions[..|actions| - 1]), actions[|actions| - 1])
  }

  // ----- what is due to each subscription -----

  /** Events taken from the queue so far. */
  function TakenCount<E, S>(s: State<E, S>): nat {
    s.snapshots + if s.loop.Taken? then 1 else 0
  }

  /** Snapshots the subscription is part of end here. */
  function End<E, S>(s: State<E, S>, i: nat): nat {
    if i in s.until then s.until[i] else s.snapshots
  }

  /** The current event has been snapshotted for this subscription but not delivered to it yet. */
  predicate InFlight<E, S>(s: State<E, S>, i: nat) { s.loop.Delivering? && i in s.loop.todo }

  /** What subscription `i` has received is its slice of the published sequence, but for an event in flight. */
  ghost predicate HasItsSlice<E, S>(s: State<E, S>, i: nat)
    requires s.snapshots <= |s.published|
  {
    && i in s.since && s.since[i] <= End(s, i) <= s.snapshots
    && (InFlight(s, i) ==> s.since[i] < End(s, i) == s.snapshots)
    && Received(s, i) == s.published[s.since[i]..End(s, i) - if InFlight(s, i) then 1 else 0]
  }

  /** The published sequence is what was taken, in order, followed by the queue. */
  ghost predicate QueueIsRest<E, S>(s: State<E, S>) {
    && |s.queue| <= CAPACITY
    && TakenCount(s) <= |s.published|
    && s.queue == s.published[TakenCount(s)..]
    && (s.loop.Taken? ==> s.loop.event == s.published[s.snapshots])
    && (s.loop.Delivering? ==> s.snapshots > 0 && s.loop.event == s.published[s.snapshots - 1])
  }

  ghost predicate QueueAndSlices<E, S>(s: State<E, S>) {
    QueueIsRest(s) && forall i: nat :: i < s.idx ==> HasItsSlice(s, i)
  }

  ghost predicate TablesInv<E, S>(s: State<E, S>) {
    && (forall i: nat :: i in s.since ==> i < s.idx)
    && (forall i: nat :: i in s.received <==> i < s.idx)
    && (forall i: nat :: i in s.until ==> i < s.idx)
    && (forall i: nat :: i in s.subscribers <==> i < s.idx && i !in s.until)
    && (s.loop.Delivering? ==> Distinct(s.loop.todo) && forall i :: i in s.loop.todo ==> i < s.idx)
  }

  ghost predicate Inv<E, S>(s: State<E, S>) { TablesInv(s) && QueueAndSlices(s) }

  lemma TablesKept<E, S>(s: State<E, S>, a: Action<E, S>)
    requires TablesInv(s) && Enabled(s, a)
    ensures TablesInv(Next(s, a))
  {
    if a.Snapshot? {
      assert forall i :: i in a.order <==> i in Elements(a.order);
    } else if a.Deliver? && s.loop.todo != [] {
      assert s.loop.todo[0] in s.loop.todo;
      assert forall i :: i in s.loop.todo[1..] ==> i in s.loop.todo;
    }
  }

  lemma QueueAfterPublish<E, S>(s: State<E, S>, event: E)
    requires QueueIsRest(s) && |s.queue| < CAPACITY
    ensures QueueIsRest(Next(s, Publish(event)))
  {
    var n := TakenCount(s);
    assert (s.published + [event])[n..] == s.published[n..] + [event];
  }

  lemma QueueAfterTake<E, S>(s: State<E, S>)
    requires QueueIsRest(s) && Enabled(s, Action<E, S>.Take)
    ensures QueueIsRest(Next(s, Action<E, S>.Take))
  {
    assert s.published[s.snapshots..][0] == s.published[s.snapshots];
    assert s.published[s.snapshots..][1..] == s.published[s.snapshots + 1..];
  }

  lemma QueueKept<E, S>(s: State<E, S>, a: Action<E, S>)
    requires QueueIsRest(s) && Enabled(s, a)
    ensures QueueIsRest(Next(s, a))
  {
    match a {
      case Publish(event) => QueueAfterPublish(s, event);
      case Take => QueueAfterTake(s);
      case _ =>
    }
  }

  /** A snapshot extends the slice of exactly the registered subscriptions. */
  lemma SliceAfterSnapshot<E, S>(s: State<E, S>, order: seq<nat>, i: nat)
    requires TablesInv(s) && QueueIsRest(s) && Enabled(s, Snapshot(order))
    requires i < s.idx && HasItsSlice(s, i)
    ensures HasItsSlice(Next(s, Snapshot(order)), i)
  {
    assert i in order <==> i in Elements(order);
  }

  /** A delivery appends the event in flight to what the first in line has received. */
  lemma SliceOfReceiver<E, S>(s: State<E, S>)
    requires TablesInv(s) && QueueIsRest(s) && s.loop.Delivering? && s.loop.todo != []
    requires s.loop.todo[0] < s.idx && HasItsSlice(s, s.loop.todo[0])
    ensures HasItsSlice(Next(s, Action<E, S>.Deliver), s.loop.todo[0])
  {
    var todo, i := s.loop.todo, s.loop.todo[0];
    assert todo == [i] + todo[1..];
    assert i in todo && i !in todo[1..];
    var from, to := s.since[i], s.snapshots;
    assert s.published[from..to] == s.published[from..to - 1] + [s.published[to - 1]];
  }

  lemma SliceOfOther<E, S>(s: State<E, S>, i: nat)
    requires TablesInv(s) && QueueIsRest(s) && s.loop.Delivering? && s.loop.todo != []
    requires i < s.idx && i != s.loop.todo[0] && HasItsSlice(s, i)
    ensures HasItsSlice(Next(s, Action<E, S>.Deliver), i)
  {
    var todo := s.loop.todo;
    assert todo == [todo[0]] + todo[1..];
    assert i in todo <==> i in todo[1..];
  }

  lemma SliceAfterPublish<E, S>(s: State<E, S>, event: E, i: nat)
    requires s.snapshots <= |s.published| && HasItsSlice(s, i) && |s.queue| < CAPACITY
    ensures HasItsSlice(Next(s, Publish(event)), i)
  {
    var from, to := s.since[i], End(s, i) - if InFlight(s, i) then 1 else 0;
    assert (s.published + [event])[from..to] == s.published[from..to];
  }

  /** Subscribing, ending a subscription and the other steps of the loop. */
  lemma SliceAfterOther<E, S>(s: State<E, S>, a: Action<E, S>, i: nat)
    requires TablesInv(s) && QueueIsRest(s) && Enabled(s, a)
    requires !a.Snapshot? && !a.Publish? && !(a.Deliver? && s.loop.todo != [])
    requires i < Next(s, a).idx && (i < s.idx ==> HasItsSlice(s, i))
    ensures HasItsSlice(Next(s, a), i)
  {
  }

  lemma NextKeepsInv<E, S>(s: State<E, S>, a: Action<E, S>)
    requires Inv(s) && Enabled(s, a)
    ensures Inv(Next(s, a))
  {
    TablesKept(s, a);
    QueueKept(s, a);
    forall i: nat | i < Next(s, a).idx
      ensures HasItsSlice(Next(s, a), i)
    {
      if a.Snapshot? {
        SliceAfterSnapshot(s, a.order, i);
      } else if a.Publish? {
        SliceAfterPublish(s, a.event, i);
      } else if a.Deliver? && s.loop.todo != [] {
        if i == s.loop.todo[0] {
          SliceOfReceiver(s);
        } else {
          SliceOfOther(s, i);
        }
      } else {
        SliceAfterOther(s, a, i);
      }
    }
  }

  lemma {:induction false} RunsKeepInv<E(!new), S(!new)>(actions: seq<Action<E, S>>)
    requires Schedule(actions)
    ensures Inv(Run(actions))
  {
    if actions == [] {
      var s: State<E, S> := Initial();
      assert s.published[0..] == [];
    } else {
      var n := |actions| - 1;
      RunsKeepInv(actions[..n]);
      NextKeepsInv(Run(actions[..n]), actions[n]);
    }
  }

  // ----- main results -----

  /** The event the loop is working on, which has left the queue but is not yet delivered to everyone. */
  function Processing<E, S>(s: State<E, S>): seq<E> {
    match s.loop
    case Taken(event) => [event]
    case Delivering(event, _) => [event]
    case _ => []
  }

  /** Events delivered to everyone they are due to. */
  function Processed<E, S>(s: State<E, S>): int { s.snapshots - if s.loop.Delivering? then 1 else 0 }

  ghost predicate Conserved<E, S>(s: State<E, S>) {
    && |s.queue| <= CAPACITY
    && 0 <= Processed(s) <= |s.published|
    && s.published == s.published[..Processed(s)] + Processing(s) + s.queue
  }

  lemma ConservedByInv<E, S>(s: State<E, S>)
    requires QueueIsRest(s)
    ensures Conserved(s)
  {
    var n := Processed(s);
    assert s.published == s.published[..n] + s.published[n..];
    if TakenCount(s) > n {
      assert s.published[n..] == [s.published[n]] + s.published[n + 1..];
    }
  }

  /** Published events are processed, in the loop's hands, or queued, in this order; at most 16 are queued. */
  lemma {:induction false} PublishedIsConserved<E(!new), S(!new)>(actions: seq<Action<E, S>>)
    requires Schedule(actions)
    ensures Conserved(Run(actions))
  {
    RunsKeepInv(actions);
    ConservedByInv(Run(actions));
  }

  /** The events subscription `i` was snapshotted for, given that they have been published. */
  ghost predicate Delivered<E, S>(s: State<E, S>, i: nat) {
    && i in s.since && i in s.received && s.since[i] <= End(s, i) <= |s.published|
    && var due := s.published[s.since[i]..End(s, i)];
       if InFlight(s, i) then s.received[i] + [s.loop.event] == due else s.received[i] == due
  }

  lemma DeliveredByInv<E, S>(s: State<E, S>, i: nat)
    requires QueueIsRest(s) && HasItsSlice(s, i) && i in s.received
    ensures Delivered(s, i)
  {
    if InFlight(s, i) {
      var from, to := s.since[i], s.snapshots;
      assert s.published[from..to] == s.published[from..to - 1] + [s.published[to - 1]];
    }
  }

  /**
   Every subscription has received, in order and without gap or repetition, the
   contiguous slice of the published sequence that was snapshotted while it was
   registered; only the last event of the slice may still be in flight.
   */
  lemma EachSubscriptionGetsItsSlice<E(!new), S(!new)>(actions: seq<Action<E, S>>, i: nat)
    requires Schedule(actions) && i < Run(actions).idx
    ensures Delivered(Run(actions), i)
  {
    RunsKeepInv(actions);
    DeliveredByInv(Run(actions), i);
  }

  // ----- after an unsubscribe, and the subscriber count -----

  /** How the record of a subscription and the published sequence may change. */
  ghost predicate OnlyGrows<E, S>(s: State<E, S>, e: State<E, S>, i: nat) {
    && s.published <= e.published
    && (i < s.idx ==> i < e.idx && i in s.since && i in e.since && e.since[i] == s.since[i]
                      && Received(s, i) <= Received(e, i))
    && (i in s.until ==> i in e.until && e.until[i] == s.until[i])
  }

  lemma NextOnlyGrows<E, S>(s: State<E, S>, a: Action<E, S>, i: nat)
    requires Inv(s) && Enabled(s, a)
    ensures OnlyGrows(s, Next(s, a), i)
  {
    if i < s.idx {
      assert HasItsSlice(s, i);
    }
  }

  lemma GrowsOn<E, S>(s: State<E, S>, m: State<E, S>, e: State<E, S>, i: nat)
    requires OnlyGrows(s, m, i) && OnlyGrows(m, e, i)
    ensures OnlyGrows(s, e, i)
  {
  }

  lemma GrowsFromItself<E, S>(s: State<E, S>, i: nat)
    requires Inv(s)
    ensures OnlyGrows(s, s, i)
  {
    if i < s.idx {
      assert HasItsSlice(s, i);
    }
  }

  lemma {:induction false} RunOnlyGrows<E(!new), S(!new)>(actions: seq<Action<E, S>>, more: seq<Action<E, S>>, i: nat)
    requires Schedule(actions + more)
    ensures Schedule(actions) && OnlyGrows(Run(actions), Run(actions + more), i)
  {
    if more == [] {
      assert actions + more == actions;
      RunsKeepInv(actions);
      GrowsFromItself(Run(actions), i);
    } else {
      var n := |more| - 1;
      var all := actions + more;
      assert all[..|all| - 1] == actions + more[..n] && all[|all| - 1] == more[n];
      RunOnlyGrows(actions, more[..n], i);
      RunsKeepInv(actions + more[..n]);
      NextOnlyGrows(Run(actions + more[..n]), more[n], i);
      GrowsOn(Run(actions), Run(actions + more[..n]), Run(all), i);
    }
  }

  /**
   Whatever happens after an unsubscribe has returned, at most one more event
   reaches the subscription: the one that was in flight, and none if none was.
   */
  lemma AtMostOneEventAfterUnsubscribe<E(!new), S(!new)>(actions: seq<Action<E, S>>, more: seq<Action<E, S>>, i: nat)
    requires Schedule(actions + more) && Schedule(actions) && i in Run(actions).until
    ensures var s, e := Run(actions), Run(actions + more);
            && i in s.received && i in e.received
            && (e.received[i] == s.received[i]
                || (InFlight(s, i) && e.received[i] == s.received[i] + [s.loop.event]))
  {
    RunsKeepInv(actions);
    RunsKeepInv(actions + more);
    RunOnlyGrows(actions, more, i);
    var s, e := Run(actions), Run(actions + more);
    DeliveredByInv(s, i);
    DeliveredByInv(e, i);
    assert e.published[s.since[i]..s.until[i]] == s.published[s.since[i]..s.until[i]];
  }

  /** The indices given out so far. */
  function Below(n: nat): (r: set<nat>)
    ensures |r| == n && forall i: nat :: i in r <==> i < n
  {
    if n == 0 then {} else Below(n - 1) + {n - 1}
  }

  /** The table holds the subscriptions made and not ended. */
  lemma TableSize<E, S>(s: State<E, S>)
    requires TablesInv(s)
    ensures |s.subscribers| == s.idx - |s.until|
  {
    assert s.subscribers.Keys + s.until.Keys == Below(s.idx) && s.subscribers.Keys !! s.until.Keys;
    assert |s.subscribers.Keys| + |s.until.Keys| == |Below(s.idx)|;
  }

  /** `SubscriberCount`: subscriptions made less subscriptions ended, whoever the subscriber is. */
  lemma {:induction false} CountsLiveSubscriptions<E(!new), S(!new)>(actions: seq<Action<E, S>>)
    requires Schedule(actions)
    ensures var s := Run(actions); |s.subscribers| == s.idx - |s.until|
  {
    RunsKeepInv(actions);
    TableSize(Run(actions));
  }

  lemma TurnDelivers<E, S>(s: State<E, S>, e: State<E, S>, i: nat)
    requires Inv(s) && Inv(e) && s.loop.Waiting? && s.queue != [] && i < s.idx
    requires e == s.(queue := s.queue[1..], snapshots := s.snapshots + 1, received := e.received)
    ensures Received(e, i) == Received(s, i) + if i in s.subscribers then [s.queue[0]] else []
  {
    assert HasItsSlice(s, i) && HasItsSlice(e, i);
    var n := s.snapshots;
    assert s.queue[0] == s.published[n..][0] == s.published[n];
    assert s.published[s.since[i]..n + 1] == s.published[s.since[i]..n] + [s.published[n]];
  }

  lemma TurnDeliversToAll<E, S>(s: State<E, S>, e: State<E, S>)
    requires Inv(s) && Inv(e) && s.loop.Waiting? && s.queue != []
    requires e == s.(queue := s.queue[1..], snapshots := s.snapshots + 1, received := e.received)
    ensures forall i: nat :: i < s.idx ==>
              Received(e, i) == Received(s, i) + if i in s.subscribers then [s.queue[0]] else []
  {
    forall i: nat | i < s.idx
      ensures Received(e, i) == Received(s, i) + if i in s.subscribers then [s.queue[0]] else []
    {
      TurnDelivers(s, e, i);
    }
  }

  // ----- the publisher as an object -----

  class RetrievalEventPublisher<E(!new), S(!new)> {
    var subscribers: map<nat, S>
    var idx: nat
    var events: seq<E>
    var cancelled: bool
    var loop: Loop<E>
    // history
    ghost var published: seq<E>
    ghost var snapshots: nat
    ghost var since: map<nat, nat>
    ghost var until: map<nat, nat>
    ghost var received: map<nat, seq<E>>

    ghost function View(): State<E, S>
      reads this
    {
      State(subscribers, idx, events, cancelled, loop, published, snapshots, since, until, received)
    }

    constructor ()
      ensures View() == Initial() && Inv(View())
    {
      subscribers, idx, events, cancelled, loop := map[], 0, [], false, Waiting;
      published, snapshots, since, until, received := [], 0, map[], map[], map[];
    }

    /** The returned index stands for the unsubscribe closure, which captures it. */
    method SubscribeTo(subscriber: S) returns (index: nat)
      requires Inv(View())
      modifies this
      ensures View() == Next(old(View()), Subscribe(subscriber)) && Inv(View())
      ensures index == old(idx) && index in subscribers && index !in old(subscribers)
    {
      NextKeepsInv(View(), Subscribe(subscriber));
      index := idx;
      since, received := since[idx := snapshots], received[idx := []];
      idx := idx + 1;
      subscribers := subscribers[index := subscriber];
    }

    /** The unsubscribe closure; calling it again changes nothing. */
    method EndSubscription(index: nat)
      requires Inv(View()) && index < idx
      modifies this
      ensures View() == Next(old(View()), Unsubscribe(index)) && Inv(View())
      ensures index !in subscribers && (index !in old(subscribers) ==> View() == old(View()))
    {
      NextKeepsInv(View(), Unsubscribe(index));
      if index in subscribers {
        until := until[index := snapshots];
      }
      subscribers := subscribers - {index};
    }

    /** `Publish`: blocks while the queue is full unless the context is done; `drop` is the choice of the select. */
    method PublishEvent(event: E, drop: bool)
      requires Inv(View()) && if drop then cancelled else |events| < CAPACITY
      modifies this
      ensures View() == Next(old(View()), if drop then DropPublish(event) else Publish(event)) && Inv(View())
    {
      NextKeepsInv(View(), if drop then DropPublish(event) else Publish(event));
      if !drop {
        events := events + [event];
        published := published + [event];
      }
    }

    /** Subscriptions made less subscriptions ended. */
    method SubscriberCount() returns (n: nat)
      requires Inv(View())
      ensures n == idx - |until|
    {
      TableSize(View());
      n := |subscribers|;
    }

    method TakeEvent()
      requires Inv(View()) && loop.Waiting? && events != []
      modifies this
      ensures View() == Next(old(View()), Take) && Inv(View())
    {
      NextKeepsInv(View(), Take);
      events, loop := events[1..], Taken(events[0]);
    }

    /** The indices of the subscribers in some order. */
    method CopySubscribers() returns (order: seq<nat>)
      ensures Distinct(order) && Elements(order) == subscribers.Keys
      ensures forall i :: i in order <==> i in subscribers
    {
      order := [];
      var rest := subscribers.Keys;
      while rest != {}
        invariant rest <= subscribers.Keys && Distinct(order)
        invariant Elements(order) == subscribers.Keys - rest
        invariant forall i :: i in order <==> i in Elements(order)
        decreases rest
      {
        var i :| i in rest;
        order := order + [i];
        rest := rest - {i};
      }
    }

    /** The copy of the subscribers, made under the read lock. */
    method TakeSnapshot() returns (order: seq<nat>)
      requires Inv(View()) && loop.Taken?
      modifies this
      ensures Enabled(old(View()), Snapshot(order))
      ensures View() == Next(old(View()), Snapshot(order)) && Inv(View())
    {
      order := CopySubscribers();
      NextKeepsInv(View(), Snapshot(order));
      loop, snapshots := Delivering(loop.event, order), snapshots + 1;
    }

    /** One call of `OnRetrievalEvent`, or the end of the turn when nobody is left. */
    method DeliverNext()
      requires Inv(View()) && loop.Delivering?
      modifies this
      ensures View() == Next(old(View()), Deliver) && Inv(View())
    {
      NextKeepsInv(View(), Deliver);
      if loop.todo == [] {
        loop := Waiting;
      } else {
        var i := loop.todo[0];
        received := received[i := Received(View(), i) + [loop.event]];
        loop := Delivering(loop.event, loop.todo[1..]);
      }
    }

    /** The loop over the snapshot, with nothing in between. */
    method DeliverAll()
      requires Inv(View()) && loop.Delivering?
      modifies this
      ensures Inv(View()) && View() == old(View()).(loop := Waiting, received := received)
    {
      while loop.Delivering?
        invariant Inv(View()) && (loop.Waiting? || loop.Delivering?)
        invariant View() == old(View()).(loop := loop, received := received)
        decreases loop.Delivering?, if loop.Delivering? then |loop.todo| else 0
      {
        DeliverNext();
      }
    }

    /** One turn of the loop with nothing in between: every current subscription gets the event, nobody else does. */
    method LoopTurn()
      requires Inv(View()) && loop.Waiting? && events != []
      modifies this
      ensures Inv(View()) && loop.Waiting? && events == old(events)[1..]
      ensures subscribers == old(subscribers) && published == old(published)
      ensures forall i: nat :: i < idx ==>
                Received(View(), i) == Received(old(View()), i) + if i in subscribers then [old(events)[0]] else []
    {
      ghost var before := View();
      TakeEvent();
      ghost var order := TakeSnapshot();
      DeliverAll();
      TurnDeliversToAll(before, View());
    }
  }
}
