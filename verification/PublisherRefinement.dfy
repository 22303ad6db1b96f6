/**
 The publisher refines the broadcast: every step of it is one step of the
 broadcast or none, whatever the queue, the loop and the subscribers do.
 */
module PublisherRefinement {
  import opened Common
  import opened Publisher
  import B = Broadcast

  function FeedOf<E, S>(s: State<E, S>, i: nat): B.Feed<E> {
    B.Feed(if i in s.since then s.since[i] else 0, if i in s.until then Some(s.until[i]) else None, Received(s, i))
  }

  /** The broadcast a publisher stands for: the queue, the loop and the subscriber table are gone. */
  function Abstract<E, S>(s: State<E, S>): B.State<E> {
    B.State(s.published, s.snapshots, seq(s.idx, i requires 0 <= i < s.idx => FeedOf(s, i)))
  }

  /** The broadcast step a publisher step performs, if it performs one. */
  function StepOf<E, S>(s: State<E, S>, a: Action<E, S>): Option<B.Action<E>>
    requires Enabled(s, a)
  {
    match a
    case Subscribe(_) => Some(B.Open)
    case Unsubscribe(i) => if i in s.subscribers then Some(B.Close(i)) else None
    case Publish(event) => Some(B.Publish(event))
    case Snapshot(_) => Some(B.Announce)
    case Deliver => if s.loop.todo == [] then None else Some(B.HandOver(s.loop.todo[0]))
    case _ => None
  }

  /** What is to be shown of one step. */
  ghost predicate Refines<E, S>(s: State<E, S>, a: Action<E, S>)
    requires Enabled(s, a)
  {
    match StepOf(s, a)
    case None => Abstract(Next(s, a)) == Abstract(s)
    case Some(b) => B.Enabled(Abstract(s), b) && B.Next(Abstract(s), b) == Abstract(Next(s, a))
  }

  lemma PublishRefines<E, S>(s: State<E, S>, event: E)
    requires Inv(s) && |s.queue| < CAPACITY
    ensures Refines(s, Publish(event))
  {
    assert |s.published| == TakenCount(s) + |s.queue|;
    assert Abstract(Next(s, Publish(event))).feeds == Abstract(s).feeds;
  }

  lemma SubscribeRefines<E, S>(s: State<E, S>, subscriber: S)
    requires Inv(s)
    ensures Refines(s, Subscribe(subscriber))
  {
    var s' := Next(s, Subscribe(subscriber));
    assert s.idx !in s.until;
    assert FeedOf(s', s.idx) == B.Feed(s.snapshots, None, []);
    forall i: nat | i < s.idx
      ensures FeedOf(s', i) == FeedOf(s, i)
    {
    }
    assert Abstract(s').feeds == Abstract(s).feeds + [FeedOf(s', s.idx)];
  }

  lemma UnsubscribeRefines<E, S>(s: State<E, S>, index: nat)
    requires Inv(s) && index < s.idx
    ensures Refines(s, Action<E, S>.Unsubscribe(index))
  {
    var s' := Next(s, Action<E, S>.Unsubscribe(index));
    if index in s.subscribers {
      assert Abstract(s').feeds == Abstract(s).feeds[index := FeedOf(s, index).(stop := Some(s.snapshots))];
    } else {
      assert Abstract(s').feeds == Abstract(s).feeds;
    }
  }

  /** Between two rounds nothing is in flight. */
  lemma SnapshotRefines<E, S>(s: State<E, S>, order: seq<nat>)
    requires Inv(s) && Enabled(s, Snapshot(order))
    ensures Refines(s, Snapshot(order))
  {
    var b := Abstract(s);
    forall i | 0 <= i < |b.feeds|
      ensures B.Cursor(b.feeds[i]) == B.Limit(b, b.feeds[i])
    {
      assert HasItsSlice(s, i);
    }
    assert Abstract(Next(s, Snapshot(order))).feeds == b.feeds;
  }

  /** The event handed over is the one at the cursor of the feed. */
  lemma DeliverRefines<E, S>(s: State<E, S>)
    requires Inv(s) && s.loop.Delivering?
    ensures Refines(s, Action<E, S>.Deliver)
  {
    var b, s' := Abstract(s), Next(s, Action<E, S>.Deliver);
    if s.loop.todo == [] {
      assert Abstract(s').feeds == b.feeds;
    } else {
      var i := s.loop.todo[0];
      assert i in s.loop.todo && HasItsSlice(s, i);
      assert Abstract(s').feeds == b.feeds[i := FeedOf(s, i).(received := Received(s, i) + [s.loop.event])];
    }
  }

  lemma StepRefines<E, S>(s: State<E, S>, a: Action<E, S>)
    requires Inv(s) && Enabled(s, a)
    ensures Refines(s, a)
  {
    match a {
      case Subscribe(subscriber) => SubscribeRefines(s, subscriber);
      case Unsubscribe(index) => UnsubscribeRefines(s, index);
      case Publish(event) => PublishRefines(s, event);
      case Snapshot(order) => SnapshotRefines(s, order);
      case Deliver => DeliverRefines(s);
      case _ => assert Abstract(Next(s, a)).feeds == Abstract(s).feeds;
    }
  }

  /** The broadcast steps of a whole schedule. */
  ghost function StepsOf<E(!new), S(!new)>(actions: seq<Action<E, S>>): seq<B.Action<E>>
    requires Schedule(actions)
  {
    if actions == [] then []
    else
      var n := |actions| - 1;
      StepsOf(actions[..n]) +
      match StepOf(Run(actions[..n]), actions[n])
      case None => []
      case Some(b) => [b]
  }

  /** Every schedule of the publisher is a schedule of the broadcast, and they end in corresponding states. */
  lemma {:induction false} RefinesBroadcast<E(!new), S(!new)>(actions: seq<Action<E, S>>)
    requires Schedule(actions)
    ensures B.Schedule(StepsOf(actions)) && B.Run(StepsOf(actions)) == Abstract(Run(actions))
  {
    if actions == [] {
    } else {
      var n := |actions| - 1;
      RefinesBroadcast(actions[..n]);
      RunsKeepInv(actions[..n]);
      StepRefines(Run(actions[..n]), actions[n]);
      var front := StepsOf(actions[..n]);
      match StepOf(Run(actions[..n]), actions[n]) {
        case None => assert StepsOf(actions) == front;
        case Some(b) =>
          assert StepsOf(actions) == front + [b];
          assert (front + [b])[..|front|] == front;
      }
    }
  }

  /** So each subscription is a feed of the broadcast, and what it received is that feed's part. */
  lemma {:induction false} SubscriptionsAreFeeds<E(!new), S(!new)>(actions: seq<Action<E, S>>, i: nat)
    requires Schedule(actions) && i < Run(actions).idx
    ensures B.Schedule(StepsOf(actions))
    ensures var b := B.Run(StepsOf(actions));
            i < |b.feeds| && b.feeds[i].received == Received(Run(actions), i) && B.HasItsPart(b, b.feeds[i])
  {
    RefinesBroadcast(actions);
    B.EveryFeedGetsItsPart(StepsOf(actions));
  }
}
