/**
 The publisher's run told from its steps alone: who is subscribed, what was
 published, and what each subscription is due.
 */
module PublisherHistory {
  import opened Publisher

  /** The subscribers in the order in which they subscribed; the position is the index handed out. */
  ghost function Subscribers<E(!new), S(!new)>(actions: seq<Action<E, S>>): seq<S> {
    if actions == [] then []
    else
      var a := actions[|actions| - 1];
      Subscribers(actions[..|actions| - 1]) + if a.Subscribe? then [a.subscriber] else []
  }

  /** The indices whose unsubscribe was called. */
  ghost function Gone<E(!new), S(!new)>(actions: seq<Action<E, S>>): set<nat> {
    if actions == [] then {}
    else
      var a := actions[|actions| - 1];
      Gone(actions[..|actions| - 1]) + if a.Unsubscribe? then {a.index} else {}
  }

  ghost function Events<E(!new), S(!new)>(actions: seq<Action<E, S>>): seq<E> {
    if actions == [] then []
    else
      var a := actions[|actions| - 1];
      Events(actions[..|actions| - 1]) + if a.Publish? then [a.event] else []
  }

  ghost function Snapshots<E(!new), S(!new)>(actions: seq<Action<E, S>>): nat {
    if actions == [] then 0
    else Snapshots(actions[..|actions| - 1]) + if actions[|actions| - 1].Snapshot? then 1 else 0
  }

  ghost predicate Did<E(!new), S(!new)>(actions: seq<Action<E, S>>, a: Action<E, S>) {
    exists k :: 0 <= k < |actions| && actions[k] == a
  }

  // ----- tables -----

  ghost predicate TableTold<E(!new), S(!new)>(s: State<E, S>, actions: seq<Action<E, S>>) {
    && s.idx == |Subscribers(actions)|
    && (forall i: nat :: i in Gone(actions) ==> i < s.idx)
    && (forall i: nat :: i in s.subscribers <==> i < s.idx && i !in Gone(actions))
    && (forall i: nat :: i in s.subscribers ==> i < s.idx && s.subscribers[i] == Subscribers(actions)[i])
  }

  ghost predicate EventsTold<E(!new), S(!new)>(s: State<E, S>, actions: seq<Action<E, S>>) {
    s.published == Events(actions) && s.snapshots == Snapshots(actions)
  }

  ghost predicate Told<E(!new), S(!new)>(s: State<E, S>, actions: seq<Action<E, S>>) {
    TableTold(s, actions) && EventsTold(s, actions)
  }

  /** What one step does to the table and to the count of events. */
  lemma TableStep<E, S>(s: State<E, S>, a: Action<E, S>)
    requires Enabled(s, a)
    ensures Next(s, a).idx == s.idx + if a.Subscribe? then 1 else 0
    ensures Next(s, a).subscribers == if a.Subscribe? then s.subscribers[s.idx := a.subscriber]
                                      else if a.Unsubscribe? then s.subscribers - {a.index} else s.subscribers
    ensures Next(s, a).published == s.published + if a.Publish? then [a.event] else []
    ensures Next(s, a).snapshots == s.snapshots + if a.Snapshot? then 1 else 0
  {
  }

  /** The last action decides what changes. */
  lemma Latest<E(!new), S(!new)>(front: seq<Action<E, S>>, a: Action<E, S>)
    ensures Subscribers(front + [a]) == Subscribers(front) + if a.Subscribe? then [a.subscriber] else []
    ensures Gone(front + [a]) == Gone(front) + if a.Unsubscribe? then {a.index} else {}
    ensures Events(front + [a]) == Events(front) + if a.Publish? then [a.event] else []
    ensures Snapshots(front + [a]) == Snapshots(front) + if a.Snapshot? then 1 else 0
  {
    assert (front + [a])[..|front|] == front;
  }

  lemma TableToldStep<E(!new), S(!new)>(s: State<E, S>, front: seq<Action<E, S>>, a: Action<E, S>)
    requires TableTold(s, front) && Enabled(s, a)
    ensures TableTold(Next(s, a), front + [a])
  {
    TableStep(s, a);
    Latest(front, a);
  }

  lemma ToldStep<E(!new), S(!new)>(s: State<E, S>, front: seq<Action<E, S>>, a: Action<E, S>)
    requires Told(s, front) && Enabled(s, a)
    ensures Told(Next(s, a), front + [a])
  {
    TableStep(s, a);
    Latest(front, a);
    TableToldStep(s, front, a);
  }

  /**
   Over every schedule the table holds exactly the subscribers whose unsubscribe
   was not called, each under the index it was handed, and the queue has been given
   exactly the events accepted.
   */
  lemma {:induction false} TablesAreTold<E(!new), S(!new)>(actions: seq<Action<E, S>>)
    requires Schedule(actions)
    ensures Told(Run(actions), actions)
  {
    if actions == [] {
    } else {
      var n := |actions| - 1;
      TablesAreTold(actions[..n]);
      ToldStep(Run(actions[..n]), actions[..n], actions[n]);
      assert actions[..n] + [actions[n]] == actions;
    }
  }

  // ----- what a subscription is due -----

  /**
   The events subscription `i` is due: the n-th event published, for every n-th
   snapshot taken between its subscribe and its unsubscribe.
   */
  ghost function Due<E(!new), S(!new)>(actions: seq<Action<E, S>>, i: nat): seq<E>
    requires Schedule(actions)
  {
    if actions == [] then []
    else
      var front, a := actions[..|actions| - 1], actions[|actions| - 1];
      var n := Snapshots(front);
      Due(front, i) +
      if a.Snapshot? && i < |Subscribers(front)| && i !in Gone(front) && n < |Events(front)| then [Events(front)[n]] else []
  }

  /** Received so far, with the event still in flight if there is one. */
  ghost function Reaching<E, S>(s: State<E, S>, i: nat): seq<E> {
    Received(s, i) + if InFlight(s, i) then [s.loop.event] else []
  }

  lemma SnapshotReaches<E(!new), S(!new)>(s: State<E, S>, order: seq<nat>, i: nat)
    requires Inv(s) && Enabled(s, Snapshot(order))
    ensures Reaching(Next(s, Snapshot(order)), i) == Reaching(s, i) + if i in s.subscribers then [s.loop.event] else []
    ensures s.snapshots < |s.published| && s.loop.event == s.published[s.snapshots]
  {
    assert i in order <==> i in Elements(order);
  }

  lemma DeliveryReachesFirst<E, S>(s: State<E, S>)
    requires Inv(s) && s.loop.Delivering? && s.loop.todo != []
    ensures Reaching(Next(s, Action<E, S>.Deliver), s.loop.todo[0]) == Reaching(s, s.loop.todo[0])
  {
    var first, rest := s.loop.todo[0], s.loop.todo[1..];
    assert first !in rest;
    assert Next(s, Action<E, S>.Deliver).loop == Delivering(s.loop.event, rest);
  }

  lemma DeliveryReachesNobodyElse<E, S>(s: State<E, S>, i: nat)
    requires s.loop.Delivering? && s.loop.todo != [] && i != s.loop.todo[0]
    ensures Reaching(Next(s, Action<E, S>.Deliver), i) == Reaching(s, i)
  {
    assert s.loop.todo == [s.loop.todo[0]] + s.loop.todo[1..];
    assert i in s.loop.todo <==> i in s.loop.todo[1..];
  }

  lemma DeliveryReaches<E, S>(s: State<E, S>, i: nat)
    requires Inv(s) && s.loop.Delivering?
    ensures Reaching(Next(s, Action<E, S>.Deliver), i) == Reaching(s, i)
  {
    if s.loop.todo == [] {
      assert i !in s.loop.todo;
    } else if i == s.loop.todo[0] {
      DeliveryReachesFirst(s);
    } else {
      DeliveryReachesNobodyElse(s, i);
    }
  }

  lemma OthersReachNothing<E(!new), S(!new)>(s: State<E, S>, a: Action<E, S>, i: nat)
    requires Inv(s) && Enabled(s, a) && !a.Snapshot? && !a.Deliver?
    ensures Reaching(Next(s, a), i) == Reaching(s, i)
  {
  }

  /** Over every schedule each subscription gets what it is due: the events published, snapshot by snapshot, while it was subscribed. */
  lemma {:induction false} EachGetsItsDue<E(!new), S(!new)>(actions: seq<Action<E, S>>, i: nat)
    requires Schedule(actions)
    ensures Reaching(Run(actions), i) == Due(actions, i)
  {
    if actions == [] {
    } else {
      var front, a := actions[..|actions| - 1], actions[|actions| - 1];
      var s := Run(front);
      EachGetsItsDue(front, i);
      RunsKeepInv(front);
      TablesAreTold(front);
      if a.Snapshot? {
        SnapshotReaches(s, a.order, i);
      } else if a.Deliver? {
        DeliveryReaches(s, i);
      } else {
        OthersReachNothing(s, a, i);
      }
    }
  }

  // ----- the end of the loop -----

  lemma DidSnoc<E(!new), S(!new)>(front: seq<Action<E, S>>, last: Action<E, S>, a: Action<E, S>)
    ensures Did(front + [last], a) <==> Did(front, a) || last == a
  {
    var actions := front + [last];
    assert actions[|front|] == last;
    assert forall k :: 0 <= k < |front| ==> actions[k] == front[k];
  }

  lemma ContextStep<E, S>(s: State<E, S>, a: Action<E, S>)
    requires Enabled(s, a)
    ensures Next(s, a).cancelled <==> s.cancelled || a == Action<E, S>.Cancel
    ensures Next(s, a).loop.Stopped? <==> s.loop.Stopped? || a == Action<E, S>.Stop
    ensures a == Action<E, S>.Stop ==> s.cancelled
  {
  }

  /** The loop ends exactly when it sees that the context is done, which only a cancel brings about. */
  lemma {:induction false} LoopEndsWithItsContext<E(!new), S(!new)>(actions: seq<Action<E, S>>)
    requires Schedule(actions)
    ensures var s := Run(actions);
            && (s.cancelled <==> Did(actions, Cancel))
            && (s.loop.Stopped? <==> Did(actions, Stop))
            && (s.loop.Stopped? ==> s.cancelled)
  {
    if actions == [] {
    } else {
      var front, a := actions[..|actions| - 1], actions[|actions| - 1];
      LoopEndsWithItsContext(front);
      assert front + [a] == actions;
      DidSnoc(front, a, Action<E, S>.Cancel);
      DidSnoc(front, a, Action<E, S>.Stop);
      ContextStep(Run(front), a);
    }
  }
}
