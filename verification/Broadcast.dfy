/**
 What the retrieval event publisher is for, without its queue, its loop and its
 snapshots: a broadcast in rounds. Every round announces the next published event
 to the feeds open at that moment, and hands it to each of them once.
 */
module Broadcast {

  import opened Common

  /** How far publishing may run ahead: sixteen events in the queue and one in the loop's hands. */
  const LAG: nat := 17

  /** A subscription: the rounds it is part of begin at `start` and, once it is closed, end at `stop`. */
  datatype Feed<E> = Feed(start: nat, stop: Option<nat>, received: seq<E>)

  /** `round` events have been announced so far. */
  datatype State<E> = State(published: seq<E>, round: nat, feeds: seq<Feed<E>>)

  function Initial<E>(): State<E> { State([], 0, []) }

  datatype Action<E> =
    | Publish(event: E)
    | Announce
    | Open
    | Close(feed: nat)
    | HandOver(feed: nat)

  /** The round at which a feed's part ends, for now. */
  function Limit<E>(s: State<E>, f: Feed<E>): nat { if f.stop.Some? then f.stop.value else s.round }

  /** The next event for a feed. */
  function Cursor<E>(f: Feed<E>): nat { f.start + |f.received| }

  /** Everything announced has been handed over. */
  predicate CaughtUp<E>(s: State<E>) {
    forall i :: 0 <= i < |s.feeds| ==> Cursor(s.feeds[i]) == Limit(s, s.feeds[i])
  }

  predicate Enabled<E>(s: State<E>, a: Action<E>) {
    match a
    case Publish(_) => |s.published| < s.round + LAG
    case Announce => s.round < |s.published| && CaughtUp(s)
    case Open => true
    case Close(i) => i < |s.feeds| && s.feeds[i].stop.None?
    case HandOver(i) => i < |s.feeds| && Cursor(s.feeds[i]) < Limit(s, s.feeds[i]) <= |s.published|
  }

  function Next<E>(s: State<E>, a: Action<E>): State<E>
    requires Enabled(s, a)
  {
    match a
    case Publish(event) => s.(published := s.published + [event])
    case Announce => s.(round := s.round + 1)
    case Open => s.(feeds := s.feeds + [Feed(s.round, None, [])])
    case Close(i) => s.(feeds := s.feeds[i := s.feeds[i].(stop := Some(s.round))])
    case HandOver(i) =>
      var f := s.feeds[i];
      s.(feeds := s.feeds[i := f.(received := f.received + [s.published[Cursor(f)]])])
  }

  predicate Schedule<E>(actions: seq<Action<E>>)
    decreases |actions|, 0
  {
    actions != [] ==>
      var n := |actions| - 1;
      Schedule(actions[..n]) && Enabled(Run(actions[..n]), actions[n])
  }

  function Run<E>(actions: seq<Action<E>>): State<E>
    requires Schedule(actions)
    decreases |actions|, 1
  {
    if actions == [] then Initial()
    else Next(Run(actions[..|actions| - 1]), actions[|actions| - 1])
  }

  // ----- what a broadcast guarantees -----

  /** A feed has received what was announced during its part, up to the event of the current round. */
  ghost predicate HasItsPart<E>(s: State<E>, f: Feed<E>) {
    && f.start <= Cursor(f) <= Limit(s, f) <= s.round <= |s.published|
    && (Cursor(f) < Limit(s, f) ==> Cursor(f) + 1 == Limit(s, f) == s.round)
    && f.received == s.published[f.start..Cursor(f)]
  }

  ghost predicate Inv<E>(s: State<E>) {
    s.round <= |s.published| <= s.round + LAG && forall i :: 0 <= i < |s.feeds| ==> HasItsPart(s, s.feeds[i])
  }

  lemma PartKept<E>(s: State<E>, a: Action<E>, i: nat)
    requires Inv(s) && Enabled(s, a) && i < |s.feeds|
    ensures HasItsPart(Next(s, a), Next(s, a).feeds[i])
  {
    var f, s' := s.feeds[i], Next(s, a);
    assert HasItsPart(s, f);
    assert f.received == s'.published[f.start..Cursor(f)];
    if a == HandOver(i) {
      assert s.published[f.start..Cursor(f) + 1] == s.published[f.start..Cursor(f)] + [s.published[Cursor(f)]];
    }
  }

  lemma {:induction false} EveryFeedGetsItsPart<E>(actions: seq<Action<E>>)
    requires Schedule(actions)
    ensures Inv(Run(actions))
  {
    if actions == [] {
    } else {
      var n := |actions| - 1;
      var s, a := Run(actions[..n]), actions[n];
      EveryFeedGetsItsPart(actions[..n]);
      forall i | 0 <= i < |Next(s, a).feeds|
        ensures HasItsPart(Next(s, a), Next(s, a).feeds[i])
      {
        if i < |s.feeds| {
          PartKept(s, a, i);
        }
      }
    }
  }
}
