/**
 The reconnect watcher: a one-slot channel filled by `Disconnected` and drained
 by `processDisconnect` goroutines that sleep, poll, reconnect and respawn.
 */
module ConnWatcher {

  type PeerId = string

  /** What happened so far, in order: disconnects of the watched peer and reconnect attempts. */
  datatype Event = Lost(accepted: bool) | Reconnecting

  datatype State = State(
    token: bool,          // the slot of `disconnected` is full
    spawning: nat,        // calls of Disconnected that have filled the slot but not yet run `go`
    sleeping: nat,        // goroutines that have yet to poll
    reconnecting: nat,    // goroutines inside reconnect()
    log: seq<Event>)

  const INITIAL := State(false, 0, 0, 0, [])

  datatype Action =
    | Notify     // the watched peer disconnects
    | Spawn
    | Poll
    | Return     // reconnect() returns

  predicate Enabled(s: State, a: Action) {
    match a
    case Notify => true
    case Spawn => s.spawning > 0
    case Poll => s.sleeping > 0
    case Return => s.reconnecting > 0
  }

  function Next(s: State, a: Action): State
    requires Enabled(s, a)
  {
    match a
    case Notify =>
      if s.token then s.(log := s.log + [Lost(false)])
      else s.(token := true, spawning := s.spawning + 1, log := s.log + [Lost(true)])
    case Spawn => s.(spawning := s.spawning - 1, sleeping := s.sleeping + 1)
    case Poll =>
      if s.token then
        s.(token := false, sleeping := s.sleeping - 1, reconnecting := s.reconnecting + 1, log := s.log + [Reconnecting])
      else s.(sleeping := s.sleeping - 1)
    case Return => s.(reconnecting := s.reconnecting - 1, sleeping := s.sleeping + 1)
  }

  predicate Schedule(s: State, actions: seq<Action>)
    decreases |actions|, 0
  {
    actions != [] ==>
      var n := |actions| - 1;
      Schedule(s, actions[..n]) && Enabled(Run(s, actions[..n]), actions[n])
  }

  function Run(s: State, actions: seq<Action>): State
    requires Schedule(s, actions)
    decreases |actions|, 1
  {
    if actions == [] then s else Next(Run(s, actions[..|actions| - 1]), actions[|actions| - 1])
  }

  // ----- the invariant -----

  function Accepted(log: seq<Event>): nat {
    if log == [] then 0
    else Accepted(log[..|log| - 1]) + if log[|log| - 1] == Lost(true) then 1 else 0
  }

  function Attempts(log: seq<Event>): nat {
    if log == [] then 0
    else Attempts(log[..|log| - 1]) + if log[|log| - 1].Reconnecting? then 1 else 0
  }

  /** Every disconnect up to now is followed by a reconnect attempt. */
  ghost predicate AllAnswered(log: seq<Event>) {
    forall i :: 0 <= i < |log| && log[i].Lost? ==> exists j :: i < j < |log| && log[j].Reconnecting?
  }

  ghost predicate Inv(s: State) {
    && (s.token ==> s.sleeping + s.spawning > 0)
    && Accepted(s.log) == Attempts(s.log) + (if s.token then 1 else 0)
    && (!s.token ==> AllAnswered(s.log))
  }

  lemma Counted(log: seq<Event>, e: Event)
    ensures Accepted(log + [e]) == Accepted(log) + if e == Lost(true) then 1 else 0
    ensures Attempts(log + [e]) == Attempts(log) + if e.Reconnecting? then 1 else 0
  {
    assert (log + [e])[..|log|] == log;
  }

  lemma NextKeepsInv(s: State, a: Action)
    requires Inv(s) && Enabled(s, a)
    ensures Inv(Next(s, a))
  {
    var s' := Next(s, a);
    if |s'.log| > |s.log| {
      Counted(s.log, s'.log[|s.log|]);
    }
    if a.Poll? && s.token {
      forall i | 0 <= i < |s'.log| && s'.log[i].Lost?
        ensures exists j :: i < j < |s'.log| && s'.log[j].Reconnecting?
      {
        assert s'.log[|s.log|].Reconnecting?;
      }
    }
  }

  lemma {:induction false} RunsKeepInv(s: State, actions: seq<Action>)
    requires Inv(s) && Schedule(s, actions)
    ensures Inv(Run(s, actions))
  {
    if actions == [] {
    } else {
      var n := |actions| - 1;
      RunsKeepInv(s, actions[..n]);
      NextKeepsInv(Run(s, actions[..n]), actions[n]);
    }
  }

  /**
   No disconnect is lost. In every reachable state a full slot has a goroutine
   that will poll it, accepted disconnects are attempts started plus the one in
   the slot, and with the slot empty every disconnect so far, accepted or
   dropped, has been followed by an attempt.
   */
  lemma {:induction false} NoDisconnectIsLost(actions: seq<Action>)
    requires Schedule(INITIAL, actions)
    ensures var s := Run(INITIAL, actions);
            && (s.token ==> s.sleeping + s.spawning > 0)
            && Accepted(s.log) == Attempts(s.log) + (if s.token then 1 else 0)
            && (!s.token ==> AllAnswered(s.log))
  {
    RunsKeepInv(INITIAL, actions);
  }

  /** How often a step was taken. */
  function Times(actions: seq<Action>, a: Action): nat {
    if actions == [] then 0
    else Times(actions[..|actions| - 1], a) + if actions[|actions| - 1] == a then 1 else 0
  }

  ghost predicate Conserved(s: State, actions: seq<Action>) {
    && s.spawning + Times(actions, Spawn) == Accepted(s.log)
    && s.sleeping + Times(actions, Poll) == Times(actions, Spawn) + Times(actions, Return)
    && s.reconnecting + Times(actions, Return) == Attempts(s.log)
    && |s.log| == Times(actions, Notify) + Attempts(s.log)
  }

  lemma TimesSnoc(actions: seq<Action>, last: Action, a: Action)
    ensures Times(actions + [last], a) == Times(actions, a) + if last == a then 1 else 0
  {
    assert (actions + [last])[..|actions|] == actions;
  }

  lemma ConservedStep(s: State, actions: seq<Action>, a: Action)
    requires Conserved(s, actions) && Enabled(s, a)
    ensures Conserved(Next(s, a), actions + [a])
  {
    TimesSnoc(actions, a, Notify);
    TimesSnoc(actions, a, Spawn);
    TimesSnoc(actions, a, Poll);
    TimesSnoc(actions, a, Return);
    var log := Next(s, a).log;
    if log != s.log {
      Counted(s.log, log[|s.log|]);
    }
  }

  /**
   Goroutines are conserved: each accepted disconnect has one to spawn until it is
   spawned, and whoever was spawned, or came back from reconnecting, sleeps until
   it has polled; the watcher reconnects as often as it began to and did not return.
   */
  lemma {:induction false} GoroutinesAreConserved(actions: seq<Action>)
    requires Schedule(INITIAL, actions)
    ensures Conserved(Run(INITIAL, actions), actions)
  {
    if actions == [] {
    } else {
      var n := |actions| - 1;
      GoroutinesAreConserved(actions[..n]);
      ConservedStep(Run(INITIAL, actions[..n]), actions[..n], actions[n]);
      assert actions[..n] + [actions[n]] == actions;
    }
  }

  // ----- termination once disconnects stop -----

  function Measure(s: State): nat {
    (if s.token then 3 else 0) + 2 * s.reconnecting + 2 * s.spawning + s.sleeping
  }

  predicate Quiet(actions: seq<Action>) { forall i :: 0 <= i < |actions| ==> !actions[i].Notify? }

  /** Every step other than a disconnect lowers the measure. */
  lemma {:induction false} QuietRunsAreShort(s: State, actions: seq<Action>)
    requires Schedule(s, actions) && Quiet(actions)
    ensures |actions| + Measure(Run(s, actions)) <= Measure(s)
  {
    if actions == [] {
    } else {
      QuietRunsAreShort(s, actions[..|actions| - 1]);
    }
  }

  /** Nothing but a new disconnect can happen any more. */
  predicate Quiescent(s: State) { forall a: Action :: Enabled(s, a) ==> a.Notify? }

  /**
   Once disconnects stop, every schedule is finite, and wherever it can go no
   further the slot is empty, no goroutine is left and every disconnect has been
   answered by an attempt started after it.
   */
  lemma SettlesAfterLastDisconnect(s: State, actions: seq<Action>)
    requires Inv(s) && Schedule(s, actions) && Quiet(actions)
    ensures |actions| <= Measure(s)
    ensures var e := Run(s, actions);
            Quiescent(e) <==> Measure(e) == 0
    ensures var e := Run(s, actions);
            Quiescent(e) ==> AllAnswered(e.log) && Accepted(e.log) == Attempts(e.log)
  {
    QuietRunsAreShort(s, actions);
    RunsKeepInv(s, actions);
    var e := Run(s, actions);
    if Quiescent(e) {
      assert !Enabled(e, Spawn) && !Enabled(e, Poll) && !Enabled(e, Return);
    }
  }

  // ----- the watcher as an object -----

  class ConnWatcher {
    const pid: PeerId
    var disconnected: seq<()>  // the buffered channel
    var spawning: nat
    var sleeping: nat
    var reconnecting: nat
    ghost var log: seq<Event>

    ghost predicate Valid()
      reads this
    {
      |disconnected| <= 1 && Inv(View())
    }

    ghost function View(): State
      reads this
    {
      State(disconnected != [], spawning, sleeping, reconnecting, log)
    }

    constructor (pid: PeerId)
      ensures Valid() && View() == INITIAL && this.pid == pid
    {
      this.pid := pid;
      disconnected, spawning, sleeping, reconnecting, log := [], 0, 0, 0, [];
    }

    /** `Disconnected` up to its `go` statement. */
    method Disconnected(remotePeer: PeerId)
      requires Valid()
      modifies this
      ensures Valid()
      ensures View() == if remotePeer == pid then Next(old(View()), Notify) else old(View())
    {
      if remotePeer != pid {
        return;
      }
      NextKeepsInv(View(), Notify);
      if |disconnected| < 1 {
        disconnected := disconnected + [()];
        spawning := spawning + 1;
        log := log + [Lost(true)];
      } else {
        log := log + [Lost(false)];
      }
    }

    /** Its `go c.processDisconnect()`. */
    method Go()
      requires Valid() && spawning > 0
      modifies this
      ensures Valid() && View() == Next(old(View()), Spawn)
    {
      NextKeepsInv(View(), Spawn);
      spawning, sleeping := spawning - 1, sleeping + 1;
    }

    /** `processDisconnect` after its sleep, up to the call of reconnect. */
    method PollDisconnected() returns (reconnects: bool)
      requires Valid() && sleeping > 0
      modifies this
      ensures Valid() && View() == Next(old(View()), Poll)
      ensures reconnects == (old(disconnected) != [])
    {
      NextKeepsInv(View(), Poll);
      sleeping := sleeping - 1;
      if disconnected == [] {
        return false;
      }
      disconnected := disconnected[1..];
      reconnecting := reconnecting + 1;
      log := log + [Reconnecting];
      return true;
    }

    /** reconnect returns, with or without success, and the goroutine spawns its successor. */
    method ReconnectReturned()
      requires Valid() && reconnecting > 0
      modifies this
      ensures Valid() && View() == Next(old(View()), Return)
    {
      NextKeepsInv(View(), Return);
      reconnecting, sleeping := reconnecting - 1, sleeping + 1;
    }
  }
}
