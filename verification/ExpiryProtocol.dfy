/**
 The expiry pass of the libp2p transfer manager at the granularity of its
 single calls, interleaved with the callbacks of the data transfer server.

 `checkTransferExpiry` deletes the expired tokens, then for each one looks up
 the active transfer, cancels it, reads the persisted record, saves a Failed
 record and fires a Failed event. Nothing holds a lock over that sequence, so a
 server callback (save a Completed record, then fire) can run between any two
 of its steps.
 */
module ExpiryProtocol {

  type Id = nat

  datatype Status = Ongoing | Completed | Failed

  /** What the rest of the system can observe: a write to the store, or a call of the listener. */
  datatype Effect = Saved(id: Id, status: Status) | Fired(id: Id, status: Status)

  /** A server callback in progress. It saves only for a Completed event. */
  datatype Callback = Callback(id: Id, status: Status, saved: bool)

  /** Where the ticker goroutine is. */
  datatype Pass =
    | Idle
    | Collecting           // inside DeleteExpired
    | Looping              // at the head of the loop over the expired tokens
    | Cancelling(id: Id)   // CancelTransfer has been called
    | Reading(id: Id)      // about to read the persisted record
    | Saving(id: Id)       // no record was found
    | Firing(id: Id)

  datatype State = State(
    prepared: set<Id>,             // ids PrepareForDataRequest was called for
    tokens: set<Id>,               // ids with a live auth token
    active: set<Id>,               // transfers active in the server
    callbacks: map<nat, Callback>, // server events whose callback has not returned
    expired: seq<Id>,              // rest of the list returned by DeleteExpired
    pass: Pass,
    store: map<Id, Status>,        // persisted records
    listening: bool,
    log: seq<Effect>)

  const INITIAL := State({}, {}, {}, map[], [], Idle, map[], false, [])

  datatype Lookup = Found | NotFound | LookupError

  datatype Action =
    | SetListener(listening: bool)
    | Prepare(id: Id)
    | Cleanup(id: Id)
    // the server
    | Start(id: Id)
    | Emit(call: nat, id: Id, status: Status)
    | Stop(id: Id)
    // the callback
    | CallbackSave(call: nat, ok: bool)
    | CallbackFire(call: nat)
    // the ticker goroutine
    | Tick
    | DeleteToken(id: Id)
    | DeleteReturns(ok: bool)
    | LookUp(reply: Lookup)
    | CancelReturns(ok: bool)
    | Read(ok: bool)
    | Save(ok: bool)
    | Fire
    | PassEnds

  /** Program order of the three kinds of thread. `Get` reports what is active. */
  predicate Enabled(s: State, a: Action) {
    match a
    case CallbackSave(call, _) =>
      call in s.callbacks && s.callbacks[call].status == Completed && !s.callbacks[call].saved
    case CallbackFire(call) =>
      call in s.callbacks && (s.callbacks[call].status == Completed ==> s.callbacks[call].saved)
    case Emit(call, _, _) => call !in s.callbacks
    case Tick => s.pass.Idle?
    case DeleteToken(id) => s.pass.Collecting? && id in s.tokens
    case DeleteReturns(_) => s.pass.Collecting?
    case LookUp(reply) =>
      && s.pass.Looping? && s.expired != []
      && (reply.Found? ==> s.expired[0] in s.active)
      && (reply.NotFound? ==> s.expired[0] !in s.active)
    case CancelReturns(_) => s.pass.Cancelling?
    case Read(_) => s.pass.Reading?
    case Save(_) => s.pass.Saving?
    case Fire => s.pass.Firing?
    case PassEnds => s.pass.Looping? && s.expired == []
    case _ => true
  }

  function FireIfListening(s: State, id: Id, status: Status): State {
    if s.listening then s.(log := s.log + [Fired(id, status)]) else s
  }

  function Store(s: State, id: Id, status: Status): State {
    s.(store := s.store[id := status], log := s.log + [Saved(id, status)])
  }

  function Next(s: State, a: Action): State
    requires Enabled(s, a)
  {
    match a
    case SetListener(b) => s.(listening := b)
    case Prepare(id) => s.(prepared := s.prepared + {id}, tokens := s.tokens + {id})
    case Cleanup(id) => s.(tokens := s.tokens - {id})
    case Start(id) => s.(active := s.active + {id})
    case Emit(call, id, status) =>
      // the callback ignores Failed events
      if status == Failed then s
      else s.(callbacks := s.callbacks[call := Callback(id, status, false)])
    case Stop(id) => s.(active := s.active - {id})
    case CallbackSave(call, ok) =>
      var cb := s.callbacks[call];
      var s1 := if ok then Store(s, cb.id, Completed) else s;
      s1.(callbacks := s1.callbacks[call := cb.(saved := true)])
    case CallbackFire(call) =>
      var cb := s.callbacks[call];
      FireIfListening(s.(callbacks := s.callbacks - {call}), cb.id, cb.status)
    case Tick => s.(pass := Collecting, expired := [])
    case DeleteToken(id) => s.(tokens := s.tokens - {id}, expired := s.expired + [id])
    case DeleteReturns(ok) => if ok then s.(pass := Looping) else s.(pass := Idle, expired := [])
    case LookUp(reply) =>
      var id := s.expired[0];
      s.(expired := s.expired[1..],
      pass := match reply
      case Found => Cancelling(id)
      case NotFound => Reading(id)
      case LookupError => Looping)
    case CancelReturns(ok) => s.(pass := if ok then Reading(s.pass.id) else Looping)
    case Read(ok) =>
      var id := s.pass.id;
      s.(pass :=
      if !ok || (id in s.store && s.store[id] == Completed) then Looping
      else if id in s.store then Firing(id)
      else Saving(id))
    case Save(ok) =>
      if ok then Store(s, s.pass.id, Failed).(pass := Firing(s.pass.id)) else s.(pass := Looping)
    case Fire => FireIfListening(s, s.pass.id, Failed).(pass := Looping)
    case PassEnds => s.(pass := Idle)
  }

  /** Schedules that follow program order, and the state they lead to. */
  predicate Runnable(actions: seq<Action>)
    decreases |actions|, 0
  {
    actions != [] ==>
      var n := |actions| - 1;
      Runnable(actions[..n]) && Enabled(Run(actions[..n]), actions[n])
  }

  function Run(actions: seq<Action>): State
    requires Runnable(actions)
    decreases |actions|, 1
  {
    if actions == [] then INITIAL
    else Next(Run(actions[..|actions| - 1]), actions[|actions| - 1])
  }

  /** Promises of the world around the manager: the data transfer server, the caller, the datastore. */
  datatype Clause = StartsWithToken | PreparedOnce | CallbacksWhileActive | CancelWaits | CompletedSaved

  /** What the server and the caller promise. */
  const CONTRACT: set<Clause> := {StartsWithToken, PreparedOnce, CallbacksWhileActive, CancelWaits}

  predicate Keeps(c: Clause, s: State, a: Action) {
    match c
    case StartsWithToken => a.Start? ==> a.id in s.tokens
    case PreparedOnce => a.Prepare? ==> a.id !in s.prepared
    case CallbacksWhileActive =>
      && (a.Emit? ==> a.id in s.active)
      && (a.Stop? ==> forall k :: k in s.callbacks ==> s.callbacks[k].id != a.id)
    case CancelWaits => a.CancelReturns? && a.ok && s.pass.Cancelling? ==> s.pass.id !in s.active
    case CompletedSaved => a.CallbackSave? ==> a.ok
  }

  predicate Allowed(s: State, a: Action, clauses: set<Clause>) {
    Enabled(s, a) && forall c :: c in clauses ==> Keeps(c, s, a)
  }

  /** A schedule during which the given promises are kept at every step. */
  predicate Legal(actions: seq<Action>, clauses: set<Clause>)
    decreases |actions|
  {
    Runnable(actions) &&
    (actions != [] ==>
      var n := |actions| - 1;
      Legal(actions[..n], clauses) && Allowed(Run(actions[..n]), actions[n], clauses))
  }

  // ----- the safety property -----

  /** `later` may follow `earlier` in a log about one id. */
  predicate MayFollow(earlier: Effect, later: Effect) {
    earlier.id == later.id ==>
      match earlier
      case Saved(_, Completed) => later.status != Failed
      case Saved(_, Failed) => later == Fired(later.id, Failed)
      case Fired(_, Failed) => false
      case _ => true
  }

  predicate WellOrdered(log: seq<Effect>) {
    forall i, j :: 0 <= i < j < |log| ==> MayFollow(log[i], log[j])
  }

  /** The listener never hears Failed about an id after it heard Completed. */
  predicate NeverRevoked(log: seq<Effect>) {
    forall i, j :: 0 <= i < j < |log| && log[j] == Fired(log[j].id, Failed) ==> log[i] != Fired(log[j].id, Completed)
  }

  /** Nothing at all says Failed about an id after something said Completed: a record counts as well as an event. */
  predicate CompletedIsFinal(log: seq<Effect>) {
    forall i, j :: 0 <= i < j < |log| && log[i].id == log[j].id && log[i].status == Completed ==>
      log[j].status != Failed
  }

  // ----- the invariant -----

  ghost predicate Handling(s: State, id: Id) {
    (s.pass.Cancelling? || s.pass.Reading? || s.pass.Saving? || s.pass.Firing?) && s.pass.id == id
  }

  /** No token of this id is live, queued or being handled, so it can never start again. */
  ghost predicate Retired(s: State, id: Id) {
    id in s.prepared && id !in s.tokens && id !in s.expired && !Handling(s, id) && id !in s.active
  }

  ghost predicate TokensInv(s: State) { s.tokens <= s.prepared && s.active <= s.prepared }

  ghost predicate QueuedInv(s: State) {
    && (forall i :: 0 <= i < |s.expired| ==> s.expired[i] in s.prepared && s.expired[i] !in s.tokens)
    && (forall i, j :: 0 <= i < j < |s.expired| ==> s.expired[i] != s.expired[j])
    && (s.pass.Idle? ==> s.expired == [])
  }

  ghost predicate HandledInv(s: State) {
    (s.pass.Cancelling? || s.pass.Reading? || s.pass.Saving? || s.pass.Firing? ==>
      s.pass.id in s.prepared && s.pass.id !in s.tokens && s.pass.id !in s.expired)
  }

  ghost predicate QueueInv(s: State) { QueuedInv(s) && HandledInv(s) }

  ghost predicate CallbacksInv(s: State) {
    forall k :: k in s.callbacks ==> s.callbacks[k].id in s.active && s.callbacks[k].status != Failed
  }

  ghost predicate PositionInv(s: State) {
    && (s.pass.Reading? || s.pass.Saving? || s.pass.Firing? ==> s.pass.id !in s.active)
    && (s.pass.Saving? ==> s.pass.id !in s.store)
    && (s.pass.Firing? ==> s.pass.id in s.store && s.store[s.pass.id] == Failed)
  }

  ghost predicate RecordsInv(s: State) {
    && (forall id :: id in s.store ==> s.store[id] != Ongoing)
    && (forall id :: id in s.store && s.store[id] == Failed ==> s.pass == Firing(id) || Retired(s, id))
  }

  ghost predicate PassInv(s: State) { PositionInv(s) && RecordsInv(s) }

  ghost predicate LogInv(s: State) {
    && (forall i :: 0 <= i < |s.log| && s.log[i].Saved? ==>
      s.log[i].id in s.store && s.store[s.log[i].id] == s.log[i].status)
    && (forall i :: 0 <= i < |s.log| && s.log[i].status == Failed ==>
      s.log[i].id in s.store && s.store[s.log[i].id] == Failed)
    && (forall i :: 0 <= i < |s.log| && s.log[i].Fired? && s.log[i].status == Failed ==> Retired(s, s.log[i].id))
    && WellOrdered(s.log)
  }

  ghost predicate Inv(s: State) { TokensInv(s) && QueueInv(s) && CallbacksInv(s) && PassInv(s) && LogInv(s) }

  lemma TokensKept(s: State, a: Action)
    requires TokensInv(s) && Allowed(s, a, CONTRACT)
    ensures TokensInv(Next(s, a))
  {
    assert Keeps(StartsWithToken, s, a);
  }

  lemma QueuedKept(s: State, a: Action)
    requires TokensInv(s) && QueuedInv(s) && Allowed(s, a, CONTRACT)
    ensures QueuedInv(Next(s, a))
  {
    assert Keeps(PreparedOnce, s, a);
  }

  lemma HandledKept(s: State, a: Action)
    requires TokensInv(s) && QueueInv(s) && Allowed(s, a, CONTRACT)
    ensures HandledInv(Next(s, a))
  {
    assert Keeps(PreparedOnce, s, a);
  }

  lemma CallbacksKept(s: State, a: Action)
    requires CallbacksInv(s) && Allowed(s, a, CONTRACT)
    ensures CallbacksInv(Next(s, a))
  {
    assert Keeps(CallbacksWhileActive, s, a);
  }

  lemma PositionKept(s: State, a: Action)
    requires Inv(s) && Allowed(s, a, CONTRACT)
    ensures PositionInv(Next(s, a))
  {
    assert Keeps(StartsWithToken, s, a) && Keeps(CancelWaits, s, a);
  }

  lemma RetiredStays(s: State, a: Action, id: Id)
    requires Inv(s) && Allowed(s, a, CONTRACT) && Retired(s, id)
    ensures Retired(Next(s, a), id)
  {
    assert Keeps(PreparedOnce, s, a) && Keeps(StartsWithToken, s, a);
  }

  lemma FiringRetires(s: State, a: Action)
    requires Inv(s) && Allowed(s, a, CONTRACT) && s.pass.Firing?
    ensures Next(s, a).pass == s.pass || Retired(Next(s, a), s.pass.id)
  {
    assert Keeps(PreparedOnce, s, a) && Keeps(StartsWithToken, s, a);
  }

  lemma RecordsKept(s: State, a: Action)
    requires Inv(s) && Allowed(s, a, CONTRACT)
    ensures RecordsInv(Next(s, a))
  {
    var s' := Next(s, a);
    forall id | id in s'.store && s'.store[id] == Failed
      ensures s'.pass == Firing(id) || Retired(s', id)
    {
      if s.pass == Firing(id) {
        FiringRetires(s, a);
      } else if id in s.store && s.store[id] == Failed {
        RetiredStays(s, a, id);
      }
    }
  }

  /** A step that writes nothing keeps the log facts. */
  lemma QuietStep(s: State, a: Action)
    requires Inv(s) && Allowed(s, a, CONTRACT)
    requires Next(s, a).log == s.log && Next(s, a).store == s.store
    ensures LogInv(Next(s, a))
  {
    forall i | 0 <= i < |s.log| && s.log[i].Fired? && s.log[i].status == Failed
      ensures Retired(Next(s, a), s.log[i].id)
    {
      RetiredStays(s, a, s.log[i].id);
    }
  }

  lemma WellOrderedSnoc(log: seq<Effect>, e: Effect)
    requires WellOrdered(log) && forall i :: 0 <= i < |log| ==> MayFollow(log[i], e)
    ensures WellOrdered(log + [e])
  {
  }

  /** What an effect must be to come last in the log of `s`. */
  ghost predicate MayComeLast(s: State, e: Effect) {
    forall i :: 0 <= i < |s.log| ==>
      && MayFollow(s.log[i], e)
      && (e.Saved? && s.log[i].id == e.id ==>
        (s.log[i].Saved? ==> s.log[i].status == e.status) && (s.log[i].status == Failed ==> e.status == Failed))
  }

  /** A step that appends one effect keeps them when that effect may come last. */
  lemma WritingStep(s: State, a: Action, e: Effect)
    requires Inv(s) && Allowed(s, a, CONTRACT)
    requires Next(s, a).log == s.log + [e]
    requires Next(s, a).store == s.store || (e.Saved? && Next(s, a).store == s.store[e.id := e.status])
    requires e.Saved? || e.status == Failed ==> e.id in Next(s, a).store && Next(s, a).store[e.id] == e.status
    requires e == Fired(e.id, Failed) ==> Retired(Next(s, a), e.id)
    requires MayComeLast(s, e)
    ensures LogInv(Next(s, a))
  {
    WellOrderedSnoc(s.log, e);
    forall i | 0 <= i < |s.log| && s.log[i].Fired? && s.log[i].status == Failed
      ensures Retired(Next(s, a), s.log[i].id)
    {
      RetiredStays(s, a, s.log[i].id);
    }
  }

  lemma LogKept(s: State, a: Action)
    requires Inv(s) && Allowed(s, a, CONTRACT)
    ensures LogInv(Next(s, a))
  {
    if Next(s, a).log == s.log {
      QuietStep(s, a);
    } else {
      match a {
        case CallbackSave(call, _) => WritingStep(s, a, Saved(s.callbacks[call].id, Completed));
        case CallbackFire(call) => WritingStep(s, a, Fired(s.callbacks[call].id, s.callbacks[call].status));
        case Save(_) => WritingStep(s, a, Saved(s.pass.id, Failed));
        case Fire => WritingStep(s, a, Fired(s.pass.id, Failed));
      }
    }
  }

  lemma {:induction false} LegalRunsKeepInv(actions: seq<Action>, clauses: set<Clause>)
    requires Legal(actions, clauses) && CONTRACT <= clauses
    ensures Inv(Run(actions))
  {
    if actions == [] {
    } else {
      var n := |actions| - 1;
      LegalRunsKeepInv(actions[..n], clauses);
      var s, a := Run(actions[..n]), actions[n];
      assert Allowed(s, a, CONTRACT);
      TokensKept(s, a);
      QueuedKept(s, a);
      HandledKept(s, a);
      CallbacksKept(s, a);
      PositionKept(s, a);
      RecordsKept(s, a);
      LogKept(s, a);
    }
  }

  // ----- main results -----

  /**
   However the ticker and the callbacks interleave: after a Completed record was
   saved no Failed record is saved and no Failed event is fired for that id, and
   a fired Failed event is the last thing ever heard of its id.
   */
  lemma {:induction false} FailedNeverFollowsCompleted(actions: seq<Action>)
    requires Legal(actions, CONTRACT)
    ensures WellOrdered(Run(actions).log)
    ensures forall i :: 0 <= i < |Run(actions).log| && Run(actions).log[i].Saved? ==>
              Run(actions).log[i].id in Run(actions).store
              && Run(actions).store[Run(actions).log[i].id] == Run(actions).log[i].status
  {
    LegalRunsKeepInv(actions, CONTRACT);
  }

  /** A Completed event in the hands of the listener, or about to be, has been saved. */
  ghost predicate HeardIsSaved(s: State) {
    && (forall k :: k in s.callbacks && s.callbacks[k].saved ==>
      s.callbacks[k].id in s.store && s.store[s.callbacks[k].id] == Completed)
    && (forall i :: 0 <= i < |s.log| && s.log[i].status == Completed ==>
      s.log[i].id in s.store && s.store[s.log[i].id] == Completed)
  }

  lemma CompletedStays(s: State, a: Action, id: Id)
    requires PassInv(s) && Enabled(s, a) && id in s.store && s.store[id] == Completed
    ensures var s' := Next(s, a); id in s'.store && s'.store[id] == Completed
  {
  }

  lemma HeardIsSavedKept(s: State, a: Action)
    requires PassInv(s) && HeardIsSaved(s) && Allowed(s, a, {CompletedSaved})
    ensures HeardIsSaved(Next(s, a))
  {
    var s' := Next(s, a);
    assert Keeps(CompletedSaved, s, a);
    forall i | 0 <= i < |s'.log| && s'.log[i].status == Completed
      ensures s'.log[i].id in s'.store && s'.store[s'.log[i].id] == Completed
    {
      if i < |s.log| {
        assert s'.log[i] == s.log[i];
        CompletedStays(s, a, s.log[i].id);
      }
    }
    forall k | k in s'.callbacks && s'.callbacks[k].saved
      ensures s'.callbacks[k].id in s'.store && s'.store[s'.callbacks[k].id] == Completed
    {
      if k in s.callbacks && s.callbacks[k].saved {
        CompletedStays(s, a, s.callbacks[k].id);
      }
    }
  }

  /** When the datastore accepts what the callback saves, the listener never hears Failed after Completed. */
  lemma {:induction false} CompletedEventIsFinal(actions: seq<Action>)
    requires Legal(actions, CONTRACT + {CompletedSaved})
    ensures CompletedIsFinal(Run(actions).log) && HeardIsSaved(Run(actions))
  {
    if actions == [] {
    } else {
      var n := |actions| - 1;
      CompletedEventIsFinal(actions[..n]);
      LegalRunsKeepInv(actions[..n], CONTRACT + {CompletedSaved});
      LegalRunsKeepInv(actions, CONTRACT + {CompletedSaved});
      assert Allowed(Run(actions[..n]), actions[n], {CompletedSaved});
      HeardIsSavedKept(Run(actions[..n]), actions[n]);
    }
  }

  // ----- what a pass without faults achieves -----

  /** The datastore and the server answer, and a listener stays. */
  predicate Faultless(a: Action) {
    match a
    case SetListener(listening) => listening
    case LookUp(reply) => !reply.LookupError?
    case CancelReturns(ok) => ok
    case Read(ok) => ok
    case Save(ok) => ok
    case _ => true
  }

  /** The pass is done with this id: its record is Completed, or it is Failed and was reported. */
  ghost predicate Settled(s: State, id: Id) {
    id in s.store && (s.store[id] == Completed || (s.store[id] == Failed && Fired(id, Failed) in s.log))
  }

  ghost predicate Due(s: State, id: Id) { id in s.expired || Handling(s, id) }

  lemma SettledStays(s: State, a: Action, id: Id)
    requires Inv(s) && Settled(s, id) && Allowed(s, a, CONTRACT)
    ensures Settled(Next(s, a), id)
  {
    if Fired(id, Failed) in s.log {
      var i :| 0 <= i < |s.log| && s.log[i] == Fired(id, Failed);
      LogKept(s, a);
      assert Next(s, a).log[i] == Fired(id, Failed);
    }
  }

  /** Handling goes on until the id is settled. */
  lemma HandlingSettles(s: State, a: Action, id: Id)
    requires Inv(s) && Handling(s, id) && s.listening && Enabled(s, a) && Faultless(a)
    ensures Handling(Next(s, a), id) || Settled(Next(s, a), id)
  {
    if a.Fire? {
      assert Next(s, a).log[|s.log|] == Fired(id, Failed);
    }
  }

  /** A queued id stays in the queue or is handled next. */
  lemma QueuedIsDue(s: State, a: Action, id: Id)
    requires Inv(s) && id in s.expired && Enabled(s, a) && Faultless(a)
    requires !s.pass.Collecting?
    ensures Due(Next(s, a), id)
  {
    if a.LookUp? && id != s.expired[0] {
      assert s.expired == [s.expired[0]] + s.expired[1..];
      assert id in s.expired[1..];
    }
  }

  lemma DueStep(s: State, a: Action, id: Id)
    requires Inv(s) && Allowed(s, a, CONTRACT) && Faultless(a) && s.listening
    requires Settled(s, id) || (Due(s, id) && !s.pass.Collecting?)
    ensures var s' := Next(s, a); Settled(s', id) || (Due(s', id) && !s'.pass.Collecting?)
  {
    if Settled(s, id) {
      SettledStays(s, a, id);
    } else if Handling(s, id) {
      HandlingSettles(s, a, id);
    } else {
      QueuedIsDue(s, a, id);
    }
  }

  lemma {:induction false} DueIsSettled(before: seq<Action>, during: seq<Action>, id: Id)
    requires Legal(before + during, CONTRACT) && Legal(before, CONTRACT)
    requires Run(before).listening && !Run(before).pass.Collecting? && Due(Run(before), id)
    requires forall i :: 0 <= i < |during| ==> Faultless(during[i])
    ensures var s := Run(before + during);
            && s.listening
            && (Settled(s, id) || (Due(s, id) && !s.pass.Collecting?))
  {
    if during == [] {
      assert before + during == before;
    } else {
      var n := |during| - 1;
      var all, a := before + during, during[n];
      assert all[..|all| - 1] == before + during[..n] && all[|all| - 1] == a;
      DueIsSettled(before, during[..n], id);
      LegalRunsKeepInv(before + during[..n], CONTRACT);
      DueStep(Run(before + during[..n]), a, id);
    }
  }

  /**
   Progress, for any interleaving: once no call fails and someone listens, every id
   whose token a pass deleted ends up with a Completed record, or with a Failed
   record that was reported exactly once. At the end of the pass none is left over.
   */
  lemma PassSettlesExpired(before: seq<Action>, during: seq<Action>, id: Id)
    requires Legal(before + during, CONTRACT) && Legal(before, CONTRACT)
    requires Run(before).listening && Run(before).pass.Looping? && id in Run(before).expired
    requires forall i :: 0 <= i < |during| ==> Faultless(during[i])
    ensures var s := Run(before + during);
            && (id in s.expired || Handling(s, id) || Settled(s, id))
            && (s.pass.Idle? ==> Settled(s, id))
            && (id in s.store && s.store[id] == Completed ==> Fired(id, Failed) !in s.log)
            && (forall i, j :: 0 <= i < j < |s.log| && s.log[i] == Fired(id, Failed) ==> s.log[j] != Fired(id, Failed))
  {
    DueIsSettled(before, during, id);
    LegalRunsKeepInv(before + during, CONTRACT);
    var s := Run(before + during);
    forall i, j | 0 <= i < j < |s.log| && s.log[i] == Fired(id, Failed)
      ensures s.log[j] != Fired(id, Failed)
    {
      assert MayFollow(s.log[i], s.log[j]);
    }
  }

  // ----- every promise is needed -----

  const EVERYTHING: set<Clause> := CONTRACT + {CompletedSaved}

  /** `P` contains the initial state and every allowed successor of its members. */
  ghost predicate Closed(P: State -> bool, clauses: set<Clause>) {
    P(INITIAL) && forall s, a :: P(s) && Allowed(s, a, clauses) ==> P(Next(s, a))
  }

  ghost predicate Reachable(s: State, clauses: set<Clause>) {
    exists actions :: Legal(actions, clauses) && Run(actions) == s
  }

  lemma ReachableIsClosed(P: State -> bool, clauses: set<Clause>)
    requires forall s :: P(s) <==> Reachable(s, clauses)
    ensures Closed(P, clauses)
  {
    assert Legal([], clauses) && Run([]) == INITIAL;
    forall s, a | P(s) && Allowed(s, a, clauses)
      ensures P(Next(s, a))
    {
      var actions :| Legal(actions, clauses) && Run(actions) == s;
      var longer := actions + [a];
      assert longer[..|longer| - 1] == actions;
      assert Legal(longer, clauses) && Run(longer) == Next(s, a);
    }
  }

  lemma Step(P: State -> bool, clauses: set<Clause>, s: State, a: Action, s': State)
    requires Closed(P, clauses) && P(s) && Allowed(s, a, clauses) && s' == Next(s, a)
    ensures P(s')
  {
  }

  /** The token of id 1 expires. */
  lemma TokenExpires(P: State -> bool, clauses: set<Clause>, s: State)
    requires Closed(P, clauses) && P(s)
    requires s.pass == Idle && s.tokens == {1} && s.expired == []
    ensures P(s.(tokens := {}, expired := [1], pass := Looping))
  {
    Step(P, clauses, s, Tick, s.(pass := Collecting));
    var s1 := s.(tokens := {}, expired := [1], pass := Collecting);
    Step(P, clauses, s.(pass := Collecting), DeleteToken(1), s1);
    Step(P, clauses, s1, DeleteReturns(true), s1.(pass := Looping));
  }

  /** The pass finds neither an active transfer nor a record. */
  lemma NothingFound(P: State -> bool, clauses: set<Clause>, s: State)
    requires Closed(P, clauses) && P(s)
    requires s.pass == Looping && s.expired == [1] && s.active == {} && s.store == map[]
    ensures P(s.(expired := [], pass := Saving(1)))
  {
    var s1 := s.(expired := [], pass := Reading(1));
    Step(P, clauses, s, LookUp(NotFound), s1);
    Step(P, clauses, s1, Read(true), s1.(pass := Saving(1)));
  }

  /** A listener is there, and nothing else has happened. */
  const HEARD := INITIAL.(listening := true)

  lemma ExpireUnstarted(P: State -> bool, clauses: set<Clause>)
    requires Closed(P, clauses)
    ensures P(HEARD.(prepared := {1}, pass := Saving(1)))
  {
    Step(P, clauses, INITIAL, SetListener(true), HEARD);
    var s := HEARD.(prepared := {1}, tokens := {1});
    Step(P, clauses, HEARD, Prepare(1), s);
    TokenExpires(P, clauses, s);
    NothingFound(P, clauses, s.(tokens := {}, expired := [1], pass := Looping));
  }

  ghost predicate Breaks(P: State -> bool) { exists s :: P(s) && !NeverRevoked(s.log) }

  /** The pass saves its Failed record and reports it. */
  lemma ReportFailure(P: State -> bool, clauses: set<Clause>, s: State)
    requires Closed(P, clauses) && P(s)
    requires s.pass == Saving(1) && s.listening && |s.log| > 0 && s.log[|s.log| - 1] == Fired(1, Completed)
    ensures Breaks(P)
  {
    var s1 := Next(s, Save(true));
    Step(P, clauses, s, Save(true), s1);
    var s2 := Next(s1, Fire);
    Step(P, clauses, s1, Fire, s2);
    assert s2.log == s.log + [Saved(1, Failed), Fired(1, Failed)];
    assert s2.log[|s.log| - 1] == Fired(1, Completed) && s2.log[|s.log| + 1] == Fired(1, Failed);
  }

  /** A Completed record is written and reported between the read and the save of the pass. */
  lemma CompleteBehindTheRead(P: State -> bool, clauses: set<Clause>, s: State)
    requires Closed(P, clauses) && P(s)
    requires s.pass == Saving(1) && s.listening && s.log == [] && s.store == map[]
    requires s.callbacks == map[0 := Callback(1, Completed, false)]
    ensures Breaks(P)
  {
    var s1 := s.(store := map[1 := Completed], log := [Saved(1, Completed)],
    callbacks := map[0 := Callback(1, Completed, true)]);
    Step(P, clauses, s, CallbackSave(0, true), s1);
    var s2 := s1.(log := [Saved(1, Completed), Fired(1, Completed)], callbacks := map[]);
    Step(P, clauses, s1, CallbackFire(0), s2);
    ReportFailure(P, clauses, s2);
  }

  lemma EmitCompleted(P: State -> bool, clauses: set<Clause>, s: State)
    requires Closed(P, clauses) && P(s)
    requires s.pass == Saving(1) && s.listening && s.log == [] && s.store == map[] && s.callbacks == map[]
    requires CallbacksWhileActive in clauses ==> 1 in s.active
    ensures Breaks(P)
  {
    var s1 := s.(callbacks := map[0 := Callback(1, Completed, false)]);
    Step(P, clauses, s, Emit(0, 1, Completed), s1);
    CompleteBehindTheRead(P, clauses, s1);
  }

  lemma TransferStartedWithoutToken(P: State -> bool)
    requires Closed(P, EVERYTHING - {StartsWithToken})
    ensures Breaks(P)
  {
    var clauses := EVERYTHING - {StartsWithToken};
    ExpireUnstarted(P, clauses);
    var s := HEARD.(prepared := {1}, pass := Saving(1));
    Step(P, clauses, s, Start(1), s.(active := {1}));
    EmitCompleted(P, clauses, s.(active := {1}));
  }

  lemma PreparedTwice(P: State -> bool)
    requires Closed(P, EVERYTHING - {PreparedOnce})
    ensures Breaks(P)
  {
    var clauses := EVERYTHING - {PreparedOnce};
    ExpireUnstarted(P, clauses);
    var s := HEARD.(prepared := {1}, pass := Saving(1));
    Step(P, clauses, s, Prepare(1), s.(tokens := {1}));
    Step(P, clauses, s.(tokens := {1}), Start(1), s.(tokens := {1}, active := {1}));
    EmitCompleted(P, clauses, s.(tokens := {1}, active := {1}));
  }

  lemma CallbackOutlivesTransfer(P: State -> bool)
    requires Closed(P, EVERYTHING - {CallbacksWhileActive})
    ensures Breaks(P)
  {
    var clauses := EVERYTHING - {CallbacksWhileActive};
    ExpireUnstarted(P, clauses);
    EmitCompleted(P, clauses, HEARD.(prepared := {1}, pass := Saving(1)));
  }

  lemma StartFirst(P: State -> bool, clauses: set<Clause>)
    requires Closed(P, clauses)
    ensures P(HEARD.(prepared := {1}, tokens := {1}, active := {1}))
  {
    Step(P, clauses, INITIAL, SetListener(true), HEARD);
    Step(P, clauses, HEARD, Prepare(1), HEARD.(prepared := {1}, tokens := {1}));
    Step(P, clauses, HEARD.(prepared := {1}, tokens := {1}), Start(1), HEARD.(prepared := {1}, tokens := {1}, active := {1}));
  }

  lemma CancelReturnsEarly(P: State -> bool)
    requires Closed(P, EVERYTHING - {CancelWaits})
    ensures Breaks(P)
  {
    var clauses := EVERYTHING - {CancelWaits};
    StartFirst(P, clauses);
    TokenExpires(P, clauses, HEARD.(prepared := {1}, tokens := {1}, active := {1}));
    var s := HEARD.(prepared := {1}, active := {1}, pass := Cancelling(1));
    Step(P, clauses, s.(expired := [1], pass := Looping), LookUp(Found), s);
    Step(P, clauses, s, CancelReturns(true), s.(pass := Reading(1)));
    Step(P, clauses, s.(pass := Reading(1)), Read(true), s.(pass := Saving(1)));
    EmitCompleted(P, clauses, s.(pass := Saving(1)));
  }

  /** The datastore refuses the Completed record. */
  lemma SaveRefused(P: State -> bool, s: State)
    requires Closed(P, CONTRACT) && P(s)
    requires s == HEARD.(prepared := {1}, tokens := {1}, active := {1})
    ensures P(s.(callbacks := map[0 := Callback(1, Completed, true)]))
  {
    var s1 := s.(callbacks := map[0 := Callback(1, Completed, false)]);
    Step(P, CONTRACT, s, Emit(0, 1, Completed), s1);
    Step(P, CONTRACT, s1, CallbackSave(0, false), s.(callbacks := map[0 := Callback(1, Completed, true)]));
  }

  /** The listener hears of it all the same. */
  lemma FireUnsaved(P: State -> bool)
    requires Closed(P, CONTRACT)
    ensures P(HEARD.(prepared := {1}, tokens := {1}, log := [Fired(1, Completed)]))
  {
    StartFirst(P, CONTRACT);
    var s := HEARD.(prepared := {1}, tokens := {1}, active := {1});
    SaveRefused(P, s);
    var s1 := s.(log := [Fired(1, Completed)]);
    Step(P, CONTRACT, s.(callbacks := map[0 := Callback(1, Completed, true)]), CallbackFire(0), s1);
    Step(P, CONTRACT, s1, Stop(1), s1.(active := {}));
  }

  lemma CompletedLost(P: State -> bool)
    requires Closed(P, CONTRACT)
    ensures Breaks(P)
  {
    FireUnsaved(P);
    var s := HEARD.(prepared := {1}, log := [Fired(1, Completed)]);
    TokenExpires(P, CONTRACT, s.(tokens := {1}));
    NothingFound(P, CONTRACT, s.(expired := [1], pass := Looping));
    ReportFailure(P, CONTRACT, s.(pass := Saving(1)));
  }

  lemma {:induction false} FewerPromises(actions: seq<Action>, more: set<Clause>, fewer: set<Clause>)
    requires Legal(actions, more) && fewer <= more
    ensures Legal(actions, fewer)
  {
    if actions == [] {
    } else {
      FewerPromises(actions[..|actions| - 1], more, fewer);
    }
  }

  lemma DroppedPromiseBreaks(missing: Clause, P: State -> bool)
    requires Closed(P, EVERYTHING - {missing})
    ensures Breaks(P)
  {
    match missing {
      case StartsWithToken => TransferStartedWithoutToken(P);
      case PreparedOnce => PreparedTwice(P);
      case CallbacksWhileActive => CallbackOutlivesTransfer(P);
      case CancelWaits => CancelReturnsEarly(P);
      case CompletedSaved =>
        assert EVERYTHING - {missing} == CONTRACT;
        CompletedLost(P);
    }
  }

  lemma MissingPromise(missing: Clause) returns (actions: seq<Action>)
    ensures Legal(actions, EVERYTHING - {missing}) && !NeverRevoked(Run(actions).log)
  {
    var P := s => Reachable(s, EVERYTHING - {missing});
    ReachableIsClosed(P, EVERYTHING - {missing});
    DroppedPromiseBreaks(missing, P);
    var s :| P(s) && !NeverRevoked(s.log);
    actions :| Legal(actions, EVERYTHING - {missing}) && Run(actions) == s;
  }

  lemma Missing(clauses: set<Clause>) returns (c: Clause)
    requires clauses != EVERYTHING
    ensures c !in clauses && clauses <= EVERYTHING - {c}
  {
    forall c: Clause
      ensures c in EVERYTHING
    {
      match c {
        case StartsWithToken =>
        case PreparedOnce =>
        case CallbacksWhileActive =>
        case CancelWaits =>
        case CompletedSaved =>
      }
    }
    c :| c in EVERYTHING && c !in clauses;
  }

  /**
   Under exactly the full set of promises the listener never hears Failed after
   Completed: drop any one, and in some schedule it hears both, in this order.
   The same promises make records final too.
   */
  lemma PromisesAreExactlyEnough(clauses: set<Clause>)
    ensures (forall actions :: Legal(actions, clauses) ==> NeverRevoked(Run(actions).log)) <==> clauses == EVERYTHING
    ensures (forall actions :: Legal(actions, clauses) ==> CompletedIsFinal(Run(actions).log)) <==> clauses == EVERYTHING
  {
    if clauses == EVERYTHING {
      forall actions | Legal(actions, clauses)
        ensures CompletedIsFinal(Run(actions).log) && NeverRevoked(Run(actions).log)
      {
        CompletedEventIsFinal(actions);
      }
    } else {
      var missing := Missing(clauses);
      var actions := MissingPromise(missing);
      FewerPromises(actions, EVERYTHING - {missing}, clauses);
      assert !CompletedIsFinal(Run(actions).log);
    }
  }
}
