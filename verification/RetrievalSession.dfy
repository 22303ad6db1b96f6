/**
 One retrieval: the goroutine that opens the data transfer channel and waits for
 an outcome, interleaved with the event handler. Each call of the handler and
 each outside call of the goroutine is one atomic step.
 */
module RetrievalSession {
  import opened Common
  import opened RetrievalHandler

  type ChannelId = nat

  /** The zero value of the channel id variable. No real channel has it. */
  const NO_CHANNEL: ChannelId := 0

  /** Events published to the subscribers of retrieval events. */
  datatype Published = Proposed | Note(note: RetrievalHandler.Note) | Succeeded(totalPayment: int) | FailedEvent

  /** What the call returns: statistics, an error, or the error of its cancelled context. */
  datatype Result = Stats(totalPayment: int, payments: nat) | Err | Interrupted

  datatype Main =
    | Setup                      // about to get the payment channel if one is required
    | Allocating                 // about to allocate a lane in it
    | Subscribing
    | Opening                    // about to open the data transfer channel
    | Proposing(channel: ChannelId)
    | Registering(channel: ChannelId)
    | Waiting
    | Acting(outcome: Outcome)   // a value was received from the result channel
    | Summarising                // the root block is there
    | Reporting                  // the channel state is there
    | Returning                  // success has been published
    | Closing(result: Result)    // deferred calls remain
    | Returned(result: Result)

  datatype Session = Session(
    pchRequired: bool,
    chanid: ChannelId,
    handler: Handler,
    slot: Option<Outcome>,       // the result channel, of capacity one
    main: Main,
    // history
    acted: Option<Outcome>,      // the value received from the result channel
    published: seq<Published>)

  function Start(pchRequired: bool): Session {
    Session(pchRequired, NO_CHANNEL, INITIAL, None, Setup, None, [])
  }

  datatype Step =
    | Deliver(channel: ChannelId, input: Input)
    | GetPaych(ok: bool)
    | AllocateLane(ok: bool)
    | Subscribe
    | OpenChannel(reply: Option<ChannelId>)
    | PublishProposed
    | SetChannel
    | TakeResult
    | GracefulShutdown
    | ContextDone
    | PublishFailure
    | CheckBlock(has: Option<bool>)
    | GetChannelState(ok: bool)
    | PublishSuccess
    | CompileStats
    | Unsubscribe

  predicate Subscribed(m: Main) {
    !(m.Setup? || m.Allocating? || m.Subscribing? || m.Returned?)
  }

  predicate Enabled(s: Session, a: Step) {
    match a
    case Deliver(channel, _) => Subscribed(s.main) && channel != NO_CHANNEL
    case GetPaych(_) => s.main.Setup? && s.pchRequired
    case AllocateLane(_) => s.main.Allocating?
    case Subscribe => s.main.Subscribing? || (s.main.Setup? && !s.pchRequired)
    case OpenChannel(reply) => s.main.Opening? && reply != Some(NO_CHANNEL)
    case PublishProposed => s.main.Proposing?
    case SetChannel => s.main.Registering?
    case TakeResult => s.main.Waiting? && s.slot.Some?
    case GracefulShutdown => s.main.Waiting?
    case ContextDone => s.main.Waiting?
    case PublishFailure => s.main.Acting? && s.main.outcome.Failure?
    case CheckBlock(_) => s.main.Acting? && s.main.outcome.Success?
    case GetChannelState(_) => s.main.Summarising?
    case PublishSuccess => s.main.Reporting?
    case CompileStats => s.main.Returning?
    case Unsubscribe => s.main.Closing?
  }

  /** The argument with which the handler calls finish, if it does. */
  function Report(h: Handler, pchRequired: bool, i: Input): Option<Outcome> {
    match ErrorOf(pchRequired, i)
    case Some(reason) => Some(Failure(reason))
    case None =>
      if i.code.CleanupComplete? || (i.code.FinishTransfer? && h.dealComplete)
         || (HasStatus(i, Completed) && h.allBytesReceived) then Some(Success)
      else None
  }

  function NewNotes(h: Handler, h': Handler): seq<Published> {
    if |h'.notes| > |h.notes| then [Note(h'.notes[|h.notes|])] else []
  }

  /** The handler's gate, then its work; finish drops a value when the result channel is full. */
  function OnEvent(s: Session, channel: ChannelId, i: Input): Session {
    if channel != s.chanid then s
    else
      var h' := Handle(s.handler, s.pchRequired, i);
      s.(handler := h',
      slot := if s.slot.None? then Report(s.handler, s.pchRequired, i) else s.slot,
      published := s.published + NewNotes(s.handler, h'))
  }

  function Fail(s: Session, main: Main): Session { s.(main := main, published := s.published + [FailedEvent]) }

  function Next(s: Session, a: Step): Session
    requires Enabled(s, a)
  {
    match a
    case Deliver(channel, i) => OnEvent(s, channel, i)
    case GetPaych(ok) => if ok then s.(main := Allocating) else Fail(s, Returned(Err))
    case AllocateLane(ok) => if ok then s.(main := Subscribing) else Fail(s, Returned(Err))
    case Subscribe => s.(main := Opening)
    case OpenChannel(reply) => if reply.Some? then s.(main := Proposing(reply.value)) else Fail(s, Closing(Err))
    case PublishProposed => s.(main := Registering(s.main.channel), published := s.published + [Proposed])
    case SetChannel => s.(main := Waiting, chanid := s.main.channel)
    case TakeResult => s.(main := Acting(s.slot.value), slot := None, acted := s.slot)
    case GracefulShutdown => s
    case ContextDone => s.(main := Closing(Interrupted))
    case PublishFailure => Fail(s, Closing(Err))
    case CheckBlock(has) => if has == Some(true) then s.(main := Summarising) else Fail(s, Closing(Err))
    case GetChannelState(ok) => if ok then s.(main := Reporting) else Fail(s, Closing(Err))
    case PublishSuccess => s.(main := Returning, published := s.published + [Succeeded(s.handler.totalPayment)])
    case CompileStats => s.(main := Closing(Stats(s.handler.totalPayment, s.handler.nonce)))
    case Unsubscribe => s.(main := Returned(s.main.result))
  }

  predicate Schedule(pchRequired: bool, steps: seq<Step>)
    decreases |steps|, 0
  {
    steps != [] ==>
      var n := |steps| - 1;
      Schedule(pchRequired, steps[..n]) && Enabled(Run(pchRequired, steps[..n]), steps[n])
  }

  function Run(pchRequired: bool, steps: seq<Step>): Session
    requires Schedule(pchRequired, steps)
    decreases |steps|, 1
  {
    if steps == [] then Start(pchRequired)
    else Next(Run(pchRequired, steps[..|steps| - 1]), steps[|steps| - 1])
  }

  // ----- non-interference -----

  predicate Registered(steps: seq<Step>) { exists k :: 0 <= k < |steps| && steps[k].SetChannel? }

  /** The events on channel `c` delivered after the channel id was set. */
  function OnChannel(steps: seq<Step>, c: ChannelId): seq<Input> {
    if steps == [] then []
    else
      var n := |steps| - 1;
      OnChannel(steps[..n], c)
      + if steps[n].Deliver? && steps[n].channel == c && Registered(steps[..n]) then [steps[n].input] else []
  }

  /** The events the handler of a session reacts to. */
  function Heard(pchRequired: bool, steps: seq<Step>): seq<Input>
    requires Schedule(pchRequired, steps)
  {
    OnChannel(steps, Run(pchRequired, steps).chanid)
  }

  predicate Unregistered(m: Main) {
    m.Setup? || m.Allocating? || m.Subscribing? || m.Opening? || m.Proposing? || m.Registering?
  }

  ghost predicate GateInv(s: Session) {
    && (Unregistered(s.main) ==> s.chanid == NO_CHANNEL)
    && (s.main.Proposing? || s.main.Registering? ==> s.main.channel != NO_CHANNEL)
    && (s.main.Waiting? || s.main.Acting? || s.main.Summarising? || s.main.Reporting? || s.main.Returning? ==>
        s.chanid != NO_CHANNEL)
  }

  lemma RegisteredSnoc(front: seq<Step>, a: Step)
    ensures Registered(front + [a]) <==> Registered(front) || a.SetChannel?
  {
    var steps := front + [a];
    assert steps[|front|] == a;
    assert forall k :: 0 <= k < |front| ==> steps[k] == front[k];
  }

  lemma {:induction false} UnregisteredHearsNothing(steps: seq<Step>, c: ChannelId)
    requires !Registered(steps)
    ensures OnChannel(steps, c) == []
  {
    if steps == [] {
    } else {
      var n := |steps| - 1;
      assert steps == steps[..n] + [steps[n]];
      RegisteredSnoc(steps[..n], steps[n]);
      UnregisteredHearsNothing(steps[..n], c);
    }
  }

  lemma NextGate(s: Session, a: Step)
    requires GateInv(s) && Enabled(s, a)
    ensures var s' := Next(s, a);
            && GateInv(s') && s'.pchRequired == s.pchRequired
            && (s'.chanid != NO_CHANNEL <==> s.chanid != NO_CHANNEL || a.SetChannel?)
            && (a.SetChannel? ==> s.chanid == NO_CHANNEL)
            && (!a.SetChannel? ==> s'.chanid == s.chanid)
  {
  }

  lemma {:induction false} GateHolds(pchRequired: bool, steps: seq<Step>)
    requires Schedule(pchRequired, steps)
    ensures var s := Run(pchRequired, steps);
            GateInv(s) && s.pchRequired == pchRequired && (s.chanid != NO_CHANNEL <==> Registered(steps))
  {
    if steps == [] {
    } else {
      var n := |steps| - 1;
      GateHolds(pchRequired, steps[..n]);
      NextGate(Run(pchRequired, steps[..n]), steps[n]);
      assert steps == steps[..n] + [steps[n]];
      RegisteredSnoc(steps[..n], steps[n]);
    }
  }

  /** One step, as far as the handler's state goes. */
  lemma HandlerStep(s: Session, a: Step)
    requires Enabled(s, a)
    ensures Next(s, a).handler == if a.Deliver? && a.channel == s.chanid then Handle(s.handler, s.pchRequired, a.input)
                                  else s.handler
  {
  }

  lemma HandleAllSnoc(pchRequired: bool, front: seq<Input>, i: Input)
    ensures HandleAll(pchRequired, front + [i]) == Handle(HandleAll(pchRequired, front), pchRequired, i)
  {
    SnocParts(front, i);
  }

  lemma HeardSnoc(pchRequired: bool, front: seq<Step>, a: Step)
    requires Schedule(pchRequired, front) && Enabled(Run(pchRequired, front), a) && Schedule(pchRequired, front + [a])
    ensures Heard(pchRequired, front + [a]) == Heard(pchRequired, front)
            + if a.Deliver? && a.channel == Run(pchRequired, front).chanid then [a.input] else []
  {
    var steps := front + [a];
    assert steps[..|front|] == front && steps[|front|] == a;
    GateHolds(pchRequired, front);
    NextGate(Run(pchRequired, front), a);
    if a.SetChannel? {
      UnregisteredHearsNothing(front, Run(pchRequired, front).chanid);
      UnregisteredHearsNothing(front, Run(pchRequired, steps).chanid);
    }
  }

  /**
   The handler's state depends only on the events of its own channel delivered
   after the channel id was set: other sessions' events, earlier events and the
   steps of the waiting goroutine make no difference.
   */
  lemma {:induction false} HandlerHearsOwnChannelOnly(pchRequired: bool, steps: seq<Step>)
    requires Schedule(pchRequired, steps)
    ensures Run(pchRequired, steps).handler == HandleAll(pchRequired, Heard(pchRequired, steps))
  {
    if steps == [] {
    } else {
      var n := |steps| - 1;
      var front, a := steps[..n], steps[n];
      HandlerHearsOwnChannelOnly(pchRequired, front);
      GateHolds(pchRequired, front);
      assert steps == front + [a];
      HeardSnoc(pchRequired, front, a);
      HandlerStep(Run(pchRequired, front), a);
      if a.Deliver? && a.channel == Run(pchRequired, front).chanid {
        HandleAllSnoc(pchRequired, Heard(pchRequired, front), a.input);
      } else {
        assert Heard(pchRequired, steps) == Heard(pchRequired, front);
      }
    }
  }

  // ----- the outcome acted on -----

  predicate Undecided(m: Main) { Unregistered(m) || m.Waiting? }

  predicate AfterSuccess(m: Main) {
    || m.Summarising? || m.Reporting? || m.Returning?
    || ((m.Closing? || m.Returned?) && m.result.Stats?)
  }

  /** Until a value is received the result channel holds the first one reported; afterwards that is the one received. */
  ghost predicate OutcomeInv(s: Session) {
    && s.handler.first == (if s.acted.Some? then s.acted else s.slot)
    && (Undecided(s.main) ==> s.acted.None?)
    && (s.main.Acting? ==> s.acted == Some(s.main.outcome))
    && (AfterSuccess(s.main) ==> s.acted == Some(Success))
    && ((s.main.Closing? || s.main.Returned?) && s.main.result.Interrupted? ==> s.acted.None?)
  }

  lemma ResponseReports(h: Handler, pchRequired: bool, i: Input)
    requires i.code.NewVoucherResult? && h.first.None?
    ensures Handle(h, pchRequired, i).first == Report(h, pchRequired, i)
  {
  }

  /** The first report is the argument of the first call of finish. */
  lemma HandleReports(h: Handler, pchRequired: bool, i: Input)
    ensures Handle(h, pchRequired, i).first == if h.first.Some? then h.first else Report(h, pchRequired, i)
  {
    if h.first.Some? {
      FirstStays(h, pchRequired, i);
    } else if i.code.NewVoucherResult? {
      ResponseReports(h, pchRequired, i);
    }
  }

  lemma DeliverKeepsOutcome(s: Session, channel: ChannelId, i: Input)
    requires OutcomeInv(s)
    ensures OutcomeInv(OnEvent(s, channel, i))
  {
    HandleReports(s.handler, s.pchRequired, i);
  }

  lemma NextKeepsOutcome(s: Session, a: Step)
    requires OutcomeInv(s) && Enabled(s, a)
    ensures OutcomeInv(Next(s, a))
  {
    if a.Deliver? {
      DeliverKeepsOutcome(s, a.channel, a.input);
    }
  }

  lemma {:induction false} OutcomeHolds(pchRequired: bool, steps: seq<Step>)
    requires Schedule(pchRequired, steps)
    ensures OutcomeInv(Run(pchRequired, steps))
  {
    if steps == [] {
    } else {
      var n := |steps| - 1;
      OutcomeHolds(pchRequired, steps[..n]);
      NextKeepsOutcome(Run(pchRequired, steps[..n]), steps[n]);
    }
  }

  /**
   Whatever is delivered later and however handler and waiter interleave, the
   waiter acts on the first outcome reported. So it goes on after a success
   exactly when the events heard so far make one, and fails for the reason of
   their first error trigger.
   */
  lemma {:induction false} ActsOnFirstOutcome(pchRequired: bool, steps: seq<Step>, reason: Reason)
    requires Schedule(pchRequired, steps) && Run(pchRequired, steps).acted.Some?
    ensures var s, heard := Run(pchRequired, steps), Heard(pchRequired, steps);
            && s.acted == HandleAll(pchRequired, heard).first
            && (s.acted == Some(Success) <==> Succeeds(pchRequired, heard))
            && (s.acted == Some(Failure(reason)) <==> FailsFor(pchRequired, heard, reason))
  {
    OutcomeHolds(pchRequired, steps);
    HandlerHearsOwnChannelOnly(pchRequired, steps);
    FirstOutcome(pchRequired, Heard(pchRequired, steps), reason);
  }

  // ----- the published events -----

  /** Kinds of published events that are counted. */
  datatype Kind = Verdict | SuccessVerdict | KindOf(note: RetrievalHandler.Note)

  predicate Is(p: Published, kind: Kind) {
    match kind
    case Verdict => p.Succeeded? || p.FailedEvent?
    case SuccessVerdict => p.Succeeded?
    case KindOf(note) => p == Note(note)
  }

  function CountOf(published: seq<Published>, kind: Kind): nat {
    if published == [] then 0
    else CountOf(published[..|published| - 1], kind) + if Is(published[|published| - 1], kind) then 1 else 0
  }

  lemma CountSnoc(published: seq<Published>, p: Published, kind: Kind)
    ensures CountOf(published + [p], kind) == CountOf(published, kind) + if Is(p, kind) then 1 else 0
  {
    SnocParts(published, p);
  }

  function VerdictsOf(r: Result): (nat, nat) {
    match r
    case Stats(_, _) => (1, 1)
    case Err => (1, 0)
    case Interrupted => (0, 0)
  }

  /** How many verdicts, and how many of them successes, have been published at each point of the call. */
  function Verdicts(m: Main): (nat, nat) {
    match m
    case Returning => (1, 1)
    case Closing(r) => VerdictsOf(r)
    case Returned(r) => VerdictsOf(r)
    case _ => (0, 0)
  }

  ghost predicate VerdictInv(s: Session) {
    CountOf(s.published, Verdict) == Verdicts(s.main).0 && CountOf(s.published, SuccessVerdict) == Verdicts(s.main).1
  }

  /** The event a step publishes, if any. */
  lemma PublishesAtMostOne(s: Session, a: Step)
    requires Enabled(s, a)
    ensures var s' := Next(s, a);
            s'.published == s.published
            || (|s'.published| == |s.published| + 1 && s'.published == s.published + [s'.published[|s.published|]])
  {
  }

  /** The verdicts a step publishes are those its position in the call demands. */
  lemma StepPublishesVerdicts(s: Session, a: Step)
    requires Enabled(s, a)
    ensures var s' := Next(s, a);
            && Verdicts(s'.main).0 == Verdicts(s.main).0
               + (if |s'.published| > |s.published| && Is(s'.published[|s.published|], Verdict) then 1 else 0)
            && Verdicts(s'.main).1 == Verdicts(s.main).1
               + (if |s'.published| > |s.published| && Is(s'.published[|s.published|], SuccessVerdict) then 1 else 0)
  {
  }

  lemma NextKeepsVerdict(s: Session, a: Step)
    requires VerdictInv(s) && Enabled(s, a)
    ensures VerdictInv(Next(s, a))
  {
    PublishesAtMostOne(s, a);
    StepPublishesVerdicts(s, a);
    var s' := Next(s, a);
    if s'.published != s.published {
      var p := s'.published[|s.published|];
      CountSnoc(s.published, p, Verdict);
      CountSnoc(s.published, p, SuccessVerdict);
    }
  }

  /**
   A call that returns has published exactly one verdict, which is Success exactly
   when it returns statistics; only a call cancelled while waiting publishes none.
   */
  lemma {:induction false} OneVerdictPerCall(pchRequired: bool, steps: seq<Step>)
    requires Schedule(pchRequired, steps)
    ensures var s := Run(pchRequired, steps);
            && VerdictInv(s)
            && (s.main.Returned? ==>
                && (CountOf(s.published, Verdict) == 0 <==> s.main.result.Interrupted?)
                && (CountOf(s.published, Verdict) == 1 <==> !s.main.result.Interrupted?)
                && (CountOf(s.published, SuccessVerdict) == 1 <==> s.main.result.Stats?))
  {
    if steps == [] {
    } else {
      var n := |steps| - 1;
      OneVerdictPerCall(pchRequired, steps[..n]);
      NextKeepsVerdict(Run(pchRequired, steps[..n]), steps[n]);
    }
  }

  /** Every Accepted and FirstByte comes after a Proposed. */
  ghost predicate NotesAfterProposed(published: seq<Published>) {
    forall i :: 0 <= i < |published| && published[i].Note? ==> exists j :: 0 <= j < i && published[j].Proposed?
  }

  ghost predicate ProposedInv(s: Session) {
    && GateInv(s)
    && NotesAfterProposed(s.published)
    && (s.chanid != NO_CHANNEL || s.main.Registering? ==> exists j :: 0 <= j < |s.published| && s.published[j].Proposed?)
  }

  lemma AppendAfterProposed(published: seq<Published>, p: Published)
    requires NotesAfterProposed(published)
    requires p.Note? ==> exists j :: 0 <= j < |published| && published[j].Proposed?
    ensures NotesAfterProposed(published + [p])
  {
    var all := published + [p];
    forall i | 0 <= i < |all| && all[i].Note?
      ensures exists j :: 0 <= j < i && all[j].Proposed?
    {
      if i < |published| {
        assert published[i].Note?;
        var j :| 0 <= j < i && published[j].Proposed?;
        assert all[j].Proposed?;
      } else {
        var j :| 0 <= j < |published| && published[j].Proposed?;
        assert all[j].Proposed?;
      }
    }
  }

  /** Only the handler publishes notes, and only with the gate open. */
  lemma NotesNeedTheGate(s: Session, a: Step)
    requires Enabled(s, a) && |Next(s, a).published| > |s.published|
    ensures Next(s, a).published[|s.published|].Note? ==> s.chanid != NO_CHANNEL
    ensures Next(s, a).published[|s.published|].Proposed? <==> a.PublishProposed?
  {
  }

  lemma NextKeepsProposed(s: Session, a: Step)
    requires ProposedInv(s) && Enabled(s, a)
    ensures ProposedInv(Next(s, a))
  {
    NextGate(s, a);
    PublishesAtMostOne(s, a);
    var s' := Next(s, a);
    if s'.published != s.published {
      var p := s'.published[|s.published|];
      NotesNeedTheGate(s, a);
      AppendAfterProposed(s.published, p);
      assert forall j :: 0 <= j < |s.published| ==> s'.published[j] == s.published[j];
    }
  }

  lemma {:induction false} ProposedComesFirst(pchRequired: bool, steps: seq<Step>)
    requires Schedule(pchRequired, steps)
    ensures ProposedInv(Run(pchRequired, steps))
  {
    if steps == [] {
    } else {
      var n := |steps| - 1;
      ProposedComesFirst(pchRequired, steps[..n]);
      NextKeepsProposed(Run(pchRequired, steps[..n]), steps[n]);
    }
  }

  /** What the handler publishes reaches the subscribers, and nothing else looks like it. */
  ghost predicate NotesForwarded(s: Session, note: RetrievalHandler.Note) {
    CountOf(s.published, KindOf(note)) == Count(s.handler.notes, note)
  }

  lemma HandlerAddsOneNote(h: Handler, pchRequired: bool, i: Input)
    ensures var h' := Handle(h, pchRequired, i);
            h'.notes == h.notes || (|h'.notes| == |h.notes| + 1 && h'.notes == h.notes + [h'.notes[|h.notes|]])
  {
    HandleHasNotesEffect(h, pchRequired, i);
  }

  /** What `OnEvent` publishes are the notes the handler adds. */
  lemma OneMoreNote(s: Session, h': Handler, note: RetrievalHandler.Note)
    requires NotesForwarded(s, note)
    requires |h'.notes| > |s.handler.notes| ==> h'.notes == s.handler.notes + [h'.notes[|s.handler.notes|]]
    requires |h'.notes| <= |s.handler.notes| ==> h'.notes == s.handler.notes
    ensures NotesForwarded(s.(handler := h', published := s.published + NewNotes(s.handler, h')), note)
  {
    if |h'.notes| > |s.handler.notes| {
      var n := h'.notes[|s.handler.notes|];
      CountNote(s.handler.notes, n, note);
      CountSnoc(s.published, Note(n), KindOf(note));
    } else {
      assert s.published + [] == s.published;
    }
  }

  lemma EventForwardsNotes(s: Session, channel: ChannelId, i: Input, note: RetrievalHandler.Note)
    requires NotesForwarded(s, note)
    ensures NotesForwarded(OnEvent(s, channel, i), note)
  {
    var h' := Handle(s.handler, s.pchRequired, i);
    HandlerAddsOneNote(s.handler, s.pchRequired, i);
    OneMoreNote(s, h', note);
  }

  /** Other steps publish no notes and leave the handler alone. */
  lemma OtherStepsPublishNoNotes(s: Session, a: Step)
    requires Enabled(s, a) && !a.Deliver?
    ensures Next(s, a).handler == s.handler
    ensures |Next(s, a).published| > |s.published| ==> !Next(s, a).published[|s.published|].Note?
  {
  }

  lemma NextForwardsNotes(s: Session, a: Step, note: RetrievalHandler.Note)
    requires NotesForwarded(s, note) && Enabled(s, a)
    ensures NotesForwarded(Next(s, a), note)
  {
    if a.Deliver? {
      EventForwardsNotes(s, a.channel, a.input, note);
    } else {
      PublishesAtMostOne(s, a);
      OtherStepsPublishNoNotes(s, a);
      var s' := Next(s, a);
      if s'.published != s.published {
        CountSnoc(s.published, s'.published[|s.published|], KindOf(note));
      }
    }
  }

  lemma {:induction false} NotesAreForwarded(pchRequired: bool, steps: seq<Step>, note: RetrievalHandler.Note)
    requires Schedule(pchRequired, steps)
    ensures NotesForwarded(Run(pchRequired, steps), note)
  {
    if steps == [] {
    } else {
      var n := |steps| - 1;
      NotesAreForwarded(pchRequired, steps[..n], note);
      NextForwardsNotes(Run(pchRequired, steps[..n]), steps[n], note);
    }
  }

  /**
   The published protocol: Accepted and FirstByte only after Proposed, FirstByte
   at most once and exactly when progress was heard, Accepted once per acceptance heard.
   */
  lemma PublishedProtocol(pchRequired: bool, steps: seq<Step>)
    requires Schedule(pchRequired, steps)
    ensures var s, heard := Run(pchRequired, steps), Heard(pchRequired, steps);
            && NotesAfterProposed(s.published)
            && CountOf(s.published, KindOf(FirstByteNote)) == (if ProgressOf(heard) == [] then 0 else 1)
            && CountOf(s.published, KindOf(AcceptedNote)) == Accepts(heard)
  {
    ProposedComesFirst(pchRequired, steps);
    NotesAreForwarded(pchRequired, steps, FirstByteNote);
    NotesAreForwarded(pchRequired, steps, AcceptedNote);
    HandlerHearsOwnChannelOnly(pchRequired, steps);
    NotesMatchEvents(pchRequired, Heard(pchRequired, steps));
  }

  // ----- the statistics returned -----

  /**
   The total reported is the last amount sent plus whatever was owed since, so it
   is the amount paid exactly when nothing owed is left unsent; the number of
   payments is the number of vouchers sent.
   */
  lemma ReportedPayments(pchRequired: bool, steps: seq<Step>)
    requires Schedule(pchRequired, steps) && Run(pchRequired, steps).main.Returning?
    ensures var s, heard := Run(pchRequired, steps), Heard(pchRequired, steps);
            var unsent := if pchRequired then Unsent(heard) else 0;
            && Next(s, CompileStats).main.result == Stats(LastAmount(s.handler.sent) + unsent, Wrap64(|s.handler.sent|))
            && (s.handler.totalPayment == LastAmount(s.handler.sent) <==> unsent == 0)
  {
    HandlerHearsOwnChannelOnly(pchRequired, steps);
    var heard := Heard(pchRequired, steps);
    if pchRequired {
      PaidDealLedger(heard);
    } else {
      FreeDealLedger(heard);
    }
  }

  ghost predicate Reachable(s: Session) {
    exists steps :: Schedule(s.pchRequired, steps) && Run(s.pchRequired, steps) == s
  }

  lemma Reach(s: Session, a: Step, s': Session)
    requires Reachable(s) && Enabled(s, a) && s' == Next(s, a) && s'.pchRequired == s.pchRequired
    ensures Reachable(s')
  {
    var steps :| Schedule(s.pchRequired, steps) && Run(s.pchRequired, steps) == s;
    SnocParts(steps, a);
    assert Schedule(s.pchRequired, steps + [a]) && Run(s.pchRequired, steps + [a]) == s';
  }

  lemma ReachOpening()
    ensures Reachable(Start(true).(main := Opening))
  {
    var s := Start(true);
    assert Schedule(true, []) && Run(true, []) == s;
    Reach(s, GetPaych(true), s.(main := Allocating));
    Reach(s.(main := Allocating), AllocateLane(true), s.(main := Subscribing));
    Reach(s.(main := Subscribing), Subscribe, s.(main := Opening));
  }

  lemma ReachWaiting()
    ensures Reachable(Start(true).(main := Waiting, chanid := 1, published := [Proposed]))
  {
    ReachOpening();
    var s := Start(true).(main := Proposing(1));
    Reach(Start(true).(main := Opening), OpenChannel(Some(1)), s);
    var s1 := s.(main := Registering(1), published := [Proposed]);
    Reach(s, PublishProposed, s1);
    Reach(s1, SetChannel, s1.(main := Waiting, chanid := 1));
  }

  const FINISHED := Input(FinishTransfer, OtherResult, 0, false, 0, false)
  const COMPLETED := Input(NewVoucherResult, DealResponse(Completed, 0), 0, false, 0, false)

  /** A request for 5 whose voucher cannot be created. */
  const UNPAID := Input(NewVoucherResult, DealResponse(FundsNeededLastPayment, 5), 0, false, 0, false)

  /** All bytes have arrived and the provider calls the deal completed. */
  const DONE := INITIAL.(allBytesReceived := true, first := Some(Success))

  lemma ReachFinished()
    ensures Reachable(Session(true, 1, INITIAL.(allBytesReceived := true), None, Waiting, None, [Proposed]))
  {
    ReachWaiting();
    var s := Session(true, 1, INITIAL, None, Waiting, None, [Proposed]);
    Reach(s, Deliver(1, FINISHED), s.(handler := INITIAL.(allBytesReceived := true)));
  }

  lemma ReachSuccess()
    ensures Reachable(Session(true, 1, DONE, None, Acting(Success), Some(Success), [Proposed]))
  {
    ReachFinished();
    var s := Session(true, 1, INITIAL.(allBytesReceived := true), None, Waiting, None, [Proposed]);
    var s1 := s.(handler := DONE, slot := Some(Success));
    Reach(s, Deliver(1, COMPLETED), s1);
    Reach(s1, TakeResult, s1.(slot := None, acted := Some(Success), main := Acting(Success)));
  }

  lemma ReachUnpaid() returns (h: Handler, slot: Option<Outcome>)
    ensures h.totalPayment == 5 && h.sent == [] && h.nonce == 0
    ensures Reachable(Session(true, 1, h, slot, Acting(Success), Some(Success), [Proposed]))
  {
    ReachSuccess();
    var s := Session(true, 1, DONE, None, Acting(Success), Some(Success), [Proposed]);
    var s' := Next(s, Deliver(1, UNPAID));
    Reach(s, Deliver(1, UNPAID), s');
    h, slot := s'.handler, s'.slot;
  }

  lemma ReachReturn(h: Handler, slot: Option<Outcome>) returns (s: Session)
    requires Reachable(Session(true, 1, h, slot, Acting(Success), Some(Success), [Proposed]))
    ensures Reachable(s) && s.pchRequired && s.main == Closing(Stats(h.totalPayment, h.nonce)) && s.handler == h
  {
    var s0 := Session(true, 1, h, slot, Acting(Success), Some(Success), [Proposed]);
    Reach(s0, CheckBlock(Some(true)), s0.(main := Summarising));
    Reach(s0.(main := Summarising), GetChannelState(true), s0.(main := Reporting));
    var s1 := s0.(main := Returning, published := [Proposed, Succeeded(h.totalPayment)]);
    Reach(s0.(main := Reporting), PublishSuccess, s1);
    s := s1.(main := Closing(Stats(h.totalPayment, h.nonce)));
    Reach(s1, CompileStats, s);
  }

  /**
   The reported total may exceed what was paid. The transfer finishes and the deal
   is completed; a last request for payment, handled while the call goes on, adds
   to the total although its voucher fails. So 5 is reported and nothing was paid.
   */
  lemma ReportedTotalMayExceedPayments()
    ensures exists steps :: Schedule(true, steps)
              && Run(true, steps).main == Closing(Stats(5, 0)) && Run(true, steps).handler.sent == []
  {
    var h, slot := ReachUnpaid();
    var s := ReachReturn(h, slot);
    var steps :| Schedule(s.pchRequired, steps) && Run(s.pchRequired, steps) == s;
  }

  // ----- handler and waiter as an object -----

  function FinishWith(s: Session, outcome: Outcome): Session {
    s.(handler := Finish(s.handler, outcome), slot := if s.slot.None? then Some(outcome) else s.slot)
  }

  /** What becomes of a voucher: it fails at one of three points, or it is sent and the nonce moves on. */
  function Settled(s: Session, i: Input, v: Voucher): Session
    requires WantsPayment(i)
  {
    match ErrorOf(true, i)
    case Some(reason) => FinishWith(s, Failure(reason))
    case None => s.(handler := s.handler.(nonce := Wrap64(s.handler.nonce + 1), sent := s.handler.sent + [v]))
  }

  /** `OnEvent` for a request for funds. */
  function OnFundsRequest(s: Session, i: Input): Session
    requires WantsPayment(i)
  {
    if !s.pchRequired then FinishWith(s, Failure(PaymentOnFreeDeal))
    else
      var v := Voucher(s.handler.nonce, s.handler.totalPayment + i.lastResult.paymentOwed);
      Settled(s.(handler := s.handler.(totalPayment := v.amount, requested := s.handler.requested + [v])), i, v)
  }

  function Noted(s: Session, note: RetrievalHandler.Note): Session {
    s.(handler := s.handler.(notes := s.handler.notes + [note]), published := s.published + [Note(note)])
  }

  /** An event that publishes nothing. */
  lemma SilentEvent(s: Session, i: Input, h': Handler)
    requires Handle(s.handler, s.pchRequired, i) == h' && h'.notes == s.handler.notes
    ensures OnEvent(s, s.chanid, i)
         == s.(handler := h', slot := if s.slot.None? then Report(s.handler, s.pchRequired, i) else s.slot)
  {
    assert s.published + [] == s.published;
  }

  /** Payment, as the handler sees it, is payment as the session sees it. */
  lemma PayIsFundsRequest(s: Session, i: Input)
    requires WantsPayment(i)
    ensures Pay(s.handler, s.pchRequired, i.lastResult.paymentOwed, i) == OnFundsRequest(s, i).handler
    ensures OnFundsRequest(s, i) == s.(handler := OnFundsRequest(s, i).handler, slot := OnFundsRequest(s, i).slot)
    ensures OnFundsRequest(s, i).handler.notes == s.handler.notes
  {
  }

  lemma FundsRequestReports(s: Session, i: Input)
    requires WantsPayment(i)
    ensures OnFundsRequest(s, i).slot == if s.slot.None? then Report(s.handler, s.pchRequired, i) else s.slot
  {
  }

  lemma FundsRequestIsEvent(s: Session, i: Input)
    requires WantsPayment(i)
    ensures OnEvent(s, s.chanid, i) == OnFundsRequest(s, i)
  {
    PayIsFundsRequest(s, i);
    FundsRequestReports(s, i);
    assert Handle(s.handler, s.pchRequired, i) == Pay(s.handler, s.pchRequired, i.lastResult.paymentOwed, i);
    SilentEvent(s, i, OnFundsRequest(s, i).handler);
  }

  /** The failure a terminal status stands for. */
  function GivenUpFor(status: DealStatus): Option<Reason> {
    match status
    case Rejected => Some(DealRejected)
    case FundsNeededUnseal => Some(DataSealed)
    case Unsealing => Some(DataSealed)
    case Cancelled => Some(DealCancelled)
    case Errored => Some(DealErrored)
    case _ => None
  }

  lemma GivingUpIsEvent(s: Session, i: Input)
    requires i.code.NewVoucherResult? && i.lastResult.DealResponse? && GivenUpFor(i.lastResult.status).Some?
    ensures OnEvent(s, s.chanid, i) == FinishWith(s, Failure(GivenUpFor(i.lastResult.status).value))
  {
    SilentEvent(s, i, Finish(s.handler, Failure(GivenUpFor(i.lastResult.status).value)));
  }

  lemma AcceptanceIsEvent(s: Session, i: Input)
    requires HasStatus(i, Accepted)
    ensures OnEvent(s, s.chanid, i) == Noted(s, AcceptedNote)
  {
  }

  lemma CompletionIsEvent(s: Session, i: Input)
    requires HasStatus(i, Completed)
    ensures OnEvent(s, s.chanid, i)
         == if s.handler.allBytesReceived then FinishWith(s, Success) else s.(handler := s.handler.(dealComplete := true))
  {
    SilentEvent(s, i, if s.handler.allBytesReceived then Finish(s.handler, Success) else s.handler.(dealComplete := true));
  }

  lemma IgnoredIsEvent(s: Session, i: Input)
    requires Handle(s.handler, s.pchRequired, i) == s.handler && Report(s.handler, s.pchRequired, i).None?
    ensures OnEvent(s, s.chanid, i) == s
  {
    SilentEvent(s, i, s.handler);
  }

  lemma FinishIsEvent(s: Session, i: Input)
    requires i.code.FinishTransfer?
    ensures OnEvent(s, s.chanid, i)
         == if s.handler.dealComplete then FinishWith(s, Success) else s.(handler := s.handler.(allBytesReceived := true))
  {
    SilentEvent(s, i, if s.handler.dealComplete then Finish(s.handler, Success) else s.handler.(allBytesReceived := true));
  }

  function Progressed(s: Session, received: nat): Session {
    var s1 := if s.handler.receivedFirstByte then s else Noted(s.(handler := s.handler.(receivedFirstByte := true)), FirstByteNote);
    s1.(handler := s1.handler.(progress := s1.handler.progress + [received]))
  }

  lemma ProgressIsEvent(s: Session, i: Input)
    requires i.code.DataReceivedProgress?
    ensures OnEvent(s, s.chanid, i) == Progressed(s, i.received)
  {
    assert s.published + [] == s.published;
  }

  lemma OutcomeIsEvent(s: Session, i: Input)
    requires i.code.Error? || i.code.CleanupComplete?
    ensures OnEvent(s, s.chanid, i) == FinishWith(s, if i.code.Error? then Failure(TransferError) else Success)
  {
    SilentEvent(s, i, Finish(s.handler, if i.code.Error? then Failure(TransferError) else Success));
  }

  /** The variables the event handler and the waiting goroutine share. */
  class Retrieval {
    const pchRequired: bool
    var chanid: ChannelId
    var nonce: nat
    var totalPayment: int
    var allBytesReceived: bool
    var dealComplete: bool
    var receivedFirstByte: bool
    var dtRes: seq<Outcome>    // the result channel
    ghost var main: Main
    ghost var first: Option<Outcome>
    ghost var requested: seq<Voucher>
    ghost var sent: seq<Voucher>
    ghost var notes: seq<RetrievalHandler.Note>
    ghost var progress: seq<nat>
    ghost var acted: Option<Outcome>
    ghost var published: seq<Published>

    ghost predicate Valid()
      reads this
    {
      |dtRes| <= 1
    }

    ghost function Ledger(): Handler
      reads this
    {
      Handler(nonce, totalPayment, allBytesReceived, dealComplete, receivedFirstByte, first, requested, sent, notes, progress)
    }

    ghost function View(): Session
      reads this
    {
      Session(pchRequired, chanid, Ledger(), if dtRes == [] then None else Some(dtRes[0]), main, acted, published)
    }

    /** A payment channel is required unless the proposal asks for no money at all. */
    constructor (pricePerByte: int, unsealPrice: int)
      ensures Valid() && View() == Start(pricePerByte != 0 || unsealPrice != 0)
    {
      pchRequired := pricePerByte != 0 || unsealPrice != 0;
      chanid, nonce, totalPayment := NO_CHANNEL, 0, 0;
      allBytesReceived, dealComplete, receivedFirstByte, dtRes := false, false, false, [];
      main, first, requested, sent, notes, progress, acted, published := Setup, None, [], [], [], [], None, [];
    }

    /** The finish closure: posts into the result channel unless it is full. */
    method Finish(outcome: Outcome)
      requires Valid()
      modifies this`dtRes, this`first
      ensures Valid() && View() == FinishWith(old(View()), outcome)
      ensures dtRes == (if old(dtRes) == [] then [outcome] else old(dtRes))
    {
      if first.None? {
        first := Some(outcome);
      }
      if |dtRes| < 1 {
        dtRes := dtRes + [outcome];
      }
    }

    method PublishNote(note: RetrievalHandler.Note)
      requires Valid()
      modifies this`notes, this`published
      ensures Valid() && View() == Noted(old(View()), note)
    {
      notes, published := notes + [note], published + [Note(note)];
    }

    /** What becomes of the voucher: it fails at one of three points, or it is sent and the nonce moves on. */
    method SettleVoucher(i: Input, ghost v: Voucher)
      requires Valid() && WantsPayment(i)
      modifies this`dtRes, this`first, this`nonce, this`sent
      ensures Valid() && View() == Settled(old(View()), i, v)
    {
      if !i.created {
        Finish(Failure(VoucherNotCreated));
        return;
      }
      if i.shortfall > 0 {
        Finish(Failure(NotEnoughFunds));
        return;
      }
      if !i.sent {
        Finish(Failure(VoucherNotSent));
        return;
      }
      nonce := Wrap64(nonce + 1);
      sent := sent + [v];
    }

    /** The branch of the handler that answers a request for funds. */
    method PayVoucher(i: Input)
      requires Valid() && WantsPayment(i)
      modifies this
      ensures Valid() && View() == OnFundsRequest(old(View()), i)
    {
      if !pchRequired {
        Finish(Failure(PaymentOnFreeDeal));
        return;
      }
      totalPayment := totalPayment + i.lastResult.paymentOwed;
      ghost var v := Voucher(nonce, totalPayment);
      requested := requested + [v];
      SettleVoucher(i, v);
    }

    /** The branches that end the retrieval because of the provider. */
    method GiveUp(i: Input)
      requires Valid() && i.code.NewVoucherResult? && i.lastResult.DealResponse?
      requires i.lastResult.status in {Rejected, FundsNeededUnseal, Unsealing, Cancelled, Errored}
      modifies this
      ensures Valid() && View() == OnEvent(old(View()), old(chanid), i)
    {
      GivingUpIsEvent(View(), i);
      if i.lastResult.status.Rejected? {
        Finish(Failure(DealRejected));
      } else if i.lastResult.status.Cancelled? {
        Finish(Failure(DealCancelled));
      } else if i.lastResult.status.Errored? {
        Finish(Failure(DealErrored));
      } else {
        Finish(Failure(DataSealed));
      }
    }

    /** The branch for a completed deal. */
    method CompleteDeal(i: Input)
      requires Valid() && HasStatus(i, Completed)
      modifies this
      ensures Valid() && View() == OnEvent(old(View()), old(chanid), i)
    {
      CompletionIsEvent(View(), i);
      if allBytesReceived {
        Finish(Success);
        return;
      }
      dealComplete := true;
    }

    method OnDealResponse(i: Input)
      requires Valid() && i.code.NewVoucherResult? && i.lastResult.DealResponse?
      modifies this
      ensures Valid() && View() == OnEvent(old(View()), old(chanid), i)
    {
      match i.lastResult.status {
        case Accepted =>
          AcceptanceIsEvent(View(), i);
          PublishNote(AcceptedNote);
        case FundsNeeded =>
          FundsRequestIsEvent(View(), i);
          PayVoucher(i);
        case FundsNeededLastPayment =>
          FundsRequestIsEvent(View(), i);
          PayVoucher(i);
        case Rejected => GiveUp(i);
        case FundsNeededUnseal => GiveUp(i);
        case Unsealing => GiveUp(i);
        case Cancelled => GiveUp(i);
        case Errored => GiveUp(i);
        case Completed => CompleteDeal(i);
        case OtherStatus => IgnoredIsEvent(View(), i);
      }
    }

    /** The branch for the end of the transfer. */
    method FinishBytes(i: Input)
      requires Valid() && i.code.FinishTransfer?
      modifies this
      ensures Valid() && View() == OnEvent(old(View()), old(chanid), i)
    {
      FinishIsEvent(View(), i);
      if dealComplete {
        Finish(Success);
        return;
      }
      allBytesReceived := true;
    }

    /** The branch for received data: the first byte is published once, the progress always reported. */
    method ReceiveProgress(i: Input)
      requires Valid() && i.code.DataReceivedProgress?
      modifies this
      ensures Valid() && View() == OnEvent(old(View()), old(chanid), i)
    {
      ProgressIsEvent(View(), i);
      if !receivedFirstByte {
        receivedFirstByte := true;
        PublishNote(FirstByteNote);
      }
      progress := progress + [i.received];
    }

    /** The event handler. */
    method OnDataTransferEvent(channel: ChannelId, i: Input)
      requires Valid() && Enabled(View(), Deliver(channel, i))
      modifies this
      ensures Valid() && View() == Next(old(View()), Deliver(channel, i))
    {
      if channel != chanid {
        return;
      }
      match i.code {
        case Error =>
          OutcomeIsEvent(View(), i);
          Finish(Failure(TransferError));
        case CleanupComplete =>
          OutcomeIsEvent(View(), i);
          Finish(Success);
        case NewVoucherResult =>
          if i.lastResult.DealResponse? {
            OnDealResponse(i);
          } else {
            IgnoredIsEvent(View(), i);
          }
        case FinishTransfer => FinishBytes(i);
        case DataReceivedProgress => ReceiveProgress(i);
        case OtherCode => IgnoredIsEvent(View(), i);
      }
    }

    /** The goroutine makes the new channel id visible to the handler. */
    method RegisterChannel(newchid: ChannelId)
      requires Valid() && main == Registering(newchid)
      modifies this`chanid, this`main
      ensures Valid() && View() == Next(old(View()), SetChannel)
    {
      chanid := newchid;
      main := Waiting;
    }

    /** The goroutine receives from the result channel. */
    method AwaitResult() returns (outcome: Outcome)
      requires Valid() && main.Waiting? && dtRes != []
      modifies this`dtRes, this`main, this`acted
      ensures Valid() && View() == Next(old(View()), TakeResult) && Some(outcome) == old(View()).slot
    {
      outcome := dtRes[0];
      dtRes := dtRes[1..];
      main, acted := Acting(outcome), Some(outcome);
    }
  }
}
