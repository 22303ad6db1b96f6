/**
 A whole retrieval call, told from its steps: which answers of the outside calls
 lead to which result and to which published events.
 */
module RetrievalCall {
  import opened Common
  import opened RetrievalHandler
  import opened RetrievalSession

  predicate Did(steps: seq<Step>, a: Step) { exists k :: 0 <= k < |steps| && steps[k] == a }

  lemma DidSnoc(front: seq<Step>, last: Step, a: Step)
    ensures Did(front + [last], a) <==> Did(front, a) || last == a
  {
    var steps := front + [last];
    assert steps[|front|] == last;
    assert forall k :: 0 <= k < |front| ==> steps[k] == front[k];
  }

  /** An outside call of the goroutine that fails the retrieval. */
  predicate IsFault(a: Step) {
    match a
    case GetPaych(ok) => !ok
    case AllocateLane(ok) => !ok
    case OpenChannel(reply) => reply.None?
    case CheckBlock(has) => has != Some(true)
    case GetChannelState(ok) => !ok
    case _ => false
  }

  predicate Faulted(steps: seq<Step>) { exists k :: 0 <= k < |steps| && IsFault(steps[k]) }

  lemma FaultedSnoc(front: seq<Step>, last: Step)
    ensures Faulted(front + [last]) <==> Faulted(front) || IsFault(last)
  {
    var steps := front + [last];
    assert steps[|front|] == last;
    assert forall k :: 0 <= k < |front| ==> steps[k] == front[k];
  }

  // ----- how far a call has come -----

  predicate Ended(m: Main) { m.Closing? || m.Returned? }

  predicate EndedWith(m: Main, r: Result) { Ended(m) && m.result == r }

  predicate HasStats(m: Main) { Ended(m) && m.result.Stats? }

  /** Calls that were made with the answer needed to be where `m` is, before the outcome is acted on. */
  ghost predicate Prepared(s: Session, steps: seq<Step>) {
    var m := s.main;
    && (s.pchRequired && !m.Setup? && !EndedWith(m, Err) ==> Did(steps, GetPaych(true)))
    && (s.pchRequired && !m.Setup? && !m.Allocating? && !EndedWith(m, Err) ==> Did(steps, AllocateLane(true)))
    && (m.Proposing? || m.Registering? ==> Did(steps, OpenChannel(Some(m.channel))))
  }

  /** The channel the handler listens to is the one that was opened. */
  ghost predicate ChannelOpened(s: Session, steps: seq<Step>) {
    && (s.chanid != NO_CHANNEL ==> Did(steps, OpenChannel(Some(s.chanid))))
    && (s.main.Waiting? || s.main.Acting? || AfterSuccess(s.main) ==> s.chanid != NO_CHANNEL)
  }

  ghost predicate Checked(s: Session, steps: seq<Step>) {
    && (s.main.Acting? || AfterSuccess(s.main) ==> Did(steps, TakeResult))
    && (AfterSuccess(s.main) ==> Did(steps, CheckBlock(Some(true))))
    && (AfterSuccess(s.main) && !s.main.Summarising? ==> Did(steps, GetChannelState(true)))
  }

  /** A call fails exactly for a fault or for the failure it received, and is interrupted exactly by its context. */
  ghost predicate Decided(s: Session, steps: seq<Step>) {
    && (Faulted(steps) ==> EndedWith(s.main, Err))
    && (EndedWith(s.main, Err) ==> Faulted(steps) || (s.acted.Some? && s.acted.value.Failure?))
    && (s.acted.Some? && s.acted.value.Failure? ==> s.main.Acting? || EndedWith(s.main, Err))
    && (EndedWith(s.main, Interrupted) <==> Did(steps, ContextDone))
  }

  lemma PreparedStep(s: Session, steps: seq<Step>, a: Step)
    requires Enabled(s, a) && Prepared(s, steps)
    ensures Prepared(Next(s, a), steps + [a])
  {
    DidSnoc(steps, a, GetPaych(true));
    DidSnoc(steps, a, AllocateLane(true));
    var m := Next(s, a).main;
    if m.Proposing? || m.Registering? {
      DidSnoc(steps, a, OpenChannel(Some(m.channel)));
    }
  }

  lemma ChannelStep(s: Session, steps: seq<Step>, a: Step)
    requires Enabled(s, a) && Prepared(s, steps) && ChannelOpened(s, steps) && GateInv(s)
    ensures ChannelOpened(Next(s, a), steps + [a])
  {
    NextGate(s, a);
    DidSnoc(steps, a, OpenChannel(Some(Next(s, a).chanid)));
  }

  lemma CheckedStep(s: Session, steps: seq<Step>, a: Step)
    requires Enabled(s, a) && Checked(s, steps)
    ensures Checked(Next(s, a), steps + [a])
  {
    DidSnoc(steps, a, TakeResult);
    DidSnoc(steps, a, CheckBlock(Some(true)));
    DidSnoc(steps, a, GetChannelState(true));
  }

  lemma DecidedStep(s: Session, steps: seq<Step>, a: Step)
    requires Enabled(s, a) && Decided(s, steps) && OutcomeInv(s)
    ensures Decided(Next(s, a), steps + [a])
  {
    FaultedSnoc(steps, a);
    DidSnoc(steps, a, ContextDone);
  }

  ghost predicate CallInv(s: Session, steps: seq<Step>) {
    Prepared(s, steps) && ChannelOpened(s, steps) && Checked(s, steps) && Decided(s, steps)
  }

  lemma {:induction false} CallInvHolds(pchRequired: bool, steps: seq<Step>)
    requires Schedule(pchRequired, steps)
    ensures CallInv(Run(pchRequired, steps), steps)
  {
    if steps == [] {
    } else {
      var front, a := steps[..|steps| - 1], steps[|steps| - 1];
      var s := Run(pchRequired, front);
      CallInvHolds(pchRequired, front);
      GateHolds(pchRequired, front);
      OutcomeHolds(pchRequired, front);
      PreparedStep(s, front, a);
      ChannelStep(s, front, a);
      CheckedStep(s, front, a);
      DecidedStep(s, front, a);
      assert front + [a] == steps;
    }
  }

  // ----- main results -----

  /**
   A call returns statistics only if it opened the channel its handler listened
   to, received a success, found the root block and got the channel's state, and,
   where the deal costs something, got a payment channel and a lane first.
   */
  lemma {:induction false} StatsNeedEveryAnswer(pchRequired: bool, steps: seq<Step>)
    requires Schedule(pchRequired, steps) && HasStats(Run(pchRequired, steps).main)
    ensures var s := Run(pchRequired, steps);
            && s.chanid != NO_CHANNEL && Did(steps, OpenChannel(Some(s.chanid)))
            && Did(steps, TakeResult) && s.acted == Some(Success)
            && Did(steps, CheckBlock(Some(true))) && Did(steps, GetChannelState(true))
            && (pchRequired ==> Did(steps, GetPaych(true)) && Did(steps, AllocateLane(true)))
            && !Faulted(steps) && !Did(steps, ContextDone)
  {
    CallInvHolds(pchRequired, steps);
    OutcomeHolds(pchRequired, steps);
    GateHolds(pchRequired, steps);
  }

  /**
   Whatever a call returns is decided by the answers: an error exactly if one of
   its outside calls failed or found the root block missing, or if the outcome it
   received is a failure; its context's error exactly if that was done while it
   waited; statistics exactly otherwise.
   */
  lemma {:induction false} ResultIsDecidedByAnswers(pchRequired: bool, steps: seq<Step>)
    requires Schedule(pchRequired, steps) && Run(pchRequired, steps).main.Returned?
    ensures var s := Run(pchRequired, steps);
            var failed := Faulted(steps) || (s.acted.Some? && s.acted.value.Failure?);
            && (s.main.result == Err <==> failed)
            && (s.main.result == Interrupted <==> Did(steps, ContextDone))
            && (s.main.result.Stats? <==> !failed && !Did(steps, ContextDone))
  {
    CallInvHolds(pchRequired, steps);
  }

  /** Payments owed in the requests the handler has heard, on a deal that costs something. */
  function Owed(pchRequired: bool, steps: seq<Step>): int
    requires Schedule(pchRequired, steps)
  {
    if pchRequired then Sum(Payments(Heard(pchRequired, steps))) else 0
  }

  /** The total the handler keeps is what was owed in the requests it heard. */
  lemma {:induction false} TotalIsOwed(pchRequired: bool, steps: seq<Step>)
    requires Schedule(pchRequired, steps)
    ensures Run(pchRequired, steps).handler.totalPayment == Owed(pchRequired, steps)
  {
    HandlerHearsOwnChannelOnly(pchRequired, steps);
    if pchRequired {
      PaidDealLedger(Heard(pchRequired, steps));
    } else {
      FreeDealLedger(Heard(pchRequired, steps));
    }
  }

  /** The amount in a Success event is what was owed in the requests heard when it was published. */
  lemma SuccessNamesWhatWasOwed(pchRequired: bool, steps: seq<Step>)
    requires Schedule(pchRequired, steps) && steps != [] && steps[|steps| - 1] == PublishSuccess
    ensures var front := steps[..|steps| - 1];
            Run(pchRequired, steps).published == Run(pchRequired, front).published + [Succeeded(Owed(pchRequired, front))]
  {
    TotalIsOwed(pchRequired, steps[..|steps| - 1]);
  }

  /** A call that compiles statistics reports what was owed by then, and the number of vouchers that went out. */
  lemma StatsNameWhatWasOwed(pchRequired: bool, steps: seq<Step>)
    requires Schedule(pchRequired, steps) && steps != [] && steps[|steps| - 1] == CompileStats
    ensures var front := steps[..|steps| - 1];
            var vouchers := if pchRequired then Sends(Heard(pchRequired, front)) else 0;
            Run(pchRequired, steps).main == Closing(Stats(Owed(pchRequired, front), Wrap64(vouchers)))
  {
    var front := steps[..|steps| - 1];
    TotalIsOwed(pchRequired, front);
    HandlerHearsOwnChannelOnly(pchRequired, front);
    if pchRequired {
      PaidDealLedger(Heard(pchRequired, front));
    } else {
      FreeDealLedger(Heard(pchRequired, front));
    }
  }

  /** Only the step for it publishes Success. */
  lemma OnlyPublishSuccessSucceeds(s: Session, a: Step)
    requires Enabled(s, a) && |Next(s, a).published| > |s.published|
    ensures Next(s, a).published[|s.published|].Succeeded? ==> a == PublishSuccess
  {
  }

  /** Step `k` of the call published Success with what was owed by then. */
  ghost predicate NamedAt(pchRequired: bool, steps: seq<Step>, p: Published, k: nat) {
    && k < |steps| && steps[k] == PublishSuccess && Schedule(pchRequired, steps[..k])
    && p == Succeeded(Owed(pchRequired, steps[..k]))
  }

  /** Over any run, every Success event names what was owed when it was published. */
  lemma {:induction false} EverySuccessNamesWhatWasOwed(pchRequired: bool, steps: seq<Step>, i: nat)
    requires Schedule(pchRequired, steps) && i < |Run(pchRequired, steps).published|
    requires Run(pchRequired, steps).published[i].Succeeded?
    ensures exists k: nat :: NamedAt(pchRequired, steps, Run(pchRequired, steps).published[i], k)
  {
    if steps == [] {
    } else {
      var n := |steps| - 1;
      var front, a := steps[..n], steps[n];
      var s, p := Run(pchRequired, front), Run(pchRequired, steps).published[i];
      PublishesAtMostOne(s, a);
      if i < |s.published| {
        EverySuccessNamesWhatWasOwed(pchRequired, front, i);
        var k: nat :| NamedAt(pchRequired, front, p, k);
        assert steps[..k] == front[..k];
        assert NamedAt(pchRequired, steps, p, k);
      } else {
        OnlyPublishSuccessSucceeds(s, a);
        SuccessNamesWhatWasOwed(pchRequired, steps);
        assert NamedAt(pchRequired, steps, p, n);
      }
    }
  }
}
