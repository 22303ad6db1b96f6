/**
 A run of the expiry protocol told from its steps alone: which tokens and active
 transfers there are, and what the callbacks save and report.
 */
module ExpiryEvents {
  import opened ExpiryProtocol

  // ----- tables -----

  /** Ids with a live token: prepared, and neither cleaned up nor deleted by a pass since. */
  function TokensAfter(actions: seq<Action>): set<Id> {
    if actions == [] then {}
    else
      var before := TokensAfter(actions[..|actions| - 1]);
      match actions[|actions| - 1]
      case Prepare(id) => before + {id}
      case Cleanup(id) => before - {id}
      case DeleteToken(id) => before - {id}
      case _ => before
  }

  function ActiveAfter(actions: seq<Action>): set<Id> {
    if actions == [] then {}
    else
      var before := ActiveAfter(actions[..|actions| - 1]);
      match actions[|actions| - 1]
      case Start(id) => before + {id}
      case Stop(id) => before - {id}
      case _ => before
  }

  predicate ListeningAfter(actions: seq<Action>) {
    if actions == [] then false
    else
      match actions[|actions| - 1]
      case SetListener(listening) => listening
      case _ => ListeningAfter(actions[..|actions| - 1])
  }

  lemma TablesStep(s: State, a: Action)
    requires Enabled(s, a)
    ensures Next(s, a).listening == if a.SetListener? then a.listening else s.listening
    ensures Next(s, a).tokens == match a
                                 case Prepare(id) => s.tokens + {id}
                                 case Cleanup(id) => s.tokens - {id}
                                 case DeleteToken(id) => s.tokens - {id}
                                 case _ => s.tokens
    ensures Next(s, a).active == match a
                                 case Start(id) => s.active + {id}
                                 case Stop(id) => s.active - {id}
                                 case _ => s.active
  {
  }

  lemma {:induction false} TablesAreTold(actions: seq<Action>)
    requires Runnable(actions)
    ensures var s := Run(actions);
            s.tokens == TokensAfter(actions) && s.active == ActiveAfter(actions) && s.listening == ListeningAfter(actions)
  {
    if actions == [] {
    } else {
      var n := |actions| - 1;
      TablesAreTold(actions[..n]);
      TablesStep(Run(actions[..n]), actions[n]);
    }
  }

  // ----- callbacks -----

  datatype Event = Event(id: Id, status: Status)

  /** The event a callback was last given. */
  function LastGiven(actions: seq<Action>, call: nat): Event {
    if actions == [] then Event(0, Ongoing)
    else
      match actions[|actions| - 1]
      case Emit(k, id, status) =>
        if k == call && status != Failed then Event(id, status) else LastGiven(actions[..|actions| - 1], call)
      case _ => LastGiven(actions[..|actions| - 1], call)
  }

  /** What the callbacks do: a save that is accepted, and a report if someone listens. */
  function Effects(actions: seq<Action>): seq<Effect> {
    if actions == [] then []
    else
      var front := actions[..|actions| - 1];
      Effects(front) +
      match actions[|actions| - 1]
      case CallbackSave(call, ok) => if ok then [Saved(LastGiven(front, call).id, Completed)] else []
      case CallbackFire(call) =>
        if ListeningAfter(front) then [Fired(LastGiven(front, call).id, LastGiven(front, call).status)] else []
      case _ => []
  }

  /** What a log says apart from failures. */
  function GoodNews(log: seq<Effect>): seq<Effect> {
    if log == [] then []
    else GoodNews(log[..|log| - 1]) + if log[|log| - 1].status == Failed then [] else [log[|log| - 1]]
  }

  ghost predicate Given(s: State, actions: seq<Action>) {
    forall k :: k in s.callbacks ==>
      s.callbacks[k].status != Failed && LastGiven(actions, k) == Event(s.callbacks[k].id, s.callbacks[k].status)
  }

  lemma GivenStep(s: State, front: seq<Action>, a: Action)
    requires Given(s, front) && Enabled(s, a)
    ensures Given(Next(s, a), front + [a])
  {
    assert (front + [a])[..|front|] == front;
  }

  /** The effect a step adds to the log, if any. */
  lemma LogStep(s: State, a: Action)
    requires Enabled(s, a)
    ensures Next(s, a).log == s.log +
                              match a
                              case CallbackSave(call, ok) => if ok then [Saved(s.callbacks[call].id, Completed)] else []
                              case CallbackFire(call) =>
                                if s.listening then [Fired(s.callbacks[call].id, s.callbacks[call].status)] else []
                              case Save(ok) => if ok then [Saved(s.pass.id, Failed)] else []
                              case Fire => if s.listening then [Fired(s.pass.id, Failed)] else []
                              case _ => []
  {
  }

  lemma GoodNewsSnoc(log: seq<Effect>, e: Effect)
    ensures GoodNews(log + [e]) == GoodNews(log) + if e.status == Failed then [] else [e]
  {
    assert (log + [e])[..|log|] == log;
  }

  lemma EffectsStep(s: State, front: seq<Action>, a: Action)
    requires Enabled(s, a) && Given(s, front) && s.listening == ListeningAfter(front) && GoodNews(s.log) == Effects(front)
    ensures GoodNews(Next(s, a).log) == Effects(front + [a])
  {
    assert (front + [a])[..|front|] == front;
    LogStep(s, a);
    var log := Next(s, a).log;
    if |log| > |s.log| {
      GoodNewsSnoc(s.log, log[|s.log|]);
    } else {
      assert log == s.log;
    }
  }

  /**
   Over every schedule, whatever the pass does meanwhile: apart from failures the
   store and the listener get exactly what the callbacks were given by the server,
   Completed states saved, and every state reported while someone listens.
   */
  lemma {:induction false} CallbacksReportWhatTheyWereGiven(actions: seq<Action>)
    requires Runnable(actions)
    ensures Given(Run(actions), actions)
    ensures GoodNews(Run(actions).log) == Effects(actions)
  {
    if actions == [] {
    } else {
      var n := |actions| - 1;
      CallbacksReportWhatTheyWereGiven(actions[..n]);
      TablesAreTold(actions[..n]);
      assert actions[..n] + [actions[n]] == actions;
      GivenStep(Run(actions[..n]), actions[..n], actions[n]);
      EffectsStep(Run(actions[..n]), actions[..n], actions[n]);
    }
  }

  // ----- failures come from passes -----

  function Failures(log: seq<Effect>): nat {
    if log == [] then 0
    else Failures(log[..|log| - 1]) + if log[|log| - 1].status == Failed then 1 else 0
  }

  lemma FailuresSnoc(log: seq<Effect>, e: Effect)
    ensures Failures(log + [e]) == Failures(log) + if e.status == Failed then 1 else 0
  {
    assert (log + [e])[..|log|] == log;
  }

  lemma IdleStep(s: State, actions: seq<Action>, a: Action)
    requires Enabled(s, a) && Given(s, actions) && s.pass.Idle? && !a.Tick?
    ensures Next(s, a).pass.Idle? && Failures(Next(s, a).log) == Failures(s.log)
  {
    LogStep(s, a);
    var log := Next(s, a).log;
    if |log| > |s.log| {
      FailuresSnoc(s.log, log[|s.log|]);
    } else {
      assert log == s.log;
    }
  }

  /** Between passes nothing fails, whatever the server reports and whoever cleans up. */
  lemma {:induction false} NothingFailsBetweenPasses(before: seq<Action>, during: seq<Action>)
    requires Runnable(before) && Runnable(before + during) && Run(before).pass.Idle?
    requires forall i :: 0 <= i < |during| ==> !during[i].Tick?
    ensures Run(before + during).pass.Idle?
    ensures Failures(Run(before + during).log) == Failures(Run(before).log)
  {
    if during == [] {
      assert before + during == before;
    } else {
      var n := |during| - 1;
      var all := before + during;
      assert all[..|all| - 1] == before + during[..n] && all[|all| - 1] == during[n];
      NothingFailsBetweenPasses(before, during[..n]);
      CallbacksReportWhatTheyWereGiven(before + during[..n]);
      IdleStep(Run(before + during[..n]), before + during[..n], during[n]);
    }
  }

  /** A pass whose deletion returns an error is over at once: until the next tick nothing fails because of it. */
  lemma {:induction false} FailedDeletionEndsPass(before: seq<Action>, during: seq<Action>)
    requires Runnable(before) && Enabled(Run(before), DeleteReturns(false))
    requires Runnable(before + [DeleteReturns(false)] + during)
    requires forall i :: 0 <= i < |during| ==> !during[i].Tick?
    ensures Failures(Run(before + [DeleteReturns(false)] + during).log) == Failures(Run(before).log)
  {
    var ended := before + [DeleteReturns(false)];
    assert ended[..|ended| - 1] == before && ended[|ended| - 1] == DeleteReturns(false);
    assert Runnable(ended) && Run(ended) == Next(Run(before), DeleteReturns(false));
    NothingFailsBetweenPasses(ended, during);
  }
}
