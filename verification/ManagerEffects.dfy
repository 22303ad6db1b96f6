/**
 What the steps of the transfer manager do to the things others can see: what the
 listener is told, which records are saved, which tokens there are. All of it is
 told from the events and replies alone.
 */
module ManagerEffects {
  import opened Common
  import opened Decimal
  import opened ChannelIds
  import opened DatastoreKeys
  import opened TransferManager

  // ----- the state a listener or a caller is shown -----

  /** `d` shows the transfer `st`. */
  ghost predicate Shows(cfg: Config, d: ChannelState, st: TransferState) {
    && d.transferId == st.id && d.transferType == BoostTransfer
    && d.sent == st.sent && d.received == st.received && d.message == st.message && d.baseCid == st.payloadCid
    && d.selfPeer == cfg.decodePeer(st.localAddr)
    && (st.remoteAddr != "" ==> d.remotePeer == cfg.decodePeer(st.remoteAddr))
    && (st.remoteAddr == "" ==> d.remotePeer == d.selfPeer)
    && d.channelId.initiator == d.selfPeer && d.channelId.responder == d.remotePeer
    && d.channelId.id == ParsedNumber(st.id)
    && (d.status == DtRequested <==> st.status == Started)
    && (d.status == DtCompleted <==> st.status == Completed)
    && (d.status == DtFailed <==> st.status == Failed)
    && (d.status == DtOngoing <==> st.status in {Ongoing, OtherStatus})
  }

  /** A transfer without a remote peer is shown with the local one in its place. */
  lemma TransferIsShown(cfg: Config, st: TransferState)
    ensures Shows(cfg, ToDTState(cfg, st), st)
  {
  }

  // ----- server events -----

  /** The listener is told of an event: its id is a number and it is not a failure. */
  predicate IsNews(id: string, st: TransferState) { ParseUint(id).Some? && st.status != Failed }

  ghost predicate Tells(cfg: Config, n: Notice, id: string, st: TransferState) {
    ParseUint(id) == Some(n.dbid) && Shows(cfg, n.state, st)
  }

  /** A server event adds one notice exactly if there is a listener and it is news; it saves exactly Completed states. */
  lemma ServerEventEffect(cfg: Config, s: Manager, id: string, st: TransferState, saveOk: bool)
    ensures var e := Next(cfg, s, ServerEvent(id, st, saveOk));
            && e.tokens == s.tokens && e.pending == s.pending && e.listening == s.listening
            && (if s.listening && IsNews(id, st)
                then |e.fired| == |s.fired| + 1 && s.fired <= e.fired && Tells(cfg, e.fired[|s.fired|], id, st)
                else e.fired == s.fired)
            && e.store == if IsNews(id, st) && st.status == Completed && saveOk then s.store["/" + id := st] else s.store
  {
    TransferIsShown(cfg, st);
    if ParseUint(id).Some? {
      IdKey(id);
    }
  }

  datatype Event = Event(id: string, st: TransferState)

  predicate Listening(before: bool, actions: seq<Action>) {
    if actions == [] then before
    else if actions[|actions| - 1].SetListener? then actions[|actions| - 1].listening
    else Listening(before, actions[..|actions| - 1])
  }

  /** The news that came from the server while there was a listener. */
  function News(before: bool, actions: seq<Action>): seq<Event> {
    if actions == [] then []
    else
      var front, a := actions[..|actions| - 1], actions[|actions| - 1];
      News(before, front) +
      if a.ServerEvent? && IsNews(a.id, a.st) && Listening(before, front) then [Event(a.id, a.st)] else []
  }

  /** The notices that are not about failures. */
  function Other(fired: seq<Notice>): seq<Notice> {
    if fired == [] then []
    else Other(fired[..|fired| - 1]) + if fired[|fired| - 1].state.status == DtFailed then [] else [fired[|fired| - 1]]
  }

  ghost predicate TellsAll(cfg: Config, notices: seq<Notice>, news: seq<Event>) {
    |notices| == |news| && forall i :: 0 <= i < |news| ==> Tells(cfg, notices[i], news[i].id, news[i].st)
  }

  lemma OtherSnoc(fired: seq<Notice>, n: Notice)
    ensures Other(fired + [n]) == Other(fired) + if n.state.status == DtFailed then [] else [n]
  {
    assert (fired + [n])[..|fired|] == fired;
  }

  /** Iterations tell nothing but failures. */
  lemma IterationTellsFailuresOnly(cfg: Config, s: Manager, r: Replies)
    requires s.pending != []
    ensures Other(Next(cfg, s, Iterate(r)).fired) == Other(s.fired)
    ensures Next(cfg, s, Iterate(r)).listening == s.listening
  {
    var e := Next(cfg, s, Iterate(r));
    if e.fired != s.fired {
      OtherSnoc(s.fired, e.fired[|s.fired|]);
    }
  }

  lemma EventStep(cfg: Config, s: Manager, id: string, st: TransferState, saveOk: bool, news: seq<Event>)
    requires TellsAll(cfg, Other(s.fired), news)
    ensures TellsAll(cfg, Other(Next(cfg, s, ServerEvent(id, st, saveOk)).fired),
                     news + if IsNews(id, st) && s.listening then [Event(id, st)] else [])
  {
    ServerEventEffect(cfg, s, id, st, saveOk);
    var fired := Next(cfg, s, ServerEvent(id, st, saveOk)).fired;
    if s.listening && IsNews(id, st) {
      assert fired == s.fired + [fired[|s.fired|]];
      OtherSnoc(s.fired, fired[|s.fired|]);
    }
  }

  lemma NewsStep(cfg: Config, s: Manager, a: Action, news: seq<Event>)
    requires Possible(s, a) && TellsAll(cfg, Other(s.fired), news)
    ensures TellsAll(cfg, Other(Next(cfg, s, a).fired),
                     news + if a.ServerEvent? && IsNews(a.id, a.st) && s.listening then [Event(a.id, a.st)] else [])
  {
    if a.Iterate? {
      IterationTellsFailuresOnly(cfg, s, a.replies);
    } else if a.ServerEvent? {
      EventStep(cfg, s, a.id, a.st, a.saveOk, news);
    } else {
      assert Next(cfg, s, a).fired == s.fired;
    }
  }

  /**
   Over any run, leaving failures aside, the listener is told exactly the news
   that came from the server while it listened, in order and each as it came.
   */
  lemma {:induction false} ListenerIsToldTheNews(cfg: Config, s: Manager, actions: seq<Action>)
    requires Schedule(cfg, s, actions) && s.fired == []
    ensures Run(cfg, s, actions).listening == Listening(s.listening, actions)
    ensures TellsAll(cfg, Other(Run(cfg, s, actions).fired), News(s.listening, actions))
  {
    if actions == [] {
    } else {
      var n := |actions| - 1;
      ListenerIsToldTheNews(cfg, s, actions[..n]);
      var m := Run(cfg, s, actions[..n]);
      NewsStep(cfg, m, actions[n], News(s.listening, actions[..n]));
      if actions[n].Iterate? {
        IterationTellsFailuresOnly(cfg, m, actions[n].replies);
      }
    }
  }

  // ----- expired tokens -----

  /** All outside calls of an iteration that are made before it writes have answered. */
  predicate Answered(r: Replies) { !r.get.LookupFailed? && (r.get.Active? ==> r.cancelOk) && r.readOk }

  /** The failure reported for an expired id: what the transfer last was, or else a blank one of this node. */
  ghost predicate IsFailureOf(cfg: Config, st: TransferState, id: string, get: Lookup) {
    && st.status == Failed
    && (get.Active? ==> st.id == get.st.id && st.localAddr == get.st.localAddr && st.remoteAddr == get.st.remoteAddr
                        && st.sent == get.st.sent && st.received == get.st.received && st.payloadCid == get.st.payloadCid)
    && (get.Active? && get.st.message != "" ==> st.message == get.st.message)
    && (!get.Active? ==> st.id == id && st.localAddr == cfg.localId && st.remoteAddr == "" && st.sent == 0 && st.received == 0)
    && (!get.Active? || get.st.message == "" ==> st.message == cfg.timeoutMessage)
  }

  lemma FailureIsReported(cfg: Config, id: string, get: Lookup)
    ensures IsFailureOf(cfg, ExpiredState(cfg, id, get), id, get)
    ensures Shows(cfg, ToDTState(cfg, ExpiredState(cfg, id, get)), ExpiredState(cfg, id, get))
  {
    TransferIsShown(cfg, ExpiredState(cfg, id, get));
  }

  /**
   An iteration for an id, told from its replies: without an answer it does
   nothing; a Completed record is left alone in silence; a Failed one is reported
   again; without a record, one is saved and reported, or if that fails nothing is.
   */
  lemma IterationEffect(cfg: Config, s: Manager, r: Replies)
    requires s.pending != [] && IsId(s.pending[0].id)
    ensures var id, e := s.pending[0].id, Next(cfg, s, Iterate(r));
            var recorded := "/" + id in s.store;
            var reports := Answered(r) && if recorded then s.store["/" + id].status != Completed else r.saveOk;
            && e.tokens == s.tokens && e.pending == s.pending[1..] && e.listening == s.listening
            && (!reports || recorded ==> e.store == s.store)
            && (reports && !recorded ==>
                "/" + id in e.store && e.store == s.store["/" + id := e.store["/" + id]]
                && IsFailureOf(cfg, e.store["/" + id], id, r.get))
            && (if reports && s.listening
                then |e.fired| == |s.fired| + 1 && s.fired <= e.fired
                     && exists st :: IsFailureOf(cfg, st, id, r.get) && Tells(cfg, e.fired[|s.fired|], id, st)
                else e.fired == s.fired)
  {
    var id := s.pending[0].id;
    IdKey(id);
    FailureIsReported(cfg, id, r.get);
  }

  // ----- tokens -----

  /** What a token stands for after some actions: the last one that is about it decides. */
  function TokenAfter(before: map<string, AuthValue>, actions: seq<Action>, token: string): Option<AuthValue> {
    if actions == [] then if token in before then Some(before[token]) else None
    else
      var front := actions[..|actions| - 1];
      match actions[|actions| - 1]
      case Prepare(dbid, t, proposalCid, payloadCid, size, ok) =>
        if t == token && ok then Some(AuthValue(Format(dbid), proposalCid, payloadCid, size)) else TokenAfter(before, front, token)
      case Cleanup(t, ok) => if t == token && ok then None else TokenAfter(before, front, token)
      case BeginPass(expired, _) => if token in expired then None else TokenAfter(before, front, token)
      case _ => TokenAfter(before, front, token)
  }

  function TokenIn(s: Manager, token: string): Option<AuthValue> {
    if token in s.tokens then Some(s.tokens[token]) else None
  }

  lemma EventsKeepTokens(cfg: Config, s: Manager, a: Action)
    requires Possible(s, a) && (a.ServerEvent? || a.Iterate? || a.SetListener?)
    ensures Next(cfg, s, a).tokens == s.tokens
  {
  }

  /** Over any run, the token table holds what was prepared and neither cleaned up nor expired since. */
  lemma {:induction false} TokensAreThosePrepared(cfg: Config, s: Manager, actions: seq<Action>, token: string)
    requires Schedule(cfg, s, actions)
    ensures var e := Run(cfg, s, actions);
            TokenIn(e, token) == TokenAfter(s.tokens, actions, token)
  {
    if actions == [] {
    } else {
      var front, a := actions[..|actions| - 1], actions[|actions| - 1];
      TokensAreThosePrepared(cfg, s, front, token);
      if a.ServerEvent? || a.Iterate? || a.SetListener? {
        EventsKeepTokens(cfg, Run(cfg, s, front), a);
      }
    }
  }

  /** A pass takes up exactly the tokens it deleted, in order; after an error of the deletion it takes up none. */
  lemma PassTakesUpExpired(cfg: Config, s: Manager, expired: seq<string>, ok: bool)
    requires Possible(s, BeginPass(expired, ok))
    ensures var e := Next(cfg, s, BeginPass(expired, ok));
            && e.fired == s.fired && e.store == s.store && e.listening == s.listening
            && |e.pending| == (if ok then |expired| else 0)
            && forall i :: 0 <= i < |e.pending| ==> e.pending[i] == s.tokens[expired[i]]
  {
  }
}
