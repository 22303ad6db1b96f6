/**
 The libp2p transfer manager with each server callback and each iteration of the
 expiry loop taken as one atomic step. No promise of the data transfer server is
 assumed here: its replies and events are arbitrary.
 */
module TransferManager {
  import opened Common
  import opened Decimal
  import opened ChannelIds
  import opened DatastoreKeys

  // ----- data -----

  /** Status of a libp2p transfer; `OtherStatus` stands for every other text. */
  datatype Status = Started | Ongoing | Completed | Failed | OtherStatus

  datatype TransferState = TransferState(
    id: string, localAddr: string, remoteAddr: string, status: Status,
    sent: nat, received: nat, message: string, payloadCid: string)

  datatype ChannelStatus = DtRequested | DtOngoing | DtCompleted | DtFailed | DtOther(code: nat)

  datatype TransferType = BoostTransfer | GraphsyncTransfer

  datatype ChannelState = ChannelState(
    selfPeer: PeerId, remotePeer: PeerId, status: ChannelStatus,
    sent: nat, received: nat, message: string, baseCid: string,
    channelId: ChannelId, transferId: string, transferType: TransferType)

  datatype AuthValue = AuthValue(id: string, proposalCid: string, payloadCid: string, size: nat)

  /** What one call of the listener is told. */
  datatype Notice = Notice(dbid: nat, state: ChannelState)

  /** Fixed surroundings of a manager. An undecodable peer id reads as "". */
  datatype Config = Config(decodePeer: string -> PeerId, localId: string, timeoutMessage: string)

  function ToChannelStatus(status: Status): ChannelStatus {
    match status
    case Started => DtRequested
    case Completed => DtCompleted
    case Failed => DtFailed
    case _ => DtOngoing
  }

  /** `toDTState`. */
  function ToDTState(cfg: Config, st: TransferState): ChannelState {
    var remote := if st.remoteAddr == "" then st.localAddr else st.remoteAddr;
    ChannelState(cfg.decodePeer(st.localAddr), cfg.decodePeer(remote), ToChannelStatus(st.status),
                 st.sent, st.received, st.message, st.payloadCid,
                 ChannelId(cfg.decodePeer(st.localAddr), cfg.decodePeer(remote), ParsedNumber(st.id)), st.id, BoostTransfer)
  }

  /** `pending` is the rest of the list the current pass is looping over. */
  datatype Manager = Manager(
    tokens: map<string, AuthValue>,
    store: map<string, TransferState>,
    pending: seq<AuthValue>,
    listening: bool,
    fired: seq<Notice>)

  // ----- steps -----

  datatype Lookup = Active(st: TransferState) | NoTransfer | LookupFailed

  /** Outcomes of the outside calls of one iteration. */
  datatype Replies = Replies(get: Lookup, cancelOk: bool, readOk: bool, saveOk: bool)

  datatype Action =
    | Prepare(dbid: nat, token: string, proposalCid: string, payloadCid: string, size: nat, ok: bool)
    | Cleanup(token: string, ok: bool)
    | ServerEvent(id: string, st: TransferState, saveOk: bool)
    | BeginPass(expired: seq<string>, ok: bool)
    | Iterate(replies: Replies)
    | SetListener(listening: bool)

  predicate Distinct(s: seq<string>) { forall i, j :: 0 <= i < j < |s| ==> s[i] != s[j] }

  predicate Possible(s: Manager, a: Action) {
    match a
    case Prepare(dbid, _, _, _, _, _) => dbid < UINT64_SIZE
    case BeginPass(expired, _) =>
      s.pending == [] && Distinct(expired) && forall t :: t in expired ==> t in s.tokens
    case Iterate(_) => s.pending != []
    case _ => true
  }

  function Notify(s: Manager, dbid: nat, state: ChannelState): Manager {
    if s.listening then s.(fired := s.fired + [Notice(dbid, state)]) else s
  }

  /** The callback given to the server. */
  function OnEvent(cfg: Config, s: Manager, id: string, st: TransferState, saveOk: bool): Manager {
    match ParseUint(id)
    case None => s
    case Some(dbid) =>
      if st.status == Failed then s
      else
        var s1 := if st.status == Completed && saveOk then s.(store := s.store[NewKey(id) := st]) else s;
        Notify(s1, dbid, ToDTState(cfg, st))
  }

  /** The state reported for an expired transfer. */
  function ExpiredState(cfg: Config, id: string, get: Lookup): TransferState {
    var st := if get.Active? then get.st else TransferState(id, cfg.localId, "", OtherStatus, 0, 0, "", "");
    st.(status := Failed, message := if st.message == "" then cfg.timeoutMessage else st.message)
  }

  /** One iteration of the loop over the expired tokens. */
  function Expire(cfg: Config, s: Manager, id: string, r: Replies): Manager {
    if r.get.LookupFailed? || (r.get.Active? && !r.cancelOk) || !r.readOk then s
    else
      var key := NewKey(id);
      if key in s.store && s.store[key].status == Completed then s
      else
        match ParseUint(id)
        case None => s
        case Some(dbid) =>
          var st := ExpiredState(cfg, id, r.get);
          if key in s.store then Notify(s, dbid, ToDTState(cfg, st))
          else if r.saveOk then Notify(s.(store := s.store[key := st]), dbid, ToDTState(cfg, st))
          else s
  }

  function Values(tokens: map<string, AuthValue>, expired: seq<string>): seq<AuthValue>
    requires forall t :: t in expired ==> t in tokens
  {
    seq(|expired|, i requires 0 <= i < |expired| => tokens[expired[i]])
  }

  function Elements(s: seq<string>): set<string> { set t | t in s }

  function Next(cfg: Config, s: Manager, a: Action): Manager
    requires Possible(s, a)
  {
    match a
    case Prepare(dbid, token, proposalCid, payloadCid, size, ok) =>
      if ok then s.(tokens := s.tokens[token := AuthValue(Format(dbid), proposalCid, payloadCid, size)]) else s
    case Cleanup(token, ok) => if ok then s.(tokens := s.tokens - {token}) else s
    case ServerEvent(id, st, saveOk) => OnEvent(cfg, s, id, st, saveOk)
    case BeginPass(expired, ok) =>
      // on an error the deleted tokens are gone, but the pass does not look at them
      s.(tokens := s.tokens - Elements(expired), pending := if ok then Values(s.tokens, expired) else [])
    case Iterate(r) => Expire(cfg, s, s.pending[0].id, r).(pending := s.pending[1..])
    case SetListener(b) => s.(listening := b)
  }

  ghost predicate Schedule(cfg: Config, s: Manager, actions: seq<Action>)
    decreases |actions|, 0
  {
    actions != [] ==>
      var n := |actions| - 1;
      Schedule(cfg, s, actions[..n]) && Possible(Run(cfg, s, actions[..n]), actions[n])
  }

  ghost function Run(cfg: Config, s: Manager, actions: seq<Action>): Manager
    requires Schedule(cfg, s, actions)
    decreases |actions|, 1
  {
    if actions == [] then s
    else Next(cfg, Run(cfg, s, actions[..|actions| - 1]), actions[|actions| - 1])
  }

  lemma Extend(cfg: Config, s: Manager, actions: seq<Action>, a: Action)
    requires Schedule(cfg, s, actions) && Possible(Run(cfg, s, actions), a)
    ensures Schedule(cfg, s, actions + [a])
    ensures Run(cfg, s, actions + [a]) == Next(cfg, Run(cfg, s, actions), a)
  {
    assert (actions + [a])[..|actions|] == actions;
  }

  // ----- invariant of the tables -----

  /** Ids as `%d` prints them. */
  predicate IsId(id: string) { ParseUint(id).Some? && NoLeadingZero(id) }

  ghost predicate Valid(s: Manager) {
    && (forall t :: t in s.tokens ==> IsId(s.tokens[t].id))
    && (forall i :: 0 <= i < |s.pending| ==> IsId(s.pending[i].id))
    && (forall k :: k in s.store ==> IsRecordKey(k) && s.store[k].status in {Failed, Completed})
  }

  lemma EventValid(cfg: Config, s: Manager, id: string, st: TransferState, saveOk: bool)
    requires Valid(s)
    ensures Valid(OnEvent(cfg, s, id, st, saveOk))
  {
    if ParseUint(id).Some? {
      IdKey(id);
    }
  }

  lemma ExpireValid(cfg: Config, s: Manager, id: string, r: Replies)
    requires Valid(s) && IsId(id)
    ensures Valid(Expire(cfg, s, id, r)) && Expire(cfg, s, id, r).pending == s.pending
  {
    IdKey(id);
  }

  lemma NextValid(cfg: Config, s: Manager, a: Action)
    requires Valid(s) && Possible(s, a)
    ensures Valid(Next(cfg, s, a))
  {
    match a {
      case Prepare(dbid, _, _, _, _, _) =>
        ParseFormat(dbid);
        FormatValue(dbid);
      case ServerEvent(id, st, saveOk) => EventValid(cfg, s, id, st, saveOk);
      case Iterate(r) => ExpireValid(cfg, s, s.pending[0].id, r);
      case _ =>
    }
  }

  /** Every persisted key parses as a database id, every record is Failed or Completed. */
  lemma {:induction false} RunValid(cfg: Config, s: Manager, actions: seq<Action>)
    requires Valid(s) && Schedule(cfg, s, actions)
    ensures Valid(Run(cfg, s, actions))
  {
    if actions == [] {
    } else {
      var n := |actions| - 1;
      RunValid(cfg, s, actions[..n]);
      NextValid(cfg, Run(cfg, s, actions[..n]), actions[n]);
    }
  }

  // ----- records only move forward -----

  /** none = 0, Failed = 1, Completed = 2. */
  function Rank(store: map<string, TransferState>, key: string): nat {
    if key !in store then 0 else if store[key].status == Completed then 2 else 1
  }

  lemma NextMovesForward(cfg: Config, s: Manager, a: Action, key: string)
    requires Possible(s, a)
    ensures Rank(s.store, key) <= Rank(Next(cfg, s, a).store, key)
  {
  }

  /** Over any run a record moves from none to Failed to Completed, and Completed is never left. */
  lemma {:induction false} RecordsMoveForward(cfg: Config, s: Manager, actions: seq<Action>, key: string)
    requires Schedule(cfg, s, actions)
    ensures Rank(s.store, key) <= Rank(Run(cfg, s, actions).store, key)
  {
    if actions == [] {
    } else {
      var n := |actions| - 1;
      RecordsMoveForward(cfg, s, actions[..n], key);
      NextMovesForward(cfg, Run(cfg, s, actions[..n]), actions[n], key);
    }
  }

  // ----- Failed events are paid for by expired tokens -----

  function FailedFired(fired: seq<Notice>, dbid: nat): nat {
    if fired == [] then 0
    else
      var last := fired[|fired| - 1];
      FailedFired(fired[..|fired| - 1], dbid) + if last.dbid == dbid && last.state.status == DtFailed then 1 else 0
  }

  predicate Names(v: AuthValue, dbid: nat) { ParseUint(v.id) == Some(dbid) }

  function PendingFor(pending: seq<AuthValue>, dbid: nat): nat {
    if pending == [] then 0 else (if Names(pending[0], dbid) then 1 else 0) + PendingFor(pending[1..], dbid)
  }

  function TokensFor(tokens: map<string, AuthValue>, dbid: nat): set<string> {
    set t | t in tokens && Names(tokens[t], dbid)
  }

  /** Failed events that may still come: live tokens and tokens the current pass has yet to look at. */
  function Potential(s: Manager, dbid: nat): nat {
    |TokensFor(s.tokens, dbid)| + PendingFor(s.pending, dbid)
  }

  function Prepares(actions: seq<Action>, dbid: nat): nat {
    if actions == [] then 0
    else
      var last := actions[|actions| - 1];
      Prepares(actions[..|actions| - 1], dbid) + if last.Prepare? && last.ok && last.dbid == dbid then 1 else 0
  }

  lemma Appended(fired: seq<Notice>, n: Notice, dbid: nat)
    ensures FailedFired(fired + [n], dbid)
         == FailedFired(fired, dbid) + if n.dbid == dbid && n.state.status == DtFailed then 1 else 0
  {
    assert (fired + [n])[..|fired|] == fired;
  }

  lemma {:induction false} PendingSnoc(pending: seq<AuthValue>, v: AuthValue, dbid: nat)
    ensures PendingFor(pending + [v], dbid) == PendingFor(pending, dbid) + if Names(v, dbid) then 1 else 0
  {
    if pending == [] {
    } else {
      assert (pending + [v])[1..] == pending[1..] + [v];
      PendingSnoc(pending[1..], v, dbid);
    }
  }

  lemma OneTokenLess(tokens: map<string, AuthValue>, t: string, dbid: nat)
    requires t in tokens
    ensures |TokensFor(tokens - {t}, dbid)| + (if Names(tokens[t], dbid) then 1 else 0) == |TokensFor(tokens, dbid)|
  {
    var before, after := TokensFor(tokens, dbid), TokensFor(tokens - {t}, dbid);
    assert after == before - {t};
    assert t in before <==> Names(tokens[t], dbid);
    if t !in before {
      assert before - {t} == before;
    }
  }

  lemma ElementsSnoc(front: seq<string>, t: string)
    ensures Elements(front + [t]) == Elements(front) + {t}
  {
  }

  /** Deleting expired tokens moves them from the table to the list, one for one. */
  lemma {:induction false} DeletionMovesTokens(tokens: map<string, AuthValue>, expired: seq<string>, dbid: nat)
    requires Distinct(expired) && forall t :: t in expired ==> t in tokens
    ensures |TokensFor(tokens - Elements(expired), dbid)| + PendingFor(Values(tokens, expired), dbid)
         == |TokensFor(tokens, dbid)|
  {
    if expired == [] {
      assert tokens - Elements(expired) == tokens;
    } else {
      var n := |expired| - 1;
      var front, t := expired[..n], expired[n];
      assert expired == front + [t];
      DeletionMovesTokens(tokens, front, dbid);
      assert Values(tokens, expired) == Values(tokens, front) + [tokens[t]];
      PendingSnoc(Values(tokens, front), tokens[t], dbid);
      ElementsSnoc(front, t);
      OneTokenLess(tokens - Elements(front), t, dbid);
      assert tokens - Elements(expired) == tokens - Elements(front) - {t};
    }
  }

  lemma {:induction false} SubsetSize<T>(small: set<T>, large: set<T>)
    requires small <= large
    ensures |small| <= |large|
  {
    if small == {} {
    } else {
      var x :| x in small;
      SubsetSize(small - {x}, large - {x});
    }
  }

  lemma RemovedTokens(tokens: map<string, AuthValue>, gone: set<string>, dbid: nat)
    ensures |TokensFor(tokens - gone, dbid)| <= |TokensFor(tokens, dbid)|
  {
    SubsetSize(TokensFor(tokens - gone, dbid), TokensFor(tokens, dbid));
  }

  lemma PrepareConserves(cfg: Config, s: Manager, a: Action, dbid: nat)
    requires Possible(s, a) && a.Prepare?
    ensures |TokensFor(Next(cfg, s, a).tokens, dbid)| <= |TokensFor(s.tokens, dbid)| + Prepares([a], dbid)
  {
    assert [a][..0] == [];
    ParseFormat(a.dbid);
    var before, after := TokensFor(s.tokens, dbid), TokensFor(Next(cfg, s, a).tokens, dbid);
    if a.ok && a.dbid == dbid {
      SubsetSize(after, before + {a.token});
    } else {
      SubsetSize(after, before);
    }
  }

  /** A step fires at most one event: never Failed for a server event, for the id taken in an iteration. */
  lemma FiresAtMostOne(cfg: Config, s: Manager, a: Action)
    requires Possible(s, a)
    ensures var s' := Next(cfg, s, a);
            s'.fired == s.fired
            || (|s'.fired| == |s.fired| + 1 && s'.fired == s.fired + [s'.fired[|s.fired|]]
                && (s'.fired[|s.fired|].state.status == DtFailed ==>
                    a.Iterate? && Names(s.pending[0], s'.fired[|s.fired|].dbid)))
  {
  }

  lemma FiredByStep(cfg: Config, s: Manager, a: Action, dbid: nat)
    requires Possible(s, a)
    ensures FailedFired(s.fired, dbid) <= FailedFired(Next(cfg, s, a).fired, dbid)
         <= FailedFired(s.fired, dbid) + if a.Iterate? && Names(s.pending[0], dbid) then 1 else 0
  {
    FiresAtMostOne(cfg, s, a);
    var fired := Next(cfg, s, a).fired;
    if fired != s.fired {
      Appended(s.fired, fired[|s.fired|], dbid);
    }
  }

  lemma NextConserves(cfg: Config, s: Manager, a: Action, dbid: nat)
    requires Possible(s, a)
    ensures FailedFired(Next(cfg, s, a).fired, dbid) + Potential(Next(cfg, s, a), dbid)
         <= FailedFired(s.fired, dbid) + Potential(s, dbid) + Prepares([a], dbid)
  {
    FiredByStep(cfg, s, a, dbid);
    if a.Prepare? {
      PrepareConserves(cfg, s, a, dbid);
    } else if a.Cleanup? {
      RemovedTokens(s.tokens, {a.token}, dbid);
    } else if a.BeginPass? {
      DeletionMovesTokens(s.tokens, a.expired, dbid);
    }
  }

  /**
   Over any run, Failed events for an id are bounded by the tokens that could
   expire: those live or pending at the start and those prepared during the run.
   Server events, failed ones included, add nothing to the account.
   */
  lemma {:induction false} FailedEventsAreBounded(cfg: Config, s: Manager, actions: seq<Action>, dbid: nat)
    requires Schedule(cfg, s, actions)
    ensures FailedFired(Run(cfg, s, actions).fired, dbid) + Potential(Run(cfg, s, actions), dbid)
         <= FailedFired(s.fired, dbid) + Potential(s, dbid) + Prepares(actions, dbid)
  {
    if actions == [] {
    } else {
      var n := |actions| - 1;
      FailedEventsAreBounded(cfg, s, actions[..n], dbid);
      NextConserves(cfg, Run(cfg, s, actions[..n]), actions[n], dbid);
      assert Prepares([actions[n]], dbid) == Prepares([actions[n]][..0], dbid) + Prepares(actions, dbid) - Prepares(actions[..n], dbid);
    }
  }

  // ----- what one pass does, and what silences an id -----

  function RecordKey(dbid: nat): string { "/" + Format(dbid) }

  /** Any id that names `dbid` as `%d` prints it has the record key of `dbid`. */
  lemma KeyOfNamed(id: string, dbid: nat)
    requires IsId(id) && ParseUint(id) == Some(dbid)
    ensures id == Format(dbid) && NewKey(id) == RecordKey(dbid)
  {
    FormatParse(id);
    IdKey(id);
  }

  lemma NextSilent(cfg: Config, s: Manager, a: Action, dbid: nat)
    requires Valid(s) && Possible(s, a) && Rank(s.store, RecordKey(dbid)) == 2
    ensures FailedFired(Next(cfg, s, a).fired, dbid) == FailedFired(s.fired, dbid)
  {
    FiredByStep(cfg, s, a, dbid);
    if a.Iterate? && Names(s.pending[0], dbid) {
      KeyOfNamed(s.pending[0].id, dbid);
      assert Next(cfg, s, a).fired == s.fired;
    }
  }

  /** Once a Completed record is persisted under an id as it is printed, no Failed event is ever fired for that id. */
  lemma {:induction false} CompletedSilences(cfg: Config, s: Manager, actions: seq<Action>, dbid: nat)
    requires Valid(s) && Schedule(cfg, s, actions) && Rank(s.store, RecordKey(dbid)) == 2
    ensures FailedFired(Run(cfg, s, actions).fired, dbid) == FailedFired(s.fired, dbid)
  {
    if actions == [] {
    } else {
      var n := |actions| - 1;
      CompletedSilences(cfg, s, actions[..n], dbid);
      RunValid(cfg, s, actions[..n]);
      RecordsMoveForward(cfg, s, actions[..n], RecordKey(dbid));
      NextSilent(cfg, Run(cfg, s, actions[..n]), actions[n], dbid);
    }
  }

  /** No outside call of the iteration fails. */
  predicate Clean(r: Replies) {
    !r.get.LookupFailed? && (r.get.Active? ==> r.cancelOk) && r.readOk && r.saveOk
  }

  /** An iteration without errors leaves a record, and reports Failed unless that record is Completed. */
  lemma CleanExpire(cfg: Config, s: Manager, id: string, r: Replies)
    requires IsId(id) && s.listening && Clean(r)
    ensures var n := ParseUint(id).value; var s' := Expire(cfg, s, id, r);
            && RecordKey(n) in s'.store
            && (Rank(s.store, RecordKey(n)) == 2 ==> s' == s)
            && (Rank(s.store, RecordKey(n)) < 2 ==>
                && Rank(s'.store, RecordKey(n)) == 1
                && (forall k :: k != RecordKey(n) ==> Rank(s'.store, k) == Rank(s.store, k))
                && |s'.fired| == |s.fired| + 1
                && s'.fired == s.fired + [s'.fired[|s.fired|]]
                && s'.fired[|s.fired|].dbid == n
                && s'.fired[|s.fired|].state.status == DtFailed)
  {
    KeyOfNamed(id, ParseUint(id).value);
  }

  lemma RecordKeyInjective(m: nat, n: nat)
    ensures RecordKey(m) == RecordKey(n) <==> m == n
  {
    FormatInjective(m, n);
    assert RecordKey(m)[1..] == Format(m) && RecordKey(n)[1..] == Format(n);
  }

  lemma CleanIteration(cfg: Config, s: Manager, r: Replies, dbid: nat)
    requires Valid(s) && s.pending != [] && s.listening && Clean(r)
    ensures var s' := Next(cfg, s, Iterate(r));
            && (Rank(s'.store, RecordKey(dbid)) == 2 <==> Rank(s.store, RecordKey(dbid)) == 2)
            && (Names(s.pending[0], dbid) ==> RecordKey(dbid) in s'.store)
            && (Rank(s.store, RecordKey(dbid)) < 2 ==>
                FailedFired(s'.fired, dbid) == FailedFired(s.fired, dbid) + if Names(s.pending[0], dbid) then 1 else 0)
  {
    var id := s.pending[0].id;
    var n := ParseUint(id).value;
    var s' := Expire(cfg, s, id, r);
    CleanExpire(cfg, s, id, r);
    RecordKeyInjective(n, dbid);
    if Rank(s.store, RecordKey(n)) < 2 {
      Appended(s.fired, s'.fired[|s.fired|], dbid);
    }
  }

  function Iterations(replies: seq<Replies>): (r: seq<Action>)
    ensures |r| == |replies|
  {
    seq(|replies|, i requires 0 <= i < |replies| => Iterate(replies[i]))
  }

  lemma IterationsSnoc(replies: seq<Replies>)
    requires replies != []
    ensures Iterations(replies) == Iterations(replies[..|replies| - 1]) + [Iterate(replies[|replies| - 1])]
  {
  }

  /** The first iterations of a pass consume that many pending tokens. */
  lemma {:induction false} IterationsRun(cfg: Config, s: Manager, replies: seq<Replies>)
    requires |replies| <= |s.pending|
    ensures Schedule(cfg, s, Iterations(replies))
    ensures var e := Run(cfg, s, Iterations(replies));
            e.pending == s.pending[|replies|..] && e.listening == s.listening && e.tokens == s.tokens
  {
    if replies == [] {
    } else {
      var n := |replies| - 1;
      IterationsRun(cfg, s, replies[..n]);
      IterationsSnoc(replies);
      Extend(cfg, s, Iterations(replies[..n]), Iterate(replies[n]));
      assert s.pending[n..][1..] == s.pending[n + 1..];
    }
  }

  lemma IterationsExtend(cfg: Config, s: Manager, front: seq<Replies>, r: Replies)
    requires |front| < |s.pending| && Schedule(cfg, s, Iterations(front))
    requires Run(cfg, s, Iterations(front)).pending == s.pending[|front|..]
    ensures Schedule(cfg, s, Iterations(front + [r]))
    ensures Run(cfg, s, Iterations(front + [r])) == Next(cfg, Run(cfg, s, Iterations(front)), Iterate(r))
  {
    assert Iterations(front + [r]) == Iterations(front) + [Iterate(r)];
    Extend(cfg, s, Iterations(front), Iterate(r));
  }

  /** What the first iterations of a pass without errors did about one id. */
  ghost predicate Settled(s: Manager, e: Manager, n: nat, dbid: nat)
    requires n <= |s.pending|
  {
    && (Rank(e.store, RecordKey(dbid)) == 2 <==> Rank(s.store, RecordKey(dbid)) == 2)
    && (PendingFor(s.pending[..n], dbid) > 0 ==> RecordKey(dbid) in e.store)
    && (Rank(s.store, RecordKey(dbid)) < 2 ==>
        FailedFired(e.fired, dbid) == FailedFired(s.fired, dbid) + PendingFor(s.pending[..n], dbid))
  }

  lemma SettledStep(cfg: Config, s: Manager, m: Manager, r: Replies, n: nat, dbid: nat)
    requires n < |s.pending| && Settled(s, m, n, dbid)
    requires Valid(m) && m.listening && m.pending == s.pending[n..] && Clean(r)
    ensures Settled(s, Next(cfg, m, Iterate(r)), n + 1, dbid)
  {
    CleanIteration(cfg, m, r, dbid);
    NextMovesForward(cfg, m, Iterate(r), RecordKey(dbid));
    assert s.pending[..n + 1] == s.pending[..n] + [s.pending[n]];
    PendingSnoc(s.pending[..n], s.pending[n], dbid);
  }

  ghost predicate IterationsSettle(cfg: Config, s: Manager, replies: seq<Replies>, dbid: nat)
    requires |replies| <= |s.pending|
  {
    Schedule(cfg, s, Iterations(replies)) && Settled(s, Run(cfg, s, Iterations(replies)), |replies|, dbid)
  }

  /** One more iteration after those of `front`. */
  lemma CleanIterationsSnoc(cfg: Config, s: Manager, front: seq<Replies>, r: Replies, dbid: nat)
    requires Valid(s) && s.listening && |front| < |s.pending| && Clean(r)
    requires IterationsSettle(cfg, s, front, dbid)
    ensures IterationsSettle(cfg, s, front + [r], dbid)
  {
    var m := Run(cfg, s, Iterations(front));
    IterationsRun(cfg, s, front);
    RunValid(cfg, s, Iterations(front));
    IterationsExtend(cfg, s, front, r);
    SettledStep(cfg, s, m, r, |front|, dbid);
  }

  lemma {:induction false} CleanIterations(cfg: Config, s: Manager, replies: seq<Replies>, dbid: nat)
    requires Valid(s) && s.listening && |replies| <= |s.pending|
    requires forall r :: r in replies ==> Clean(r)
    ensures IterationsSettle(cfg, s, replies, dbid)
  {
    if replies == [] {
      IterationsRun(cfg, s, replies);
    } else {
      var front, last := replies[..|replies| - 1], replies[|replies| - 1];
      assert front + [last] == replies;
      CleanIterations(cfg, s, front, dbid);
      CleanIterationsSnoc(cfg, s, front, last, dbid);
    }
  }

  function PassActions(expired: seq<string>, deleteOk: bool, replies: seq<Replies>): seq<Action> {
    [BeginPass(expired, deleteOk)] + if deleteOk then Iterations(replies) else []
  }

  /** A run continues from the state reached by its first part. */
  lemma {:induction false} RunSplits(cfg: Config, s: Manager, first: seq<Action>, second: seq<Action>)
    requires Schedule(cfg, s, first) && Schedule(cfg, Run(cfg, s, first), second)
    ensures Schedule(cfg, s, first + second)
    ensures Run(cfg, s, first + second) == Run(cfg, Run(cfg, s, first), second)
  {
    if second == [] {
      assert first + second == first;
    } else {
      var n := |second| - 1;
      RunSplits(cfg, s, first, second[..n]);
      Extend(cfg, s, first + second[..n], second[n]);
      assert first + second == first + second[..n] + [second[n]];
    }
  }

  /** A pass one iteration longer. */
  lemma PassSnoc(cfg: Config, s: Manager, expired: seq<string>, replies: seq<Replies>, i: nat)
    requires i < |replies| && Schedule(cfg, s, PassActions(expired, true, replies[..i]))
    requires Run(cfg, s, PassActions(expired, true, replies[..i])).pending != []
    ensures Schedule(cfg, s, PassActions(expired, true, replies[..i + 1]))
    ensures Run(cfg, s, PassActions(expired, true, replies[..i + 1]))
         == Next(cfg, Run(cfg, s, PassActions(expired, true, replies[..i])), Iterate(replies[i]))
  {
    assert replies[..i + 1][..i] == replies[..i];
    IterationsSnoc(replies[..i + 1]);
    var actions := PassActions(expired, true, replies[..i]);
    assert PassActions(expired, true, replies[..i + 1]) == actions + [Iterate(replies[i])];
    Extend(cfg, s, actions, Iterate(replies[i]));
  }

  lemma PassIsPossible(cfg: Config, s: Manager, expired: seq<string>, replies: seq<Replies>)
    requires Possible(s, BeginPass(expired, true)) && |replies| == |expired|
    ensures Schedule(cfg, s, PassActions(expired, true, replies))
    ensures var b := Next(cfg, s, BeginPass(expired, true));
            && Schedule(cfg, b, Iterations(replies))
            && Run(cfg, s, PassActions(expired, true, replies)) == Run(cfg, b, Iterations(replies))
  {
    var b := BeginPass(expired, true);
    assert [] + [b] == [b];
    Extend(cfg, s, [], b);
    IterationsRun(cfg, Next(cfg, s, b), replies);
    RunSplits(cfg, s, [b], Iterations(replies));
  }

  /**
   A pass in which no outside call fails settles every expired id: afterwards it
   has a record, and it was reported Failed once per expired token unless its
   record was already Completed, in which case it was not reported at all.
   */
  lemma PassSettles(cfg: Config, s: Manager, expired: seq<string>, replies: seq<Replies>, dbid: nat)
    requires Valid(s) && s.listening && Possible(s, BeginPass(expired, true))
    requires |replies| == |expired| && forall r :: r in replies ==> Clean(r)
    ensures Schedule(cfg, s, PassActions(expired, true, replies))
    ensures var e := Run(cfg, s, PassActions(expired, true, replies));
            && e.pending == []
            && e.tokens == s.tokens - Elements(expired)
            && (PendingFor(Values(s.tokens, expired), dbid) > 0 ==> RecordKey(dbid) in e.store)
            && FailedFired(e.fired, dbid) == FailedFired(s.fired, dbid)
               + if Rank(s.store, RecordKey(dbid)) == 2 then 0 else PendingFor(Values(s.tokens, expired), dbid)
  {
    PassIsPossible(cfg, s, expired, replies);
    var b := Next(cfg, s, BeginPass(expired, true));
    NextValid(cfg, s, BeginPass(expired, true));
    IterationsRun(cfg, b, replies);
    CleanIterations(cfg, b, replies, dbid);
    assert b.pending[..|replies|] == b.pending;
    if Rank(s.store, RecordKey(dbid)) == 2 {
      CompletedSilences(cfg, b, Iterations(replies), dbid);
    }
  }

  const CLEAN := Replies(NoTransfer, true, true, true)

  predicate NoPrepare(actions: seq<Action>) {
    forall i :: 0 <= i < |actions| ==> !actions[i].Prepare?
  }

  lemma {:induction false} WithoutPrepare(actions: seq<Action>, dbid: nat)
    requires NoPrepare(actions)
    ensures Prepares(actions, dbid) == 0
  {
    if actions == [] {
    } else {
      WithoutPrepare(actions[..|actions| - 1], dbid);
    }
  }

  /** Some continuation without a new prepare fires a Failed event for `dbid`. */
  ghost predicate FailureAhead(cfg: Config, s: Manager, dbid: nat) {
    exists actions :: Schedule(cfg, s, actions) && Prepares(actions, dbid) == 0
      && FailedFired(Run(cfg, s, actions).fired, dbid) > FailedFired(s.fired, dbid)
  }

  /** `e` is `s` with a listener and the pass in progress run to its end without errors. */
  ghost predicate PassFinished(s: Manager, e: Manager, dbid: nat) {
    && e.pending == [] && e.tokens == s.tokens && e.listening && Valid(e)
    && (Rank(s.store, RecordKey(dbid)) < 2 ==>
        && Rank(e.store, RecordKey(dbid)) < 2
        && FailedFired(e.fired, dbid) == FailedFired(s.fired, dbid) + PendingFor(s.pending, dbid))
  }

  lemma FinishHeardPass(cfg: Config, s: Manager, dbid: nat) returns (actions: seq<Action>)
    requires Valid(s) && s.listening
    ensures Schedule(cfg, s, actions) && NoPrepare(actions)
    ensures PassFinished(s, Run(cfg, s, actions), dbid)
  {
    var replies := seq(|s.pending|, i => CLEAN);
    IterationsRun(cfg, s, replies);
    CleanIterations(cfg, s, replies, dbid);
    assert s.pending[..|replies|] == s.pending;
    actions := Iterations(replies);
    RunValid(cfg, s, actions);
  }

  lemma FinishPass(cfg: Config, s: Manager, dbid: nat) returns (actions: seq<Action>)
    requires Valid(s)
    ensures Schedule(cfg, s, actions) && NoPrepare(actions)
    ensures PassFinished(s, Run(cfg, s, actions), dbid)
  {
    var listen := SetListener(true);
    Extend(cfg, s, [], listen);
    assert [] + [listen] == [listen];
    var rest := FinishHeardPass(cfg, Next(cfg, s, listen), dbid);
    RunSplits(cfg, s, [listen], rest);
    actions := [listen] + rest;
  }

  lemma FailureFromToken(cfg: Config, s: Manager, dbid: nat)
    requires Valid(s) && s.pending == [] && s.listening
    requires TokensFor(s.tokens, dbid) != {} && Rank(s.store, RecordKey(dbid)) < 2
    ensures exists actions :: Schedule(cfg, s, actions) && NoPrepare(actions)
              && FailedFired(Run(cfg, s, actions).fired, dbid) > FailedFired(s.fired, dbid)
  {
    var t :| t in TokensFor(s.tokens, dbid);
    PassSettles(cfg, s, [t], [CLEAN], dbid);
    assert Values(s.tokens, [t]) == [s.tokens[t]];
    PendingSnoc([], s.tokens[t], dbid);
    assert [] + [s.tokens[t]] == [s.tokens[t]];
    assert NoPrepare(PassActions([t], true, [CLEAN]));
  }

  lemma FailureFromPotential(cfg: Config, s: Manager, dbid: nat)
    requires Valid(s) && Potential(s, dbid) > 0 && Rank(s.store, RecordKey(dbid)) < 2
    ensures FailureAhead(cfg, s, dbid)
  {
    var first := FinishPass(cfg, s, dbid);
    var e := Run(cfg, s, first);
    if PendingFor(s.pending, dbid) > 0 {
      WithoutPrepare(first, dbid);
    } else {
      FailureFromToken(cfg, e, dbid);
      var second :| Schedule(cfg, e, second) && NoPrepare(second)
        && FailedFired(Run(cfg, e, second).fired, dbid) > FailedFired(e.fired, dbid);
      RunSplits(cfg, s, first, second);
      WithoutPrepare(first + second, dbid);
    }
  }

  /**
   Exactly when a Failed event can still come for an id that is not prepared
   again: some token for it is live or pending, and its record is not Completed.
   */
  lemma WhenFailureIsAhead(cfg: Config, s: Manager, dbid: nat)
    requires Valid(s)
    ensures FailureAhead(cfg, s, dbid) <==> Potential(s, dbid) > 0 && Rank(s.store, RecordKey(dbid)) < 2
  {
    if FailureAhead(cfg, s, dbid) {
      var actions :| Schedule(cfg, s, actions) && Prepares(actions, dbid) == 0
        && FailedFired(Run(cfg, s, actions).fired, dbid) > FailedFired(s.fired, dbid);
      FailedEventsAreBounded(cfg, s, actions, dbid);
      if Rank(s.store, RecordKey(dbid)) == 2 {
        CompletedSilences(cfg, s, actions, dbid);
      }
    } else if Potential(s, dbid) > 0 && Rank(s.store, RecordKey(dbid)) < 2 {
      FailureFromPotential(cfg, s, dbid);
    }
  }

  /**
   A Completed event is persisted under the text of its id, not under the number.
   So it silences an id that would otherwise still be reported Failed exactly when
   the text has no leading zero.
   */
  lemma CompletedEventSilences(cfg: Config, s: Manager, id: string, st: TransferState, dbid: nat)
    requires Valid(s) && ParseUint(id) == Some(dbid) && st.status == Completed
    requires FailureAhead(cfg, s, dbid)
    ensures FailureAhead(cfg, Next(cfg, s, ServerEvent(id, st, true)), dbid) <==> !NoLeadingZero(id)
  {
    var e := Next(cfg, s, ServerEvent(id, st, true));
    NextValid(cfg, s, ServerEvent(id, st, true));
    WhenFailureIsAhead(cfg, s, dbid);
    WhenFailureIsAhead(cfg, e, dbid);
    IdKey(id);
    FormatParse(id);
    assert RecordKey(dbid) == NewKey(id) <==> Format(dbid) == id by {
      assert RecordKey(dbid)[1..] == Format(dbid) && NewKey(id)[1..] == id;
    }
  }

  /**
   A cleanup that deletes the only token of an id silences it until it is
   prepared again, except when a pass has already taken a token for it: then the
   Failed event still comes unless the record is Completed.
   */
  lemma CleanupSilences(cfg: Config, s: Manager, dbid: nat, token: string)
    requires Valid(s) && TokensFor(s.tokens, dbid) <= {token}
    ensures FailureAhead(cfg, Next(cfg, s, Cleanup(token, true)), dbid)
            <==> PendingFor(s.pending, dbid) > 0 && Rank(s.store, RecordKey(dbid)) < 2
  {
    var s' := Next(cfg, s, Cleanup(token, true));
    NextValid(cfg, s, Cleanup(token, true));
    WhenFailureIsAhead(cfg, s', dbid);
    assert TokensFor(s'.tokens, dbid) == {};
  }
}
