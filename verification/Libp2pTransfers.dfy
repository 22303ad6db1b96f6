/**
 The transfer manager as the object it is: a token table, a persistent store and
 one listener, changed by its methods. Each method is proved to do exactly the
 atomic steps of module `TransferManager`. The lookups that combine the server's
 active transfers with the store are here too.
 */
module Libp2pTransfers {
  import opened Common
  import opened Decimal
  import opened DatastoreKeys
  import opened TransferManager
  import opened ManagerEffects

  datatype CancelReply = Canceled | NothingToCancel | CancelFailed

  datatype CleanupResult = CleanedUp | DeleteError | CancelError

  /** Faults of the outside calls made while listing. */
  datatype ListFaults = ListFaults(matching: bool, query: bool, unreadable: set<string>)

  lemma PassBegins(cfg: Config, s: Manager, expired: seq<string>, deleteOk: bool)
    requires Possible(s, BeginPass(expired, deleteOk))
    ensures Schedule(cfg, s, PassActions(expired, deleteOk, []))
    ensures Run(cfg, s, PassActions(expired, deleteOk, [])) == Next(cfg, s, BeginPass(expired, deleteOk))
    ensures forall replies :: !deleteOk ==> PassActions(expired, deleteOk, replies) == PassActions(expired, deleteOk, [])
  {
    var begin := BeginPass(expired, deleteOk);
    assert [] + [begin] == [begin];
    assert PassActions(expired, deleteOk, []) == [begin];
    Extend(cfg, s, [], begin);
  }

  /** An iteration seen from the object, whose view leaves out the list the loop runs over. */
  lemma IterateOnView(cfg: Config, view: Manager, values: seq<AuthValue>, i: nat, r: Replies)
    requires i < |values|
    ensures Next(cfg, view.(pending := values[i..]), Iterate(r))
         == Expire(cfg, view, values[i].id, r).(pending := values[i + 1..])
  {
    assert values[i..][0] == values[i] && values[i..][1..] == values[i + 1..];
  }

  /** The ids of a listing, and where each entry comes from; a persisted record hides an active transfer. */
  ghost predicate IsListing(cfg: Config, active: map<string, TransferState>, store: map<string, TransferState>,
                            all: map<string, ChannelState>)
  {
    && (forall id :: id in all <==> id in active || "/" + id in store)
    && (forall id :: id in all ==>
        all[id] == ToDTState(cfg, if "/" + id in store then store["/" + id] else active[id]))
  }

  /** Datastore keys start with a slash. */
  predicate Keyed(store: map<string, TransferState>) { forall k :: k in store ==> k != "" && k[0] == '/' }

  lemma ListingGrows(cfg: Config, active: map<string, TransferState>, seen: map<string, TransferState>,
                     key: string, st: TransferState, all: map<string, ChannelState>)
    requires key != "" && key[0] == '/' && IsListing(cfg, active, seen, all)
    ensures IsListing(cfg, active, seen[key := st], all[RemoveLeadingSlash(key) := ToDTState(cfg, st)])
  {
    assert key == "/" + key[1..];
    forall id: string
      ensures "/" + id == key <==> id == key[1..]
    {
      assert ("/" + id)[1..] == id;
    }
  }

  function LookUpById(cfg: Config, store: map<string, TransferState>, id: string, get: Lookup, readOk: bool): Option<ChannelState> {
    match get
    case Active(st) => Some(ToDTState(cfg, st))
    case LookupFailed => None
    case NoTransfer =>
      if readOk && NewKey(id) in store then Some(ToDTState(cfg, store[NewKey(id)])) else None
  }

  class Libp2pTransferManager {
    const cfg: Config
    var tokens: map<string, AuthValue>
    var store: map<string, TransferState>
    var listening: bool
    ghost var fired: seq<Notice>  // calls of the listener so far

    /** The abstract state between passes. */
    ghost function View(): Manager
      reads this
    {
      Manager(tokens, store, [], listening, fired)
    }

    constructor (cfg: Config, persisted: map<string, TransferState>)
      ensures this.cfg == cfg && View() == Manager(map[], persisted, [], false, [])
    {
      this.cfg := cfg;
      tokens, store, listening, fired := map[], persisted, false, [];
    }

    method PrepareForDataRequest(id: nat, authToken: string, proposalCid: string, payloadCid: string, size: nat, putOk: bool)
      returns (ok: bool)
      requires id < UINT64_SIZE
      modifies this
      ensures ok == putOk
      ensures View() == Next(cfg, old(View()), Prepare(id, authToken, proposalCid, payloadCid, size, putOk))
      ensures putOk ==> authToken in tokens && tokens[authToken] == AuthValue(Format(id), proposalCid, payloadCid, size)
    {
      if !putOk {
        return false;
      }
      tokens := tokens[authToken := AuthValue(Format(id), proposalCid, payloadCid, size)];
      return true;
    }

    /** The token goes first; a cancel error is reported only when the delete succeeded. */
    method CleanupPreparedRequest(authToken: string, deleteOk: bool, cancel: CancelReply) returns (r: CleanupResult)
      modifies this
      ensures View() == Next(cfg, old(View()), Cleanup(authToken, deleteOk))
      ensures deleteOk ==> authToken !in tokens
      ensures r.CleanedUp? <==> deleteOk && !cancel.CancelFailed?
      ensures r.DeleteError? <==> !deleteOk
    {
      if deleteOk {
        tokens := tokens - {authToken};
      }
      var cancelErr := cancel.CancelFailed?;
      if !deleteOk {
        return DeleteError;
      }
      return if cancelErr then CancelError else CleanedUp;
    }

    /** Only one listener at a time. */
    method Subscribe() returns (ok: bool)
      modifies this
      ensures ok == !old(listening) && listening
      ensures View() == Next(cfg, old(View()), SetListener(true))
    {
      if listening {
        return false;
      }
      listening := true;
      return true;
    }

    method Unsubscribe()
      modifies this
      ensures View() == Next(cfg, old(View()), SetListener(false)) && !listening
    {
      listening := false;
    }

    method CallListener(dbid: nat, st: TransferState)
      modifies this`fired
      ensures View() == Notify(old(View()), dbid, ToDTState(cfg, st))
    {
      if listening {
        fired := fired + [Notice(dbid, ToDTState(cfg, st))];
      }
    }

    /** The callback registered with the data transfer server. */
    method OnServerEvent(dbidstr: string, st: TransferState, saveOk: bool)
      modifies this
      ensures View() == Next(cfg, old(View()), ServerEvent(dbidstr, st, saveOk))
    {
      var dbid := ParseUint(dbidstr);
      if dbid.None? {
        return;
      }
      if st.status == Failed {
        return;
      }
      if st.status == Completed {
        if saveOk {
          store := store[NewKey(dbidstr) := st];
        }
      }
      CallListener(dbid.value, st);
    }

    /** Body of the loop over the expired tokens. */
    method ExpireOne(id: string, r: Replies)
      modifies this
      ensures View() == Expire(cfg, old(View()), id, r) && tokens == old(tokens) && listening == old(listening)
    {
      if r.get.LookupFailed? {
        return;
      }
      if r.get.Active? {
        if !r.cancelOk {
          return;
        }
      }
      if !r.readOk {
        return;
      }
      var completed := if NewKey(id) in store then Some(store[NewKey(id)]) else None;
      if completed.Some? && completed.value.status == Completed {
        return;
      }
      var dbid := ParseUint(id);
      if dbid.None? {
        return;
      }
      var st := TransferState(id, cfg.localId, "", OtherStatus, 0, 0, "", "");
      if r.get.Active? {
        st := r.get.st;
      }
      st := st.(status := Failed);
      if st.message == "" {
        st := st.(message := cfg.timeoutMessage);
      }
      if completed.None? {
        if !r.saveOk {
          return;
        }
        store := store[NewKey(id) := st];
      }
      CallListener(dbid.value, st);
    }

    /** A whole pass, uninterrupted: the deletion followed by one iteration per expired token. */
    method CheckTransferExpiry(expired: seq<string>, deleteOk: bool, replies: seq<Replies>)
      requires Distinct(expired) && forall t :: t in expired ==> t in tokens
      requires |replies| == |expired|
      modifies this
      ensures Schedule(cfg, old(View()), PassActions(expired, deleteOk, replies))
      ensures View() == Run(cfg, old(View()), PassActions(expired, deleteOk, replies))
    {
      ghost var s0 := View();
      PassBegins(cfg, s0, expired, deleteOk);
      var values := Values(tokens, expired);
      tokens := tokens - Elements(expired);
      if !deleteOk {
        return;
      }
      var i := 0;
      while i < |values|
        invariant 0 <= i <= |values|
        invariant Schedule(cfg, s0, PassActions(expired, true, replies[..i]))
        invariant View().(pending := values[i..]) == Run(cfg, s0, PassActions(expired, true, replies[..i]))
      {
        PassSnoc(cfg, s0, expired, replies, i);
        IterateOnView(cfg, View(), values, i, replies[i]);
        ExpireOne(values[i].id, replies[i]);
        i := i + 1;
      }
      assert replies[..i] == replies;
    }

    // ----- lookups -----

    /** The first part of `All`, in whatever order the server lists its transfers. */
    method ListActive(active: map<string, TransferState>) returns (all: map<string, ChannelState>)
      ensures IsListing(cfg, active, map[], all)
    {
      all := map[];
      var ids := active.Keys;
      while ids != {}
        invariant ids <= active.Keys
        invariant all.Keys == active.Keys - ids
        invariant forall id :: id in all ==> all[id] == ToDTState(cfg, active[id])
        decreases ids
      {
        var id :| id in ids;
        all := all[id := ToDTState(cfg, active[id])];
        ids := ids - {id};
      }
    }

    /** `forEachCompletedTransfer` as `All` uses it; the query's order is arbitrary too. */
    method ListCompleted(ghost active: map<string, TransferState>, listed: map<string, ChannelState>, faults: ListFaults)
      returns (all: map<string, ChannelState>, ok: bool)
      requires Keyed(store) && IsListing(cfg, active, map[], listed)
      ensures ok <==> !faults.query && faults.unreadable !! store.Keys
      ensures ok ==> IsListing(cfg, active, store, all)
    {
      all := listed;
      if faults.query {
        return all, false;
      }
      var keys := store.Keys;
      ghost var seen: map<string, TransferState> := map[];
      while keys != {}
        invariant keys <= store.Keys && faults.unreadable !! (store.Keys - keys)
        invariant seen.Keys == store.Keys - keys && forall k :: k in seen ==> seen[k] == store[k]
        invariant IsListing(cfg, active, seen, all)
        decreases keys
      {
        var key :| key in keys;
        if key in faults.unreadable {
          return all, false;
        }
        ListingGrows(cfg, active, seen, key, store[key], all);
        all := all[RemoveLeadingSlash(key) := ToDTState(cfg, store[key])];
        keys := keys - {key};
        seen := seen[key := store[key]];
      }
      assert seen == store;
      ok := true;
    }

    /** `All`: the active transfers, then the persisted ones over them. */
    method All(active: map<string, TransferState>, faults: ListFaults) returns (all: map<string, ChannelState>, ok: bool)
      requires Keyed(store)
      ensures ok <==> !faults.matching && !faults.query && faults.unreadable !! store.Keys
      ensures ok ==> IsListing(cfg, active, store, all)
    {
      if faults.matching {
        return map[], false;
      }
      all := ListActive(active);
      all, ok := ListCompleted(active, all, faults);
    }

    /** `byId`: the server first, then the store. */
    method ById(id: string, get: Lookup, readOk: bool) returns (r: Option<ChannelState>)
      ensures r == LookUpById(cfg, store, id, get, readOk)
      ensures r.Some? <==> get.Active? || (get.NoTransfer? && readOk && NewKey(id) in store)
      ensures r.Some? ==> Shows(cfg, r.value, if get.Active? then get.st else store[NewKey(id)])
    {
      if get.Active? {
        TransferIsShown(cfg, get.st);
        return Some(ToDTState(cfg, get.st));
      }
      if get.LookupFailed? {
        return None;
      }
      if !readOk || NewKey(id) !in store {
        return None;
      }
      TransferIsShown(cfg, store[NewKey(id)]);
      return Some(ToDTState(cfg, store[NewKey(id)]));
    }
  }

  /** `Get` without faults reports what is active. */
  function Reported(active: map<string, TransferState>, id: string): Lookup {
    if id in active then Active(active[id]) else NoTransfer
  }

  ghost predicate RecordsOnly(store: map<string, TransferState>) { forall k :: k in store ==> IsRecordKey(k) }

  /** Without faults, for an id that is no alias, point lookup finds exactly the ids that are listed. */
  lemma LookupAgreesWithListing(cfg: Config, active: map<string, TransferState>, store: map<string, TransferState>,
                                all: map<string, ChannelState>, id: string)
    requires RecordsOnly(store) && IsListing(cfg, active, store, all) && !Aliased(id)
    ensures var one := LookUpById(cfg, store, id, Reported(active, id), true);
            && (one.Some? <==> id in all)
            && (one.Some? && !(id in active && "/" + id in store) ==> one.value == all[id])
            && (id in active && "/" + id in store ==>
                one.value == ToDTState(cfg, active[id]) && all[id] == ToDTState(cfg, store["/" + id]))
  {
    if NewKey(id) != "/" + id {
      if "/" + id in store {
        assert IsRecordKey("/" + id);
        assert ("/" + id)[1..] == id;
        IdKey(id);
      }
    }
  }

  ghost predicate AlwaysAgrees(cfg: Config, id: string) {
    forall active, store, all :: RecordsOnly(store) && IsListing(cfg, active, store, all) ==>
      (LookUpById(cfg, store, id, Reported(active, id), true).Some? <==> id in all)
  }

  /**
   The two lookups agree on an id, whatever is active and stored, exactly when the
   id is not an alias. Point lookup of "/7" finds record 7, which is listed as "7" only.
   */
  lemma LookupsAgreeExactly(cfg: Config, id: string)
    ensures AlwaysAgrees(cfg, id) <==> !Aliased(id)
  {
    if Aliased(id) {
      var key := NewKey(id);
      var st := TransferState(key[1..], "", "", Completed, 0, 0, "", "");
      var store := map[key := st];
      var all := map[key[1..] := ToDTState(cfg, st)];
      ListingGrows(cfg, map[], map[], key, st, map[]);
      assert IsListing(cfg, map[], store, all);
      assert id != key[1..] by {
        assert key == "/" + key[1..];
      }
      assert RecordsOnly(store) && id !in all;
      assert LookUpById(cfg, store, id, Reported(map[], id), true).Some?;
    } else {
      forall active, store, all | RecordsOnly(store) && IsListing(cfg, active, store, all)
        ensures LookUpById(cfg, store, id, Reported(active, id), true).Some? <==> id in all
      {
        LookupAgreesWithListing(cfg, active, store, all, id);
      }
    }
  }
}
