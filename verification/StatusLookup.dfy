/** The two status queries of the client that span both kinds of transfer. */
module StatusLookup {
  import opened Common
  import opened Decimal
  import opened ChannelIds
  import opened DatastoreKeys
  import opened TransferManager
  import opened Libp2pTransfers

  /** Where `TransferStatusByID` looks. */
  datatype Route = ByChannel(c: ChannelId) | ByTransferId(id: string)

  function RouteOf(codec: PeerCodec, id: string): Route {
    match ChannelIdFromString(codec, id)
    case Some(c) => ByChannel(c)
    case None => ByTransferId(id)
  }

  /** Every id that either side prints is looked up on that side, under the entry it was printed for. */
  lemma RoutesAreUnambiguous(codec: PeerCodec, c: ChannelId, dbid: nat)
    requires Printable(codec, c) && dbid < UINT64_SIZE
    ensures RouteOf(codec, Print(codec, c)) == ByChannel(c)
    ensures RouteOf(codec, Format(dbid)) == ByTransferId(Format(dbid))
    ensures forall text :: ParseUint(text).Some? ==> RouteOf(codec, text) == ByTransferId(text)
  {
    PrintParses(codec, c);
    ParseFormat(dbid);
    forall text | ParseUint(text).Some?
      ensures RouteOf(codec, text) == ByTransferId(text)
    {
      IdSpacesDisjoint(codec, text);
    }
  }

  /** Over any run, a manager whose active transfers carry numeric ids lists numeric ids only. */
  lemma {:induction false} ListedIdsAreNumbers(cfg: Config, s: Manager, actions: seq<Action>, active: map<string, TransferState>,
                            all: map<string, ChannelState>)
    requires Valid(s) && Schedule(cfg, s, actions) && IsListing(cfg, active, Run(cfg, s, actions).store, all)
    requires forall id :: id in active ==> ParseUint(id).Some?
    ensures forall id :: id in all ==> ParseUint(id).Some?
  {
    RunValid(cfg, s, actions);
    forall id | id in all
      ensures ParseUint(id).Some?
    {
      if id !in active {
        assert IsRecordKey("/" + id);
        assert ("/" + id)[1..] == id;
      }
    }
  }

  /** The first loop of `TransfersInProgress`: every entry converted, under the name of its key. */
  method Rename<K(==), V, W>(entries: map<K, V>, name: K -> string, convert: V -> W) returns (renamed: map<string, W>)
    requires forall c, d :: c in entries && d in entries && name(c) == name(d) ==> c == d
    ensures |renamed| == |entries|
    ensures forall c :: c in entries ==> name(c) in renamed && renamed[name(c)] == convert(entries[c])
    ensures forall text :: text in renamed ==> exists c :: c in entries && name(c) == text
  {
    renamed := map[];
    var todo := entries.Keys;
    while todo != {}
      invariant todo <= entries.Keys
      invariant |renamed| + |todo| == |entries|
      invariant forall c :: c in entries && c !in todo ==> name(c) in renamed && renamed[name(c)] == convert(entries[c])
      invariant forall text :: text in renamed ==> exists c :: c in entries && c !in todo && name(c) == text
      decreases todo
    {
      var c :| c in todo;
      assert name(c) !in renamed;
      renamed := renamed[name(c) := convert(entries[c])];
      todo := todo - {c};
      assert c in entries && c !in todo;
    }
  }

  /** The second loop: the entries of `more` are added one by one. */
  method AddAll<K(==), V>(entries: map<K, V>, more: map<K, V>) returns (all: map<K, V>)
    ensures all == entries + more
  {
    all := entries;
    var todo := more.Keys;
    while todo != {}
      invariant todo <= more.Keys
      invariant all == entries + (more - todo)
      decreases todo
    {
      var id :| id in todo;
      all := all[id := more[id]];
      todo := todo - {id};
    }
    assert more - {} == more;
  }

  lemma DisjointSize<K, V>(m: map<K, V>, n: map<K, V>)
    requires m.Keys !! n.Keys
    ensures |m + n| == |m| + |n|
  {
    assert (m + n).Keys == m.Keys + n.Keys;
    assert |(m + n).Keys| == |m.Keys| + |n.Keys|;
  }

  /** Nothing is lost and nothing added when both sides are put into one map. */
  ghost predicate IsMerge<D>(codec: PeerCodec, v1: map<ChannelId, D>, convert: D -> ChannelState, v2: map<string, ChannelState>,
                             dts: map<string, ChannelState>)
  {
    && |dts| == |v1| + |v2|
    && (forall c :: c in v1 ==> Print(codec, c) in dts && dts[Print(codec, c)] == convert(v1[c]))
    && (forall id :: id in v2 ==> id in dts && dts[id] == v2[id])
  }

  /** The two loops together. */
  method MergeTransfers<D>(codec: PeerCodec, v1: map<ChannelId, D>, convert: D -> ChannelState, v2: map<string, ChannelState>)
    returns (dts: map<string, ChannelState>)
    requires forall c :: c in v1 ==> Printable(codec, c)
    requires forall id :: id in v2 ==> ParseUint(id).Some?
    ensures IsMerge(codec, v1, convert, v2, dts)
  {
    var name := c => Print(codec, c);
    forall c, d | c in v1 && d in v1 && name(c) == name(d)
      ensures c == d
    {
      PrintInjective(codec, c, d);
    }
    var first := Rename(v1, name, convert);
    forall c | c in v1
      ensures name(c) !in v2
    {
      IdSpacesDisjoint(codec, Print(codec, c));
    }
    DisjointSize(first, v2);
    dts := AddAll(first, v2);
    assert forall c :: c in v1 ==> name(c) in dts && dts[name(c)] == convert(v1[c]);
  }

  /**
   `TransfersInProgress`: one map over both id spaces, or the error of either
   side. It keeps every entry of both sides under its own id and has no other.
   */
  method TransfersInProgress<D>(codec: PeerCodec, v1: Option<map<ChannelId, D>>, convert: D -> ChannelState,
                                v2: Option<map<string, ChannelState>>)
    returns (r: Option<map<string, ChannelState>>)
    requires v1.Some? ==> forall c :: c in v1.value ==> Printable(codec, c)
    requires v2.Some? ==> forall id :: id in v2.value ==> ParseUint(id).Some?
    ensures r.Some? <==> v1.Some? && v2.Some?
    ensures r.Some? ==> IsMerge(codec, v1.value, convert, v2.value, r.value)
  {
    if v1.None? {
      return None;
    }
    if v2.None? {
      return None;
    }
    var dts := MergeTransfers(codec, v1.value, convert, v2.value);
    return Some(dts);
  }
}
