/**
 Matching data transfer channels with graphsync requests for the transfer
 diagnostics. Go iterates its maps in any order; the order is a parameter here
 and is proved not to matter.
 */
module TransferMatching {
  import opened Common

  type ChannelId = string
  type RequestId = string
  type ChannelState = string

  datatype ChannelRequests = ChannelRequests(current: RequestId, previous: seq<RequestId>)

  datatype Diagnostic =
    | LookupFailed(channel: ChannelId)
    | NoChannelFor(request: RequestId)
    | NoRequestStateFor(channel: ChannelId)
    | FromGraphsync(text: string)

  /** One line of the diagnostics. `state` is `None` for "no graphsync state found". */
  datatype Transfer = Transfer(
    request: RequestId, state: Option<string>, isCurrent: bool, hasChannel: bool,
    channelState: Option<ChannelState>, diagnostics: seq<Diagnostic>)

  /** The graphsync tables and the channels of one peer, and the outcome of looking up each channel. */
  datatype Peer = Peer(
    channels: map<ChannelId, ChannelRequests>,
    lookups: map<ChannelId, ChannelState>,   // channels whose lookup succeeds
    states: map<RequestId, string>,
    gsDiagnostics: map<RequestId, seq<string>>)

  function Texts(texts: seq<string>): seq<Diagnostic> { seq(|texts|, i requires 0 <= i < |texts| => FromGraphsync(texts[i])) }

  /** What `convertTransfer` appends for one request. */
  function Line(p: Peer, channel: Option<ChannelId>, request: RequestId, isCurrent: bool): Transfer {
    var found := channel.Some? && channel.value in p.lookups;
    var base := if channel.Some? && !found then [LookupFailed(channel.value)] else [];
    var hints :=
      if channel.None? then base + [NoChannelFor(request)]
      else if request !in p.states then base + [NoRequestStateFor(channel.value)]
      else base;
    Transfer(
      request,
      if request in p.states then Some(p.states[request]) else None,
      isCurrent,
      channel.Some?,
      if found then Some(p.lookups[channel.value]) else None,
      if request in p.gsDiagnostics then hints + Texts(p.gsDiagnostics[request]) else hints)
  }

  // ----- lists built in an arbitrary order -----

  predicate Distinct<K(==)>(s: seq<K>) { forall i, j :: 0 <= i < j < |s| ==> s[i] != s[j] }

  function Elements<K>(s: seq<K>): set<K> { set k | k in s }

  predicate Orders<K(==)>(order: seq<K>, keys: set<K>) { Distinct(order) && Elements(order) == keys }

  function Flatten<K, V>(order: seq<K>, f: K -> seq<V>): seq<V> {
    if order == [] then [] else Flatten(order[..|order| - 1], f) + f(order[|order| - 1])
  }

  /** One more key at the end of the order. */
  lemma FlattenSnoc<K, V>(front: seq<K>, k: K, f: K -> seq<V>)
    ensures Flatten(front + [k], f) == Flatten(front, f) + f(k)
  {
    assert (front + [k])[..|front|] == front;
  }

  lemma {:induction false} FlattenMoves<K, V>(a: seq<K>, k: K, b: seq<K>, f: K -> seq<V>)
    ensures multiset(Flatten(a + [k] + b, f)) == multiset(Flatten(a + b, f)) + multiset(f(k))
  {
    var whole := a + [k] + b;
    if b == [] {
      assert whole[..|whole| - 1] == a && a + b == a;
    } else {
      var n := |b| - 1;
      assert whole[..|whole| - 1] == a + [k] + b[..n];
      assert (a + b)[..|a + b| - 1] == a + b[..n];
      FlattenMoves(a, k, b[..n], f);
    }
  }

  lemma {:induction false} DistinctSize<K>(s: seq<K>)
    requires Distinct(s)
    ensures |s| == |Elements(s)|
  {
    if s == [] {
    } else {
      var n := |s| - 1;
      DistinctSize(s[..n]);
      assert s == s[..n] + [s[n]];
      assert Elements(s) == Elements(s[..n]) + {s[n]};
    }
  }

  lemma RemoveFromOrder<K>(first: seq<K>, second: seq<K>, i: nat)
    requires first != [] && Distinct(first) && Orders(second, Elements(first))
    requires i < |second| && second[i] == first[|first| - 1]
    ensures Distinct(first[..|first| - 1])
    ensures Orders(second[..i] + second[i + 1..], Elements(first[..|first| - 1]))
  {
    var rest, front, k := second[..i] + second[i + 1..], first[..|first| - 1], second[i];
    forall x
      ensures x in rest <==> x in front
    {
      assert x in Elements(second) <==> x in Elements(first);
      assert second == second[..i] + [k] + second[i + 1..];
      assert first == front + [k];
    }
  }

  /** Whatever the order, the same lines come out. */
  lemma {:induction false} OrderIrrelevant<K, V>(first: seq<K>, second: seq<K>, f: K -> seq<V>)
    requires Distinct(first) && Orders(second, Elements(first))
    ensures multiset(Flatten(first, f)) == multiset(Flatten(second, f))
  {
    if first == [] {
      DistinctSize(second);
    } else {
      var n := |first| - 1;
      var k := first[n];
      assert k in Elements(second);
      var i :| 0 <= i < |second| && second[i] == k;
      var a, b := second[..i], second[i + 1..];
      assert second == a + [k] + b;
      RemoveFromOrder(first, second, i);
      OrderIrrelevant(first[..n], a + b, f);
      FlattenMoves(a, k, b, f);
    }
  }

  // ----- the output of generateTransfers -----

  function PreviousLine(p: Peer, channel: ChannelId): RequestId -> seq<Transfer> {
    r => [Line(p, Some(channel), r, false)]
  }

  /** The lines of the requests cancelled for a restart. */
  function PreviousLines(p: Peer, channel: ChannelId, previous: seq<RequestId>): seq<Transfer> {
    Flatten(previous, PreviousLine(p, channel))
  }

  /** The lines of one channel: its current request, then the previous ones. */
  function ChannelLines(p: Peer, channel: ChannelId): seq<Transfer> {
    if channel !in p.channels then []
    else [Line(p, Some(channel), p.channels[channel].current, true)] + PreviousLines(p, channel, p.channels[channel].previous)
  }

  function LooseLine(p: Peer, request: RequestId): seq<Transfer> { [Line(p, None, request, false)] }

  function ByChannel(p: Peer): ChannelId -> seq<Transfer> { c => ChannelLines(p, c) }

  function ByRequest(p: Peer): RequestId -> seq<Transfer> { r => LooseLine(p, r) }

  function RequestsOf(r: ChannelRequests): set<RequestId> { {r.current} + Elements(r.previous) }

  function ChannelRequestIds(p: Peer): set<RequestId> {
    set c, r | c in p.channels && r in RequestsOf(p.channels[c]) :: r
  }

  /** Requests graphsync knows of that no channel mentions. */
  function LooseIds(p: Peer): set<RequestId> { p.states.Keys + p.gsDiagnostics.Keys - ChannelRequestIds(p) }

  /** An output of `generateTransfers` for some iteration orders. */
  predicate IsOutput(p: Peer, order: seq<ChannelId>, loose: seq<RequestId>, out: seq<Transfer>) {
    && Orders(order, p.channels.Keys)
    && Orders(loose, LooseIds(p))
    && out == Flatten(order, ByChannel(p)) + Flatten(loose, ByRequest(p))
  }

  function Ids(out: seq<Transfer>): set<RequestId> { set t | t in out :: t.request }

  /** Requests of the lines flagged as current, in order. */
  function Flagged(out: seq<Transfer>): seq<RequestId> {
    if out == [] then []
    else Flagged(out[..|out| - 1]) + if out[|out| - 1].isCurrent then [out[|out| - 1].request] else []
  }

  ghost function TotalLines(channels: map<ChannelId, ChannelRequests>): nat
    decreases |channels|
  {
    if channels == map[] then 0
    else
      var c :| c in channels;
      1 + |channels[c].previous| + TotalLines(channels - {c})
  }

  lemma {:induction false} TotalWithout(channels: map<ChannelId, ChannelRequests>, c: ChannelId)
    requires c in channels
    ensures TotalLines(channels) == 1 + |channels[c].previous| + TotalLines(channels - {c})
    decreases |channels|
  {
    var d :| d in channels && TotalLines(channels) == 1 + |channels[d].previous| + TotalLines(channels - {d});
    if c != d {
      TotalWithout(channels - {d}, c);
      TotalWithout(channels - {c}, d);
      assert channels - {c} - {d} == channels - {d} - {c};
    }
  }

  lemma {:induction false} FlaggedConcat(a: seq<Transfer>, b: seq<Transfer>)
    ensures Flagged(a + b) == Flagged(a) + Flagged(b)
  {
    if b == [] {
      assert a + b == a;
    } else {
      assert (a + b)[..|a + b| - 1] == a + b[..|b| - 1];
      FlaggedConcat(a, b[..|b| - 1]);
    }
  }

  lemma IdsConcat(a: seq<Transfer>, b: seq<Transfer>)
    ensures Ids(a + b) == Ids(a) + Ids(b)
  {
    assert forall t :: t in a + b <==> t in a || t in b;
  }

  /** Flags of a flattened list, for any `f` whose flags are known piece by piece. */
  lemma {:induction false} FlagsOfFlatten<K>(order: seq<K>, f: K -> seq<Transfer>, flags: K -> seq<RequestId>)
    requires forall k :: k in order ==> Flagged(f(k)) == flags(k)
    ensures Flagged(Flatten(order, f)) == Flatten(order, flags)
  {
    if order == [] {
    } else {
      var n := |order| - 1;
      FlagsOfFlatten(order[..n], f, flags);
      FlaggedConcat(Flatten(order[..n], f), f(order[n]));
    }
  }

  lemma {:induction false} IdsOfFlatten<K>(order: seq<K>, f: K -> seq<Transfer>, r: RequestId)
    ensures r in Ids(Flatten(order, f)) <==> exists k :: k in order && r in Ids(f(k))
  {
    if order == [] {
    } else {
      var n := |order| - 1;
      assert order == order[..n] + [order[n]];
      IdsOfFlatten(order[..n], f, r);
      IdsConcat(Flatten(order[..n], f), f(order[n]));
    }
  }

  /** One value per element. */
  lemma {:induction false} FlattenSingles<K, V>(order: seq<K>, f: K -> seq<V>)
    requires forall k :: k in order ==> |f(k)| == 1
    ensures |Flatten(order, f)| == |order|
    ensures forall i :: 0 <= i < |order| ==> Flatten(order, f)[i] == f(order[i])[0]
  {
    if order == [] {
    } else {
      FlattenSingles(order[..|order| - 1], f);
    }
  }

  lemma {:induction false} FlattenNothing<K, V>(order: seq<K>, f: K -> seq<V>)
    requires forall k :: k in order ==> f(k) == []
    ensures Flatten(order, f) == []
  {
    if order == [] {
    } else {
      FlattenNothing(order[..|order| - 1], f);
    }
  }

  lemma OneLine(line: Transfer)
    ensures Ids([line]) == {line.request} && Flagged([line]) == if line.isCurrent then [line.request] else []
  {
    assert [line][0] in [line];
    assert [line][..0] == [];
  }

  /** One unflagged line per request. */
  lemma PlainLines(requests: seq<RequestId>, f: RequestId -> seq<Transfer>)
    requires forall r :: |f(r)| == 1 && Flagged(f(r)) == [] && Ids(f(r)) == {r}
    ensures var lines := Flatten(requests, f);
            |lines| == |requests| && Flagged(lines) == [] && Ids(lines) == Elements(requests)
  {
    FlattenSingles(requests, f);
    FlagsOfFlatten(requests, f, r => []);
    FlattenNothing<RequestId, RequestId>(requests, r => []);
    forall r
      ensures r in Ids(Flatten(requests, f)) <==> r in requests
    {
      IdsOfFlatten(requests, f, r);
    }
  }

  lemma PreviousLinesFacts(p: Peer, c: ChannelId, previous: seq<RequestId>)
    ensures var lines := PreviousLines(p, c, previous);
            |lines| == |previous| && Flagged(lines) == [] && Ids(lines) == Elements(previous)
  {
    var f := PreviousLine(p, c);
    forall r
      ensures |f(r)| == 1 && Flagged(f(r)) == [] && Ids(f(r)) == {r}
    {
      OneLine(Line(p, Some(c), r, false));
    }
    PlainLines(previous, f);
  }

  /** One more line after those listed for the first previous requests. */
  lemma PreviousSnoc(p: Peer, c: ChannelId, previous: seq<RequestId>, i: nat, listed: seq<Transfer>)
    requires i < |previous|
    ensures listed + PreviousLines(p, c, previous[..i]) + [Line(p, Some(c), previous[i], false)]
         == listed + PreviousLines(p, c, previous[..i + 1])
  {
    assert previous[..i] + [previous[i]] == previous[..i + 1];
    FlattenSnoc(previous[..i], previous[i], PreviousLine(p, c));
  }

  /** One channel: one flagged line for its current request, one plain line per previous request. */
  lemma OneChannel(p: Peer, c: ChannelId)
    requires c in p.channels
    ensures var lines, r := ChannelLines(p, c), p.channels[c];
            |lines| == 1 + |r.previous| && Flagged(lines) == [r.current] && Ids(lines) == RequestsOf(r)
  {
    var r := p.channels[c];
    var first := Line(p, Some(c), r.current, true);
    PreviousLinesFacts(p, c, r.previous);
    OneLine(first);
    FlaggedConcat([first], PreviousLines(p, c, r.previous));
    IdsConcat([first], PreviousLines(p, c, r.previous));
  }

  function Currents(p: Peer, order: seq<ChannelId>): seq<RequestId>
    requires forall c :: c in order ==> c in p.channels
  {
    seq(|order|, i requires 0 <= i < |order| => p.channels[order[i]].current)
  }

  function Among(p: Peer, order: seq<ChannelId>): map<ChannelId, ChannelRequests> {
    map c | c in p.channels && c in order :: p.channels[c]
  }

  lemma AmongSnoc(p: Peer, order: seq<ChannelId>)
    requires order != [] && Distinct(order) && forall c :: c in order ==> c in p.channels
    ensures var n := |order| - 1;
            TotalLines(Among(p, order)) == 1 + |p.channels[order[n]].previous| + TotalLines(Among(p, order[..n]))
  {
    var n := |order| - 1;
    assert order == order[..n] + [order[n]];
    TotalWithout(Among(p, order), order[n]);
    assert Among(p, order) - {order[n]} == Among(p, order[..n]);
  }

  lemma {:induction false} ChannelPartLength(p: Peer, order: seq<ChannelId>)
    requires Distinct(order) && forall c :: c in order ==> c in p.channels
    ensures |Flatten(order, ByChannel(p))| == TotalLines(Among(p, order))
  {
    if order == [] {
      assert Among(p, order) == map[];
    } else {
      ChannelPartLength(p, order[..|order| - 1]);
      OneChannel(p, order[|order| - 1]);
      AmongSnoc(p, order);
    }
  }

  lemma ChannelPartFlags(p: Peer, order: seq<ChannelId>)
    requires forall c :: c in order ==> c in p.channels
    ensures Flagged(Flatten(order, ByChannel(p))) == Currents(p, order)
  {
    var flags := c => if c in p.channels then [p.channels[c].current] else [];
    forall c | c in order
      ensures Flagged(ByChannel(p)(c)) == flags(c)
    {
      OneChannel(p, c);
    }
    FlagsOfFlatten(order, ByChannel(p), flags);
    FlattenSingles(order, flags);
  }

  lemma LoosePart(p: Peer, loose: seq<RequestId>)
    ensures var lines := Flatten(loose, ByRequest(p));
            |lines| == |loose| && Flagged(lines) == [] && Ids(lines) == Elements(loose)
  {
    var f := ByRequest(p);
    forall r
      ensures |f(r)| == 1 && Flagged(f(r)) == [] && Ids(f(r)) == {r}
    {
      OneLine(Line(p, None, r, false));
    }
    PlainLines(loose, f);
  }

  // ----- main results -----

  lemma OrderMembers(p: Peer, order: seq<ChannelId>)
    requires Orders(order, p.channels.Keys)
    ensures forall c :: c in order <==> c in p.channels
  {
    forall c
      ensures c in order <==> c in p.channels
    {
      assert c in order <==> c in Elements(order);
    }
  }

  lemma ChannelLinesIds(p: Peer, order: seq<ChannelId>)
    requires Orders(order, p.channels.Keys)
    ensures Ids(Flatten(order, ByChannel(p))) == ChannelRequestIds(p)
  {
    OrderMembers(p, order);
    forall c | c in order
      ensures Ids(ByChannel(p)(c)) == RequestsOf(p.channels[c])
    {
      OneChannel(p, c);
    }
    forall r
      ensures r in Ids(Flatten(order, ByChannel(p))) <==> r in ChannelRequestIds(p)
    {
      IdsOfFlatten(order, ByChannel(p), r);
    }
  }

  lemma CompleteIds(p: Peer, order: seq<ChannelId>, loose: seq<RequestId>, out: seq<Transfer>)
    requires IsOutput(p, order, loose, out)
    ensures Ids(out) == ChannelRequestIds(p) + p.states.Keys + p.gsDiagnostics.Keys
  {
    LoosePart(p, loose);
    ChannelLinesIds(p, order);
    IdsConcat(Flatten(order, ByChannel(p)), Flatten(loose, ByRequest(p)));
  }

  lemma CompleteLength(p: Peer, order: seq<ChannelId>, loose: seq<RequestId>, out: seq<Transfer>)
    requires IsOutput(p, order, loose, out)
    ensures |out| == TotalLines(p.channels) + |LooseIds(p)|
  {
    OrderMembers(p, order);
    LoosePart(p, loose);
    ChannelPartLength(p, order);
    assert Among(p, order) == p.channels;
    DistinctSize(loose);
  }

  lemma CompleteFlags(p: Peer, order: seq<ChannelId>, loose: seq<RequestId>, out: seq<Transfer>)
    requires IsOutput(p, order, loose, out) && forall c :: c in order ==> c in p.channels
    ensures Flagged(out) == Currents(p, order) && |Flagged(out)| == |p.channels|
  {
    LoosePart(p, loose);
    ChannelPartFlags(p, order);
    FlaggedConcat(Flatten(order, ByChannel(p)), Flatten(loose, ByRequest(p)));
    DistinctSize(order);
    assert |order| == |p.channels.Keys|;
  }

  /**
   The matching is complete and adds nothing: the ids listed are those of the
   channels, of the request states and of the diagnostics; there is one line per
   request of a channel and one per remaining id; and exactly one line per
   channel, the one of its current request, is flagged as current.
   */
  lemma MatchingIsComplete(p: Peer, order: seq<ChannelId>, loose: seq<RequestId>, out: seq<Transfer>)
    requires IsOutput(p, order, loose, out)
    ensures Ids(out) == ChannelRequestIds(p) + p.states.Keys + p.gsDiagnostics.Keys
    ensures |out| == TotalLines(p.channels) + |LooseIds(p)|
    ensures (forall c :: c in order <==> c in p.channels) && Flagged(out) == Currents(p, order)
    ensures |Flagged(out)| == |p.channels|
  {
    OrderMembers(p, order);
    CompleteIds(p, order, loose, out);
    CompleteLength(p, order, loose, out);
    CompleteFlags(p, order, loose, out);
  }

  /** Two runs over the same tables list the same lines, however Go iterates its maps. */
  lemma IterationOrderIrrelevant(p: Peer, order: seq<ChannelId>, loose: seq<RequestId>, out: seq<Transfer>,
                                 order': seq<ChannelId>, loose': seq<RequestId>, out': seq<Transfer>)
    requires IsOutput(p, order, loose, out) && IsOutput(p, order', loose', out')
    ensures multiset(out) == multiset(out')
  {
    OrderIrrelevant(order, order', ByChannel(p));
    OrderIrrelevant(loose, loose', ByRequest(p));
  }

  // ----- what the lines say -----

  function TextsOf(p: Peer, request: RequestId): seq<string> {
    if request in p.gsDiagnostics then p.gsDiagnostics[request] else []
  }

  /** What the matching itself has to remark: no channel, or a channel that cannot be looked up or has no request state. */
  function Remarks(p: Peer, channel: Option<ChannelId>, request: RequestId): seq<Diagnostic> {
    match channel
    case None => [NoChannelFor(request)]
    case Some(c) =>
      (if c in p.lookups then [] else [LookupFailed(c)]) + (if request in p.states then [] else [NoRequestStateFor(c)])
  }

  /** A line says what the tables say about its request and its channel. */
  ghost predicate IsTrue(p: Peer, channel: Option<ChannelId>, t: Transfer) {
    && (t.state.Some? <==> t.request in p.states)
    && (t.state.Some? ==> t.state.value == p.states[t.request])
    && (t.hasChannel <==> channel.Some?)
    && (t.channelState.Some? <==> channel.Some? && channel.value in p.lookups)
    && (t.channelState.Some? ==> t.channelState.value == p.lookups[channel.value])
    && var remarks, texts := Remarks(p, channel, t.request), TextsOf(p, t.request);
       && |t.diagnostics| == |remarks| + |texts|
       && t.diagnostics[..|remarks|] == remarks
       && forall i :: 0 <= i < |texts| ==> t.diagnostics[|remarks| + i] == FromGraphsync(texts[i])
  }

  /** The lines of one channel: its current request, flagged, then the previous ones in order. */
  ghost predicate IsBlock(p: Peer, c: ChannelId, lines: seq<Transfer>)
    requires c in p.channels
  {
    var r := p.channels[c];
    && |lines| == 1 + |r.previous|
    && (forall t :: t in lines ==> IsTrue(p, Some(c), t))
    && lines[0].request == r.current && lines[0].isCurrent
    && forall i :: 0 <= i < |r.previous| ==> lines[1 + i].request == r.previous[i] && !lines[1 + i].isCurrent
  }

  /** A request no channel mentions has one plain line. */
  ghost predicate IsLoose(p: Peer, request: RequestId, t: Transfer) {
    t.request == request && !t.isCurrent && IsTrue(p, None, t)
  }

  /** `lines` is a loose line for each of these requests. */
  ghost predicate AreLoose(p: Peer, loose: seq<RequestId>, lines: seq<Transfer>) {
    |lines| == |loose| && forall i :: 0 <= i < |loose| ==> IsLoose(p, loose[i], lines[i])
  }

  ghost predicate AreBlocks(p: Peer, order: seq<ChannelId>, blocks: seq<seq<Transfer>>) {
    |blocks| == |order| && forall j :: 0 <= j < |order| ==> order[j] in p.channels && IsBlock(p, order[j], blocks[j])
  }

  function Concat(blocks: seq<seq<Transfer>>): seq<Transfer> {
    if blocks == [] then [] else Concat(blocks[..|blocks| - 1]) + blocks[|blocks| - 1]
  }

  /** The output consists of a block per channel and a loose line per remaining request. */
  ghost predicate Reports(p: Peer, order: seq<ChannelId>, loose: seq<RequestId>, out: seq<Transfer>) {
    exists blocks, lines :: AreBlocks(p, order, blocks) && AreLoose(p, loose, lines) && out == Concat(blocks) + lines
  }

  lemma LineIsTrue(p: Peer, channel: Option<ChannelId>, request: RequestId, isCurrent: bool)
    ensures IsTrue(p, channel, Line(p, channel, request, isCurrent))
  {
    var t := Line(p, channel, request, isCurrent);
    assert t.diagnostics == Remarks(p, channel, request) + Texts(TextsOf(p, request));
  }

  lemma ChannelIsBlock(p: Peer, c: ChannelId)
    requires c in p.channels
    ensures IsBlock(p, c, ChannelLines(p, c))
  {
    var r, lines := p.channels[c], ChannelLines(p, c);
    FlattenSingles(r.previous, PreviousLine(p, c));
    forall t | t in lines
      ensures IsTrue(p, Some(c), t)
    {
      var i :| 0 <= i < |lines| && lines[i] == t;
      LineIsTrue(p, Some(c), if i == 0 then r.current else r.previous[i - 1], i == 0);
    }
  }

  lemma {:induction false} FlattenIsConcat(order: seq<ChannelId>, f: ChannelId -> seq<Transfer>) returns (blocks: seq<seq<Transfer>>)
    ensures |blocks| == |order| && Concat(blocks) == Flatten(order, f)
    ensures forall j :: 0 <= j < |order| ==> blocks[j] == f(order[j])
  {
    if order == [] {
      blocks := [];
    } else {
      var n := |order| - 1;
      var front := FlattenIsConcat(order[..n], f);
      blocks := front + [f(order[n])];
      assert blocks[..n] == front;
    }
  }

  lemma {:induction false} HasChannelIn(p: Peer, order: seq<ChannelId>, t: Transfer)
    requires (forall c :: c in order ==> c in p.channels) && t in Flatten(order, ByChannel(p))
    ensures t.hasChannel
  {
    if order == [] {
    } else {
      var n := |order| - 1;
      if t in ChannelLines(p, order[n]) {
        ChannelIsBlock(p, order[n]);
      } else {
        HasChannelIn(p, order[..n], t);
      }
    }
  }

  lemma ChannelsAreShown(p: Peer, order: seq<ChannelId>, loose: seq<RequestId>, out: seq<Transfer>)
    requires IsOutput(p, order, loose, out)
    ensures forall t :: t in out ==> (t.hasChannel <==> t.request in ChannelRequestIds(p))
  {
    var first, second := Flatten(order, ByChannel(p)), Flatten(loose, ByRequest(p));
    ChannelLinesIds(p, order);
    FlattenSingles(loose, ByRequest(p));
    forall t | t in out
      ensures t.hasChannel <==> t.request in ChannelRequestIds(p)
    {
      if t in first {
        assert t.request in Ids(first);
        HasChannelIn(p, order, t);
      } else {
        assert t in second;
        var i :| 0 <= i < |second| && second[i] == t;
        assert loose[i] in Elements(loose);
      }
    }
  }

  lemma LooseLinesAreTrue(p: Peer, loose: seq<RequestId>)
    ensures AreLoose(p, loose, Flatten(loose, ByRequest(p)))
  {
    FlattenSingles(loose, ByRequest(p));
    forall i | 0 <= i < |loose|
      ensures IsLoose(p, loose[i], Flatten(loose, ByRequest(p))[i])
    {
      LineIsTrue(p, None, loose[i], false);
    }
  }

  lemma BlocksAreTrue(p: Peer, order: seq<ChannelId>) returns (blocks: seq<seq<Transfer>>)
    requires Orders(order, p.channels.Keys)
    ensures AreBlocks(p, order, blocks) && Concat(blocks) == Flatten(order, ByChannel(p))
  {
    blocks := FlattenIsConcat(order, ByChannel(p));
    OrderMembers(p, order);
    forall j | 0 <= j < |order|
      ensures order[j] in p.channels && IsBlock(p, order[j], blocks[j])
    {
      assert order[j] in order;
      ChannelIsBlock(p, order[j]);
    }
  }

  /**
   Every line is true: each channel has its block of lines and each remaining
   request its line, and all of them show exactly the request state, the channel
   state and the diagnostics that the tables hold.
   */
  lemma LinesAreTrue(p: Peer, order: seq<ChannelId>, loose: seq<RequestId>, out: seq<Transfer>)
    requires IsOutput(p, order, loose, out)
    ensures Reports(p, order, loose, out)
    ensures forall t :: t in out ==> (t.hasChannel <==> t.request in ChannelRequestIds(p))
  {
    var blocks := BlocksAreTrue(p, order);
    LooseLinesAreTrue(p, loose);
    assert out == Concat(blocks) + Flatten(loose, ByRequest(p));
    ChannelsAreShown(p, order, loose, out);
  }

  // ----- the converter as an object -----

  /** The last line listed for each request. */
  function Index(lines: seq<Transfer>): map<RequestId, Transfer> {
    if lines == [] then map[]
    else
      var last := lines[|lines| - 1];
      Index(lines[..|lines| - 1])[last.request := last]
  }

  lemma IndexSnoc(lines: seq<Transfer>, line: Transfer)
    ensures Index(lines + [line]) == Index(lines)[line.request := line]
  {
    assert (lines + [line])[..|lines|] == lines;
  }

  /** The index knows exactly the ids listed, each with one of its own lines. */
  lemma {:induction false} IndexIsOfLines(lines: seq<Transfer>)
    ensures Index(lines).Keys == Ids(lines)
    ensures forall r :: r in Index(lines) ==> Index(lines)[r] in lines && Index(lines)[r].request == r
  {
    if lines == [] {
    } else {
      var n := |lines| - 1;
      IndexIsOfLines(lines[..n]);
      assert lines == lines[..n] + [lines[n]];
      IdsConcat(lines[..n], [lines[n]]);
      OneLine(lines[n]);
    }
  }

  lemma Associative<V>(a: seq<V>, b: seq<V>, c: seq<V>)
    ensures (a + b) + c == a + (b + c)
  {
  }

  lemma OneLess<K>(all: set<K>, todo: set<K>, known: set<K>, k: K)
    requires k in todo && todo <= all
    ensures known + (all - (todo - {k})) == known + (all - todo) + {k}
    ensures k in known ==> all - (todo - {k}) - known == all - todo - known
    ensures k !in known ==> all - (todo - {k}) - known == all - todo - known + {k}
    ensures k in known <==> k in known + (all - todo)
  {
  }

  lemma OrderGrows<K>(order: seq<K>, keys: set<K>, k: K)
    requires Orders(order, keys) && k !in keys
    ensures Orders(order + [k], keys + {k})
  {
    assert forall x :: x in order <==> x in Elements(order);
    assert forall x :: x in order + [k] <==> x in order || x == k;
  }

  lemma OrdersConcat<K>(a: seq<K>, b: seq<K>, keys: set<K>, more: set<K>)
    requires Orders(a, keys) && Orders(b, more) && keys !! more
    ensures Orders(a + b, keys + more)
  {
    assert forall x :: x in a + b <==> x in a || x in b;
    forall i, j | 0 <= i < j < |a + b|
      ensures (a + b)[i] != (a + b)[j]
    {
      if i < |a| <= j {
        assert a[i] in Elements(a) && b[j - |a|] in Elements(b);
      }
    }
  }

  lemma {:induction false} FlattenConcat<K, V>(a: seq<K>, b: seq<K>, f: K -> seq<V>)
    ensures Flatten(a + b, f) == Flatten(a, f) + Flatten(b, f)
  {
    if b == [] {
      assert a + b == a;
    } else {
      assert (a + b)[..|a + b| - 1] == a + b[..|b| - 1];
      FlattenConcat(a, b[..|b| - 1], f);
    }
  }

  /** Two orders, the second over what the first and `known` leave out. */
  lemma OrdersRest<K>(a: seq<K>, b: seq<K>, first: set<K>, second: set<K>, known: set<K>)
    requires Orders(a, first - known) && Orders(b, second - (known + first))
    ensures Orders(a + b, first + second - known)
  {
    OrdersConcat(a, b, first - known, second - (known + first));
    assert (first - known) + (second - (known + first)) == first + second - known;
  }

  /** The loop over the channels takes one more of those left. */
  lemma NextChannel(p: Peer, order: seq<ChannelId>, todo: set<ChannelId>, c: ChannelId)
    requires todo <= p.channels.Keys && c in todo && Orders(order, p.channels.Keys - todo)
    ensures Orders(order + [c], p.channels.Keys - (todo - {c}))
    ensures Flatten(order + [c], ByChannel(p)) == Flatten(order, ByChannel(p)) + ChannelLines(p, c)
  {
    OrderGrows(order, p.channels.Keys - todo, c);
    FlattenSnoc(order, c, ByChannel(p));
    assert p.channels.Keys - (todo - {c}) == p.channels.Keys - todo + {c};
  }

  class TransferConverter {
    ghost const peer: Peer
    const gsDiagnostics: map<RequestId, seq<string>>
    const requestStates: map<RequestId, string>
    var matchedRequests: map<RequestId, Transfer>
    var transfers: seq<Transfer>

    /** The index is that of the lines listed so far. */
    ghost predicate Valid()
      reads this
    {
      gsDiagnostics == peer.gsDiagnostics && requestStates == peer.states && matchedRequests == Index(transfers)
    }

    constructor (ghost peer: Peer, gsDiagnostics: map<RequestId, seq<string>>, requestStates: map<RequestId, string>)
      requires gsDiagnostics == peer.gsDiagnostics && requestStates == peer.states
      ensures Valid() && transfers == [] && this.peer == peer
    {
      this.peer := peer;
      this.gsDiagnostics, this.requestStates := gsDiagnostics, requestStates;
      matchedRequests, transfers := map[], [];
    }

    method ConvertTransfer(channel: Option<ChannelId>, channelState: Option<ChannelState>, baseDiagnostics: seq<Diagnostic>,
                           request: RequestId, isCurrent: bool)
      requires Valid()
      requires channelState == (if channel.Some? && channel.value in peer.lookups then Some(peer.lookups[channel.value]) else None)
      requires baseDiagnostics == if channel.Some? && channel.value !in peer.lookups then [LookupFailed(channel.value)] else []
      modifies this
      ensures Valid() && transfers == old(transfers) + [Line(peer, channel, request, isCurrent)]
      ensures matchedRequests.Keys == old(matchedRequests.Keys) + {request}
    {
      var diagnostics := baseDiagnostics;
      var state := if request in requestStates then Some(requestStates[request]) else None;
      if channel.None? {
        diagnostics := diagnostics + [NoChannelFor(request)];
      } else if state.None? {
        diagnostics := diagnostics + [NoRequestStateFor(channel.value)];
      }
      if request in gsDiagnostics {
        diagnostics := diagnostics + Texts(gsDiagnostics[request]);
      }
      var transfer := Transfer(request, state, isCurrent, channel.Some?, channelState, diagnostics);
      IndexSnoc(transfers, transfer);
      transfers := transfers + [transfer];
      matchedRequests := matchedRequests[request := transfer];
    }

    /** Body of the inner loop: one more previous request. */
    method ConvertOnePrevious(channel: ChannelId, lookup: Option<ChannelState>, base: seq<Diagnostic>, previous: seq<RequestId>,
                              i: nat, ghost listed: seq<Transfer>)
      requires Valid() && i < |previous| && transfers == listed + PreviousLines(peer, channel, previous[..i])
      requires lookup == if channel in peer.lookups then Some(peer.lookups[channel]) else None
      requires base == if channel !in peer.lookups then [LookupFailed(channel)] else []
      modifies this
      ensures Valid() && transfers == listed + PreviousLines(peer, channel, previous[..i + 1])
    {
      PreviousSnoc(peer, channel, previous, i, listed);
      ConvertTransfer(Some(channel), lookup, base, previous[i], false);
    }

    /** The inner loop over the requests cancelled for a restart. */
    method ConvertPrevious(channel: ChannelId, lookup: Option<ChannelState>, base: seq<Diagnostic>, previous: seq<RequestId>)
      requires Valid()
      requires lookup == if channel in peer.lookups then Some(peer.lookups[channel]) else None
      requires base == if channel !in peer.lookups then [LookupFailed(channel)] else []
      modifies this
      ensures Valid() && transfers == old(transfers) + PreviousLines(peer, channel, previous)
    {
      var i := 0;
      ghost var listed := transfers;
      while i < |previous|
        invariant 0 <= i <= |previous|
        invariant Valid() && transfers == listed + PreviousLines(peer, channel, previous[..i])
      {
        ConvertOnePrevious(channel, lookup, base, previous, i, listed);
        i := i + 1;
      }
      assert previous[..i] == previous;
    }

    /** The lines of one channel. */
    method ConvertChannel(channel: ChannelId, lookup: Option<ChannelState>, requests: ChannelRequests)
      requires Valid() && channel in peer.channels && requests == peer.channels[channel]
      requires lookup == if channel in peer.lookups then Some(peer.lookups[channel]) else None
      modifies this
      ensures Valid() && transfers == old(transfers) + ChannelLines(peer, channel)
    {
      var base := if lookup.None? then [LookupFailed(channel)] else [];
      ConvertTransfer(Some(channel), lookup, base, requests.current, true);
      ConvertPrevious(channel, lookup, base, requests.previous);
      Associative(old(transfers), [Line(peer, Some(channel), requests.current, true)], PreviousLines(peer, channel, requests.previous));
    }

    /** Body of the loops of `collectRemainingTransfers`. */
    method ConvertIfUnmatched(request: RequestId)
      requires Valid()
      modifies this
      ensures Valid() && matchedRequests.Keys == old(matchedRequests.Keys) + {request}
      ensures transfers == old(transfers) + if request in old(matchedRequests) then [] else LooseLine(peer, request)
    {
      if request !in matchedRequests {
        ConvertTransfer(None, None, [], request, false);
      }
    }

    /** One loop of `collectRemainingTransfers`, over the keys of one table. */
    method CollectUnmatched(requests: set<RequestId>) returns (ghost loose: seq<RequestId>)
      requires Valid()
      modifies this
      ensures Valid() && Orders(loose, requests - old(matchedRequests.Keys))
      ensures matchedRequests.Keys == old(matchedRequests.Keys) + requests
      ensures transfers == old(transfers) + Flatten(loose, ByRequest(peer))
    {
      loose := [];
      var todo := requests;
      ghost var known, lines := matchedRequests.Keys, [];
      while todo != {}
        invariant Valid() && todo <= requests
        invariant Orders(loose, requests - todo - known)
        invariant forall k :: k in matchedRequests <==> k in known || (k in requests && k !in todo)
        invariant transfers == old(transfers) + lines && lines == Flatten(loose, ByRequest(peer))
        decreases todo
      {
        var r :| r in todo;
        OneLess(requests, todo, known, r);
        ConvertIfUnmatched(r);
        if r !in known {
          OrderGrows(loose, requests - todo - known, r);
          FlattenSnoc(loose, r, ByRequest(peer));
          Associative(old(transfers), lines, LooseLine(peer, r));
          loose, lines := loose + [r], lines + LooseLine(peer, r);
        }
        todo := todo - {r};
      }
    }

    /** `collectRemainingTransfers`: requests with a state first, then those with diagnostics only. */
    method CollectRemaining() returns (ghost loose: seq<RequestId>)
      requires Valid()
      modifies this
      ensures Valid() && Orders(loose, peer.states.Keys + peer.gsDiagnostics.Keys - old(matchedRequests.Keys))
      ensures transfers == old(transfers) + Flatten(loose, ByRequest(peer))
    {
      ghost var known := matchedRequests.Keys;
      var states := CollectUnmatched(requestStates.Keys);
      var diagnostics := CollectUnmatched(gsDiagnostics.Keys);
      loose := states + diagnostics;
      OrdersRest(states, diagnostics, peer.states.Keys, peer.gsDiagnostics.Keys, known);
      FlattenConcat(states, diagnostics, ByRequest(peer));
      Associative(old(transfers), Flatten(states, ByRequest(peer)), Flatten(diagnostics, ByRequest(peer)));
    }

    /** The loop of `generateTransfers` over the channels. */
    method ConvertChannels(channels: map<ChannelId, ChannelRequests>, lookups: map<ChannelId, ChannelState>)
      returns (ghost order: seq<ChannelId>)
      requires Valid() && channels == peer.channels && lookups == peer.lookups && transfers == []
      modifies this
      ensures Valid() && Orders(order, channels.Keys) && transfers == Flatten(order, ByChannel(peer))
    {
      order := [];
      var todo := channels.Keys;
      ghost var lines := [];
      while todo != {}
        invariant Valid() && todo <= channels.Keys
        invariant Orders(order, channels.Keys - todo)
        invariant transfers == lines && lines == Flatten(order, ByChannel(peer))
        decreases todo
      {
        var c :| c in todo;
        ConvertChannel(c, if c in lookups then Some(lookups[c]) else None, channels[c]);
        NextChannel(peer, order, todo, c);
        order, lines := order + [c], lines + ChannelLines(peer, c);
        todo := todo - {c};
      }
    }
  }

  /** `generateTransfers`: the channels first, then what they leave unmatched. */
  method GenerateTransfers(p: Peer) returns (out: seq<Transfer>)
    ensures exists order, loose :: IsOutput(p, order, loose, out)
    ensures Ids(out) == ChannelRequestIds(p) + p.states.Keys + p.gsDiagnostics.Keys
    ensures |out| == TotalLines(p.channels) + |LooseIds(p)| && |Flagged(out)| == |p.channels|
    ensures exists order, loose :: Orders(order, p.channels.Keys) && Orders(loose, LooseIds(p)) && Reports(p, order, loose, out)
  {
    var tc := new TransferConverter(p, p.gsDiagnostics, p.states);
    ghost var order := tc.ConvertChannels(p.channels, p.lookups);
    ChannelLinesIds(p, order);
    IndexIsOfLines(tc.transfers);
    ghost var loose := tc.CollectRemaining();
    out := tc.transfers;
    assert IsOutput(p, order, loose, out);
    MatchingIsComplete(p, order, loose, out);
    LinesAreTrue(p, order, loose, out);
  }
}
