# Verified models of the Filecoin client library

This project models the stateful core of the client library and proves what it
keeps over every run. There is one module per component.

| module | component |
|---|---|
| `ExpiryProtocol` | the expiry pass of the libp2p transfer manager, call by call, interleaved with server callbacks |
| `ExpiryEvents` | a run of it told from its steps: tokens, callbacks, reports |
| `ExpiryOrder` | two variants of the pass that make the same calls in another order |
| `TransferManager`, `ManagerEffects`, `Libp2pTransfers` | the same manager with atomic callbacks and loop iterations: transition system, what its steps do to listener, records and tokens, and the object that performs it |
| `DatastoreKeys`, `Decimal`, `Strings`, `ChannelIds`, `StatusLookup` | record keys, database ids, channel ids, and the two queries that span both kinds of transfer |
| `RetrievalHandler`, `RetrievalSession`, `RetrievalCall` | the event handler of a retrieval, the whole call (goroutine, result channel, published events), and which answers lead to which result |
| `Publisher` | the retrieval event publisher |
| `PublisherHistory` | a run of it told from its steps: who is subscribed and what each is due |
| `Broadcast`, `PublisherRefinement` | what the publisher is for, as a machine of its own, and the proof that the publisher refines it |
| `ConnWatcher` | the reconnect watcher of the command line client |
| `MsgPusher` | the nonce-tracking message pusher |
| `TransferMatching` | matching of graphsync requests with data transfer channels |
| `DealArithmetic` | price, piece size and proposal arithmetic |
| `Common` | `Option`, 64-bit wrap-around |

## How it is modelled

Concurrent components are a state, an `Enabled`/`Next` step relation and runs
(`Run` over a sequence of actions); the theorems quantify over every schedule.
Where the source has an object that updates fields, a class has those fields,
and each method is proved to perform exactly one step of the relation on its
`View()` (or, for a loop, a sequence of steps). History that the
specification needs (events fired, vouchers sent, events received) is ghost in
the classes and ordinary data in the transition systems.

Outcomes of outside calls, map iteration order and the choices of `select` are
parameters, so every theorem holds for all of them.

## What the code does that a reader may not expect

- A failed save of a Completed record is only logged
  (`libp2ptransfermgr.go:236-239`), so an expiry pass may report Failed after
  the listener heard Completed. `PromisesAreExactlyEnough` has the datastore's
  promise as one of the five that are needed, no more and no fewer.
- A Completed event is persisted under the text of its id. A server that named
  id 7 as `"007"` would not silence 7 (`CompletedEventSilences`).
- A cleanup in the middle of a pass does not silence its id
  (`CleanupSilences`).
- `byId` accepts path spellings of an id: record keys are cleaned paths, so
  `"/7"` finds record 7, which `All` lists as `"7"` only. `LookupsAgreeExactly`
  says for which ids the two agree.
- `totalPayment` grows before its voucher exists and events are handled after
  the outcome was posted, so the total in the statistics may exceed what was
  sent (`ReportedTotalMayExceedPayments`); `ReportedPayments` says when they
  are equal.
- Piece sizes of 2^63 and more are negative after Go's conversion and are
  mispriced (`PriceBounds`, `LargeSizeIsMispriced`), and so is a term whose end
  epoch does not fit in 64 bits (`OverflowingTermIsMispriced`).

## Assumptions

- `ExpiryProtocol`: the promises of the data transfer server and the caller are
  the constructors of `Clause`, one predicate each in `Keeps`. That they are all
  needed is proved. The other modules assume nothing of the server.
- No real channel has the zero channel id (`NO_CHANNEL`).
- The gateway's gas estimate has the nonce of the message it was asked for, and
  chain nonces are 64-bit (`KeepsNonces`). `CallerNonceIsIgnored` needs neither.
- Peer ids survive their own printing and parsing and contain no dash
  (`PeerCodec.Printable`, `Total`).
- Active transfers listed together with graphsync channels carry ids that parse
  as numbers; the server takes them from the auth tokens.
- Datastore keys start with a slash. Records survive their JSON encoding, except
  that a read may fail.
- Which tokens are expired is the choice of the auth database. Its deletion may
  return an error after deleting some of them.

## Model

| member | source | states |
|---|---|---|
| ExpiryProtocol.FailedNeverFollowsCompleted | libp2ptransfermgr.go:85-161 | for every interleaving of the pass's single calls with callbacks that keeps the server's promises: after a saved Completed record no Failed record is saved and no Failed event is fired for that id, a fired Failed event is the last thing heard of its id, and saved records stay in the store |
| ExpiryProtocol.CompletedEventIsFinal | libp2ptransfermgr.go:221-247 | if in addition the datastore accepts what the callback saves, the listener never hears Failed after Completed, and a Completed event it hears has been saved |
| ExpiryProtocol.PromisesAreExactlyEnough | libp2ptransfermgr.go:85-161 | the listener never hears Failed after Completed, in any schedule, if and only if the full set of five promises is kept: for each one left out there is a schedule in which it hears both, in that order. Under the same sets, and no others, records are final too |
| ExpiryProtocol.LegalRunsKeepInv | libp2ptransfermgr.go:90-160 | the invariant behind it: an id with a Failed record is the one being fired or is retired (no token, not queued, not active), and while the pass reads, saves or fires, its transfer is inactive |
| ExpiryProtocol.PassSettlesExpired | libp2ptransfermgr.go:94-160 | progress for any interleaving: once no call fails and someone listens, every id a pass has listed is still queued, being handled, or settled, and all are settled when the pass is over; settled means Completed and never reported Failed, or Failed and reported exactly once |
| ExpiryOrder.OnlyAsWrittenIsSafe | libp2ptransfermgr.go:85-122 | the order of the calls is needed too: with all five promises kept, the pass is safe as written, and not if it reads the record before it cancels, nor if it deletes the token after the lookup |
| ExpiryEvents.CallbacksReportWhatTheyWereGiven | libp2ptransfermgr.go:221-247 | over every schedule, whatever the pass does meanwhile: apart from failures the store and the listener get exactly what the callbacks were given by the server, in order, Completed states saved and every state reported while someone listens |
| ExpiryEvents.TablesAreTold | libp2ptransfermgr.go:165-197 | over every schedule the live tokens are those prepared and neither cleaned up nor deleted since, and the listener is the one set last |
| ExpiryEvents.NothingFailsBetweenPasses | libp2ptransfermgr.go:228-234 | while no pass runs nothing is saved or reported as Failed, whatever the server reports |
| ExpiryEvents.FailedDeletionEndsPass | libp2ptransfermgr.go:86-91 | after an error of the deletion nothing is saved or reported as Failed until the next tick |
| TransferManager.RecordsMoveForward | libp2ptransfermgr.go:113-152 | with atomic steps and no promise of the server: over any run a record only moves none, Failed, Completed, and Completed is never left |
| TransferManager.RunValid | libp2ptransfermgr.go:222-239 | every persisted key parses as a database id, every record is Failed or Completed, every token id is canonical |
| TransferManager.FailedEventsAreBounded | libp2ptransfermgr.go:85-161 | conservation: Failed events fired for an id, plus its live tokens, plus its entries in the current pass, never exceed what they were at the start plus the requests prepared since; server events add nothing |
| TransferManager.CompletedSilences | libp2ptransfermgr.go:119-122 | once a Completed record is persisted under the id as it is printed, no Failed event is fired for that id in any continuation |
| TransferManager.CompletedEventSilences | libp2ptransfermgr.go:222-239 | a saved Completed event for an id that could still be reported Failed silences it if and only if the text it names the id by has no leading zero |
| TransferManager.PassSettles | libp2ptransfermgr.go:94-160 | a pass without errors empties its list, removes exactly the expired tokens, leaves a record for every expired id, and fires Failed once per expired token exactly if the record was not Completed |
| TransferManager.WhenFailureIsAhead | libp2ptransfermgr.go:85-161 | some continuation without a new prepare fires Failed for an id if and only if a token for it is live or pending and its record is not Completed |
| TransferManager.CleanupSilences | libp2ptransfermgr.go:178-197 | after a cleanup of an id's only token, Failed can still come without a new prepare if and only if the current pass already holds a token of that id and its record is not Completed |
| ManagerEffects.TransferIsShown | libp2ptransfermgr.go:318-361 | what is shown of a transfer: its id, counts, message and payload as they are, the status translated one to one, and the local peer in place of a remote peer that never connected |
| ManagerEffects.ServerEventEffect | libp2ptransfermgr.go:221-247 | a server event adds exactly one notice, about its number and showing its state, if there is a listener, the id is a number and it is no failure, and none otherwise; it saves exactly Completed states |
| ManagerEffects.ListenerIsToldTheNews | libp2ptransfermgr.go:221-247 | over any run, leaving failures aside, the listener is told exactly the server events other than failures that came while it listened, in order and each as it came |
| ManagerEffects.IterationEffect | libp2ptransfermgr.go:94-160 | an expiry iteration told from its replies: nothing without an answer, silence for a Completed record, otherwise one Failed notice showing what the transfer last was; a record is saved exactly if there was none, and if that fails nothing is reported |
| ManagerEffects.TokensAreThosePrepared | libp2ptransfermgr.go:165-197 | over any run, each token stands for the id, CIDs and size of the last prepare with it, unless it was cleaned up or expired since |
| ManagerEffects.PassTakesUpExpired | libp2ptransfermgr.go:86-95 | a pass takes up exactly the tokens it deleted, in order, and none after an error of the deletion |
| Libp2pTransfers.Libp2pTransferManager.PrepareForDataRequest | libp2ptransfermgr.go:165-176 | performs exactly the prepare step: the token maps to the id in decimal and the request's parameters, or nothing changes on an error |
| Libp2pTransfers.Libp2pTransferManager.CleanupPreparedRequest | libp2ptransfermgr.go:181-197 | performs exactly the cleanup step; a delete error outranks a cancel error and an unknown transfer is no error |
| Libp2pTransfers.Libp2pTransferManager.Subscribe | libp2ptransfermgr.go:200-218 | succeeds exactly if there is no listener yet, and there is one afterwards |
| Libp2pTransfers.Libp2pTransferManager.Unsubscribe | libp2ptransfermgr.go:211-216 | the returned closure clears the listener |
| Libp2pTransfers.Libp2pTransferManager.OnServerEvent | libp2ptransfermgr.go:221-247 | performs exactly the server event step: ignores unparsable ids and Failed, saves Completed, then calls the listener |
| Libp2pTransfers.Libp2pTransferManager.ExpireOne | libp2ptransfermgr.go:94-160 | performs exactly one iteration of the expiry loop, with every early exit, and leaves tokens and listener alone |
| Libp2pTransfers.Libp2pTransferManager.CheckTransferExpiry | libp2ptransfermgr.go:85-161 | an uninterrupted pass is the deletion followed by one iteration per expired token, a schedule of the transition system |
| Libp2pTransfers.Libp2pTransferManager.All | libp2ptransfermgr.go:250-267 | for any listing order: succeeds exactly without faults, and then lists exactly the active and the persisted ids, a persisted record hiding an active transfer |
| Libp2pTransfers.Libp2pTransferManager.ListActive | libp2ptransfermgr.go:252-258 | for any order, exactly the active transfers are listed under their ids |
| Libp2pTransfers.Libp2pTransferManager.ListCompleted | libp2ptransfermgr.go:395-416 | for any order of the query, the persisted ones are put over them under their ids without the slash; it fails exactly if the query or one of the records cannot be read |
| Libp2pTransfers.Libp2pTransferManager.ById | libp2ptransfermgr.go:269-287 | it finds something exactly if the transfer is active, or is not and the record under the cleaned key can be read, and shows that one; a lookup error yields nothing |
| Libp2pTransfers.LookupAgreesWithListing | libp2ptransfermgr.go:249-287 | without faults and for an id that is no alias: point lookup succeeds exactly for the listed ids, with the listed state unless both exist, when it gives the active one and the listing the persisted one |
| Libp2pTransfers.LookupsAgreeExactly | libp2ptransfermgr.go:269-287 | lookup and listing agree on an id for all tables if and only if the id is not another spelling of a record's path |
| DatastoreKeys.IdKey | libp2ptransfermgr.go:381-390 | a database id is stored under its own text after a slash and listed under it again |
| DatastoreKeys.PlainKey | libp2ptransfermgr.go:363-366 | the key of any slash-free id is that id after a slash, except for the three path words, which share the root key |
| DatastoreKeys.AliasHasSlash | libp2ptransfermgr.go:363-366 | only texts with a slash can reach the record of another id |
| DatastoreKeys.SlashedIdIsAliased | libp2ptransfermgr.go:363-366 | every database id with a slash before it reaches that id's record |
| DatastoreKeys.KeyIsClean | libp2ptransfermgr.go:387 | cleaning a key again changes nothing |
| DatastoreKeys.ParentCancels | libp2ptransfermgr.go:363-366 | in an id, a segment and the ".." after it cancel wherever they stand |
| Decimal.ParseFormat | libp2ptransfermgr.go:165-168 | every 64-bit id survives decimal printing and parsing |
| Decimal.FormatInjective | libp2ptransfermgr.go:165-168 | two ids print alike only if they are equal |
| Decimal.FormatParse | channelid.go:32-35 | printing after parsing keeps the number, and the text exactly if it has no leading zero |
| Decimal.ParsedNumberCases | libp2ptransfermgr.go:333 | the number used for an id that does not parse: the greatest uint64 if the digits it begins with are too large, and 0 otherwise |
| ChannelIds.PrintParses | channelid.go:12-42 | parsing the printed form gives back every printable channel id |
| ChannelIds.AcceptedTexts | channelid.go:12-42 | a text parses to a channel id if and only if it is two dash-free peer texts that decode to its peers and a number that parses to its 64-bit transfer id, with dashes between |
| ChannelIds.PrintNormalises | channelid.go:12-42 | printing after parsing is a normalisation that parses to the same id; the text survives exactly if its parts were in printed form |
| ChannelIds.PrintInjective | filclient.go:1296-1298 | distinct channel ids print differently |
| ChannelIds.IdSpacesDisjoint | filclient.go:1447-1456 | no text parses both as a manager id and as a channel id, and no printed channel id parses as a number |
| StatusLookup.RoutesAreUnambiguous | filclient.go:1447-1456 | status lookup sends every printed channel id to the channel it was printed for and every numeric text to the transfer manager |
| StatusLookup.ListedIdsAreNumbers | libp2ptransfermgr.go:249-267 | whatever the manager lists after any run is a number, if the ids of the active transfers are |
| StatusLookup.TransfersInProgress | filclient.go:1284-1305 | it succeeds exactly if both sides can be listed; the merged map then has as many entries as both together and holds every entry of both, converted where the source converts, under its own id |
| StatusLookup.MergeTransfers | filclient.go:1295-1302 | the two loops produce such a merge, whatever the iteration order |
| StatusLookup.Rename | filclient.go:1295-1298 | the first loop converts every entry and loses and adds none, for any order and any naming that separates the keys |
| StatusLookup.AddAll | filclient.go:1299-1302 | the second loop is map merge, for any order |
| RetrievalHandler.FirstOutcome | filclient.go:1938-2036 | the first call of finish is success if and only if some error-free prefix of the events holds CleanupComplete, or both DealStatusCompleted and FinishTransfer in either order; it is a failure for a reason if and only if the first error trigger precedes that and has that reason; there is none otherwise |
| RetrievalHandler.PaidDealLedger | filclient.go:1970-2002 | over any events: every requested amount is the running sum of all payments owed so far, the k-th voucher sent has nonce k counted from 0, and the total exceeds the last amount sent by exactly what was owed since |
| RetrievalHandler.VouchersAreThoseCalledFor | filclient.go:1970-2002 | the vouchers requested and the vouchers sent, each and in order, are those the events call for: numbered by the vouchers sent before, for the sum of all that is owed by then |
| RetrievalHandler.FreeDealLedger | filclient.go:2003-2006 | a zero-cost deal never requests or sends a voucher |
| RetrievalHandler.LedgerSettledAtSuccess | filclient.go:1946-2036 | at the event that posts success first, the total equals the last amount sent (0 if none) and the nonce the number of vouchers sent |
| RetrievalHandler.NotesMatchEvents | filclient.go:1964-2056 | Accepted is published once per acceptance, FirstByte once if anything was received and never again, and the progress callback gets every progress in order |
| RetrievalSession.HandlerHearsOwnChannelOnly | filclient.go:1924-1933 | non-interference: over any interleaving the handler's state is that of the events on its own channel delivered after the channel id was set |
| RetrievalSession.ActsOnFirstOutcome | filclient.go:1908-1922 | the value the waiting goroutine receives is the first outcome reported, whatever is posted later; it is success, or a failure for a reason, exactly as the events heard so far decide |
| RetrievalSession.OneVerdictPerCall | filclient.go:2082-2155 | a call that returned published exactly one of Success and Failure, Success exactly if it returned statistics; it published neither exactly if its context was cancelled while waiting |
| RetrievalCall.StatsNeedEveryAnswer | filclient.go:2082-2165 | a call returns statistics only if it opened the channel its handler listens to, received a success, found the root block, got the channel state, and, where the deal costs something, a payment channel and a lane; and no call of it failed |
| RetrievalCall.ResultIsDecidedByAnswers | filclient.go:1888-1903 | whatever a call returns is decided by the answers it got: an error exactly for a failed outside call, a missing root block or a received failure, its context's error exactly if that was done while it waited, statistics exactly otherwise |
| RetrievalCall.EverySuccessNamesWhatWasOwed | filclient.go:2155 | over any run, every Success event names the sum of what was owed in the requests heard by then |
| RetrievalCall.StatsNameWhatWasOwed | filclient.go:2157-2165 | the statistics name that sum as of when they are compiled, and the number of vouchers that went out |
| RetrievalSession.PublishedProtocol | filclient.go:1924-2099 | Accepted and FirstByte come only after Proposed, FirstByte at most once and exactly if progress was heard, Accepted once per acceptance heard |
| RetrievalSession.ProposedComesFirst | filclient.go:2093-2099 | the invariant behind it: the channel id is set only after Proposed was published, and is the zero id before |
| RetrievalSession.ReportedPayments | filclient.go:2154-2165 | the statistics hold the last amount sent plus what was owed and not sent, and the number of vouchers sent; the total is the amount paid if and only if nothing owed is unsent |
| RetrievalSession.ReportedTotalMayExceedPayments | filclient.go:1970-2000 | a schedule in which the transfer finishes, the deal completes and a last request for payment fails reports a total of 5 with no voucher sent |
| RetrievalSession.Retrieval.Finish | filclient.go:1912-1917 | posts into the one-slot result channel if it is empty and drops the value otherwise |
| RetrievalSession.Retrieval.PayVoucher | filclient.go:1971-2006 | performs the funds branch: the total grows first, the nonce only after sending, each failure is reported with its reason |
| RetrievalSession.Retrieval.SettleVoucher | filclient.go:1977-2002 | a voucher fails at creation, shortfall or sending, in this order, and otherwise is sent and moves the nonce |
| RetrievalSession.Retrieval.GiveUp | filclient.go:2007-2018 | performs the branches for rejected, sealed, cancelled and errored deals |
| RetrievalSession.Retrieval.CompleteDeal | filclient.go:2019-2024 | performs the branch for a completed deal: success if all bytes are there, the flag otherwise |
| RetrievalSession.Retrieval.OnDealResponse | filclient.go:1955-2026 | performs exactly the handler's step for every deal status |
| RetrievalSession.Retrieval.FinishBytes | filclient.go:2031-2036 | performs the branch for the end of the transfer: success if the deal is complete, the flag otherwise |
| RetrievalSession.Retrieval.ReceiveProgress | filclient.go:2046-2056 | performs the branch for received data: FirstByte on the first, the callback always |
| RetrievalSession.Retrieval.OnDataTransferEvent | filclient.go:1924-2079 | performs exactly the delivery step of the session, gate included |
| RetrievalSession.Retrieval.RegisterChannel | filclient.go:2097-2099 | performs exactly the step that opens the gate |
| RetrievalSession.Retrieval.AwaitResult | filclient.go:2104-2117 | performs exactly the receive from the result channel and yields its value |
| Publisher.PublishedIsConserved | rep/publisher.go:36-80 | in every reachable state the published events are those processed, then the one in the loop's hands, then the queue, and the queue holds at most 16 |
| Publisher.EachSubscriptionGetsItsSlice | rep/publisher.go:36-73 | each subscription has received, in order and without gap or repetition, the contiguous slice of the published sequence snapshotted while it was registered, but for one event in flight |
| Publisher.AtMostOneEventAfterUnsubscribe | rep/publisher.go:68-72 | in any continuation of an unsubscribe at most one more event reaches the subscription: the one in flight |
| Publisher.CountsLiveSubscriptions | rep/publisher.go:82-87 | the number of subscribers is subscriptions made less subscriptions ended |
| Publisher.RunsKeepInv | rep/publisher.go:36-80 | the invariant behind them: tables, queue and slices agree in every reachable state |
| PublisherHistory.TablesAreTold | rep/publisher.go:56-80 | told from the steps alone: the table holds exactly the subscribers whose unsubscribe was not called, each under the index it was handed, and the events accepted are those published |
| PublisherHistory.EachGetsItsDue | rep/publisher.go:36-73 | told from the steps alone: each subscription gets the n-th event published for every n-th snapshot taken between its subscribe and its unsubscribe, in order, the last possibly still in flight |
| PublisherHistory.LoopEndsWithItsContext | rep/publisher.go:36-41 | the loop ends exactly when it sees its context done, which only a cancel brings about |
| PublisherRefinement.RefinesBroadcast | rep/publisher.go:36-80 | refinement: every schedule of the publisher is, without its queue, loop and snapshots, a schedule of a broadcast in rounds, and both end in corresponding states |
| PublisherRefinement.StepRefines | rep/publisher.go:36-80 | each step of the publisher is the corresponding step of the broadcast, enabled there, or changes nothing the broadcast knows of |
| PublisherRefinement.SubscriptionsAreFeeds | rep/publisher.go:36-73 | each subscription is a feed of that broadcast and has received the part of it |
| Broadcast.EveryFeedGetsItsPart | rep/publisher.go:36-54 | over every run of the broadcast, a feed has received the events announced between its opening and its closing, up to the event of the current round, and publishing is at most 17 events ahead |
| Publisher.RetrievalEventPublisher.SubscribeTo | rep/publisher.go:56-66 | performs the subscribe step under a fresh index |
| Publisher.RetrievalEventPublisher.EndSubscription | rep/publisher.go:68-72 | performs the unsubscribe step; calling it again changes nothing |
| Publisher.RetrievalEventPublisher.PublishEvent | rep/publisher.go:75-80 | appends the event to the queue, or drops it when the context is done |
| Publisher.RetrievalEventPublisher.SubscriberCount | rep/publisher.go:83-87 | the number of subscriptions made less those ended |
| Publisher.RetrievalEventPublisher.TakeEvent | rep/publisher.go:38-41 | the loop takes the oldest event |
| Publisher.RetrievalEventPublisher.TakeSnapshot | rep/publisher.go:42-47 | the loop snapshots the subscribers of that moment, in some order |
| Publisher.RetrievalEventPublisher.CopySubscribers | rep/publisher.go:43-46 | the copy holds every subscriber's index exactly once |
| Publisher.RetrievalEventPublisher.DeliverNext | rep/publisher.go:49-51 | calls one subscriber of the snapshot |
| Publisher.RetrievalEventPublisher.DeliverAll | rep/publisher.go:49-51 | the loop over the snapshot ends with nothing left to deliver and changes only what was received |
| Publisher.RetrievalEventPublisher.LoopTurn | rep/publisher.go:36-54 | an undisturbed turn delivers the oldest event to every current subscription and to no other |
| ConnWatcher.NoDisconnectIsLost | filc/cmds.go:371-396 | in every reachable state a full slot has a goroutine that will poll it, accepted disconnects are reconnect attempts plus the slot, and with the slot empty every disconnect, accepted or dropped, was followed by an attempt |
| ConnWatcher.GoroutinesAreConserved | filc/cmds.go:372-396 | goroutines are conserved: one per accepted disconnect is spawned, each spawned or returned from reconnecting sleeps until it polls, and reconnecting ones are attempts that did not return |
| ConnWatcher.QuietRunsAreShort | filc/cmds.go:384-396 | every step other than a disconnect lowers 3 token + 2 reconnecting + 2 spawning + sleeping |
| ConnWatcher.SettlesAfterLastDisconnect | filc/cmds.go:371-396 | once disconnects stop every schedule is finite; it can go no further exactly when the measure is 0, and then every disconnect has been answered |
| ConnWatcher.ConnWatcher.Disconnected | filc/cmds.go:372-382 | performs the disconnect step for the watched peer and nothing for another |
| ConnWatcher.ConnWatcher.Go | filc/cmds.go:379 | performs exactly the spawn step, which may come any time after the slot was filled |
| ConnWatcher.ConnWatcher.PollDisconnected | filc/cmds.go:384-395 | performs the poll step: reconnects exactly if the slot was full |
| ConnWatcher.ConnWatcher.ReconnectReturned | filc/cmds.go:390-393 | spawns the next goroutine after reconnecting |
| MsgPusher.NoncesAreConsecutive | msgpusher.go:33-81 | over any calls, failures and aliases of the sender, for any gateway whose estimates have the nonce of the message they were asked for: the messages pushed for a resolved key carry consecutive 64-bit nonces from its base without gap or repetition, and the counter is the next one |
| MsgPusher.NoncesAreDistinct | msgpusher.go:33-81 | no nonce is used twice for a key within 2^64 messages |
| MsgPusher.BaseIsFirstChainNonce | msgpusher.go:42-51 | the base is the chain nonce of the first call that resolved the key and read its actor, never read again |
| MsgPusher.PushedIsAccepted | msgpusher.go:33-81 | what was pushed is what the pool accepted: of all calls, in order, exactly the messages offered to a push that answered yes, each offered under the first chain nonce plus the number accepted before for its key; a call succeeds exactly if it adds one |
| MsgPusher.SuccessIsAcceptance | msgpusher.go:55-80 | a call succeeds exactly with the message it offered and the pool accepted: the estimate under the key's nonce, fee cap 4000000000, twice the estimated premium, and the wallet's signature of just that message |
| MsgPusher.ErrorIsOfFirstFailure | msgpusher.go:37-76 | each error is returned exactly for the first outside call that did not answer or refused |
| MsgPusher.StateAfterCall | msgpusher.go:42-80 | a failed call pushes nothing and moves no counter, apart from a first read from the chain; a success records its message and moves its key's counter by one; the caller's message carries the nonce once there is one |
| MsgPusher.CallerNonceIsIgnored | msgpusher.go:53 | whatever gateway, wallet and message pool make of the messages they are given, other nonces in the callers' messages change neither the state after any run nor any result |
| MsgPusher.CallIgnoresNonce | msgpusher.go:53 | one call with another nonce ends in the same state and result, and leaves the same message behind once the key is counted |
| MsgPusher.MsgPusher.MpoolPushMessage | msgpusher.go:33-81 | performs exactly one call of the transition system: state, result, and the caller's message, whose nonce is overwritten before the estimate is asked for |
| TransferMatching.MatchingIsComplete | filclient.go:1356-1432 | for any iteration order: the ids listed are those of channels, request states and diagnostics; one line per request of a channel and one per remaining id; exactly one flagged line per channel, that of its current request |
| TransferMatching.IterationOrderIrrelevant | filclient.go:1365-1382 | two runs over the same tables list the same lines |
| TransferMatching.LinesAreTrue | filclient.go:1356-1432 | for any iteration order every line is true: each channel has its block, its current request first and then the previous ones, and each remaining request its line; each shows exactly the request state, the successful channel lookup and the diagnostics there are, remarks on a failed lookup, a missing state or a missing channel exactly when due, then all graphsync diagnostics in order |
| TransferMatching.OneChannel | filclient.go:1373-1378 | one flagged line for the current request and one plain line per previous one |
| TransferMatching.IndexIsOfLines | filclient.go:1417-1418 | the matched requests are exactly the ids listed so far, each with one of its own lines |
| TransferMatching.GenerateTransfers | filclient.go:1356-1385 | the object's loops list the lines of the channels in some order and then one line per unmatched id in some order; so ids, counts and flags are those above, and every line is true |
| TransferMatching.TransferConverter.ConvertTransfer | filclient.go:1395-1419 | appends exactly the line of the request and marks it as matched |
| TransferMatching.TransferConverter.ConvertPrevious | filclient.go:1375-1378 | appends one unflagged line per request cancelled for a restart, in order |
| TransferMatching.TransferConverter.ConvertOnePrevious | filclient.go:1375-1378 | one turn of that loop appends the next of these lines |
| TransferMatching.TransferConverter.ConvertChannel | filclient.go:1366-1379 | appends the lines of one channel, whether or not its lookup succeeds |
| TransferMatching.TransferConverter.ConvertChannels | filclient.go:1366-1379 | appends the lines of every channel once, in some order |
| TransferMatching.TransferConverter.ConvertIfUnmatched | filclient.go:1423-1425 | appends a line exactly if the request is not listed yet |
| TransferMatching.TransferConverter.CollectUnmatched | filclient.go:1422-1426 | appends one line for each key of a table that is not listed yet, and all its keys are matched afterwards |
| TransferMatching.TransferConverter.CollectRemaining | filclient.go:1421-1432 | appends one line for each remaining id of both tables |
| DealArithmetic.PriceBounds | filclient.go:497-501 | computed·2^30 is at most size·price·duration and less than (computed + duration)·2^30, if and only if the size is below 2^63 or the price 0 |
| DealArithmetic.LargeSizeIsMispriced | filclient.go:498 | a size of 2^63 or more breaks the bounds, and costs less than nothing at a positive price |
| DealArithmetic.PriceMonotone | filclient.go:497-501 | no deal with a smaller or equal non-negative price, size and duration costs more, if and only if the size is below 2^63 or the price or duration is 0 |
| DealArithmetic.SplittingSavesLittle | filclient.go:497-501 | two pieces cost no more than one of their joint size and save at most one unit per epoch, if and only if it is not the case that the joint size alone reaches 2^63 (or price or duration is 0) |
| DealArithmetic.PaddingRoundTrip | filclient.go:1038-1045 | unpadding and padding again is the identity on exactly the sizes not congruent to 127 modulo 128, and adds one otherwise |
| DealArithmetic.PaddedBlocks | filclient.go:641-649 | padding turns 127 bytes into 128 and unpadding turns them back |
| DealArithmetic.MakeDealUnsigned | filclient.go:613-718 | filling in the configuration step by step yields the proposal function, errors included, whose terms the following rows state |
| DealArithmetic.ProposalExistsExactly | filclient.go:634-718 | there is a proposal exactly if every call that is needed answers: the piece computation only without a supplied piece, the padding only below the minimum size, the chain head, the collateral bounds of the proposed size, the label and the encoding |
| DealArithmetic.ProposedTerms | filclient.go:665-710 | a given start epoch, end epoch, price per epoch and verified flag are kept; else the deal starts 20160 epochs after the head and lasts for the duration where that fits in 64 bits, at the price per epoch of the proposed size; the provider's collateral is eleven tenths of the minimum for that size, rounded down, the client's is 0 |
| DealArithmetic.ProposedSizeAndCommitment | filclient.go:634-656 | the proposed size is the greater of the piece's and the minimum; a smaller piece gets the commitment padded between exactly these two sizes (each after its round trip), another keeps its own |
| DealArithmetic.ProposalCostsQuotedPrice | filclient.go:673-684 | without end epoch and price override, price per epoch times term is the price quoted for the larger of piece and minimum size, if and only if start epoch plus duration fits in 64 bits or that size costs nothing per epoch |
| DealArithmetic.OverflowingTermIsMispriced | filclient.go:678-680 | a deal from epoch 1 over the longest 64-bit duration ends before it starts and pays a negative total |

## Left out

- PublishEvent: blocking on a full queue is the precondition of the step; who of several blocked publishers goes first is not modelled.
- AwaitResult: blocking on an empty result channel is the precondition of the step; the goroutine's other steps exist in the transition system only, because they update no variable it shares with the handler.
- CleanupPreparedRequest: the effect of the cancel call on the data transfer server is not part of the object's state; `ExpiryProtocol` has the server's side.
- TransfersInProgress: the conversion of graphsync channel states is a parameter; what it does is not modelled.
- Transfer: the channel id in a line is only present or absent, because the source takes the address of its loop variable and all lines of a run share it.
- PayVoucher: the payment channel address in a voucher, which the handler sees as undefined because `filclient.go:1887` shadows it, is not modelled.
- Network streams, libp2p connections, CBOR, Lotus calls, signing, tracing and logging: each is a parameter that says whether it succeeded.
- The internals of go-data-transfer, graphsync, the payment channel manager, the HTTP transfer server and its auth database, and piece commitment hashing.
- The search by remote address and payload CID (`libp2ptransfermgr.go:289-330`): it stops at the first record that does not match, so a match may be missed.
- Candidate ordering in the command line client: its comparison reads the same index twice, so there is no order to prove.
- The raw block size of a signed proposal, deal labels, legacy deal states, error codes, event constructors, getters and option setters.
- The status text and the checkpoint stages of a channel state.
- The keystore, files on disk, command line parsing and printing, and the IPLD helpers.
- Durations, average speed, and what closing a channel on graceful shutdown does to the remote side.
- Stats: the number of payments is the 64-bit nonce; its conversion to a signed `int` is not modelled.
- Time: the watcher's sleep and the expiry period are steps that may come at any moment.
