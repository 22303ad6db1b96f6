/**
 The event handler of a retrieval: two completion flags that may be raised in
 either order, a ledger of payment vouchers, and the first outcome it reports.
 The outcomes of its outside calls come with each event.
 */
module RetrievalHandler {
  import opened Common

  datatype DealStatus =
    | Accepted | FundsNeeded | FundsNeededLastPayment | Rejected | FundsNeededUnseal | Unsealing
    | Cancelled | Errored | Completed | OtherStatus

  datatype VoucherResult = DealResponse(status: DealStatus, paymentOwed: int) | OtherResult

  datatype Code = Error | CleanupComplete | NewVoucherResult | FinishTransfer | DataReceivedProgress | OtherCode

  /** An event on this session's channel, with what the payment calls answer should they be made. */
  datatype Input = Input(
    code: Code, lastResult: VoucherResult, received: nat,
    created: bool, shortfall: int, sent: bool)

  /** Why the handler reports a failure. */
  datatype Reason =
    | TransferError | VoucherNotCreated | NotEnoughFunds | VoucherNotSent | PaymentOnFreeDeal
    | DealRejected | DataSealed | DealCancelled | DealErrored

  datatype Outcome = Success | Failure(reason: Reason)

  datatype Voucher = Voucher(nonce: nat, amount: int)

  /** Events published to the retrieval's subscribers by the handler. */
  datatype Note = AcceptedNote | FirstByteNote

  datatype Handler = Handler(
    nonce: nat, totalPayment: int, allBytesReceived: bool, dealComplete: bool, receivedFirstByte: bool,
    // history
    first: Option<Outcome>,        // argument of the first call of finish
    requested: seq<Voucher>,       // arguments of CreateVoucher
    sent: seq<Voucher>,            // requests whose voucher was sent
    notes: seq<Note>,
    progress: seq<nat>)            // arguments of the progress callback

  const INITIAL := Handler(0, 0, false, false, false, None, [], [], [], [])

  function Finish(h: Handler, o: Outcome): Handler {
    if h.first.None? then h.(first := Some(o)) else h
  }

  predicate WantsPayment(i: Input) {
    i.code.NewVoucherResult? && i.lastResult.DealResponse? && i.lastResult.status in {FundsNeeded, FundsNeededLastPayment}
  }

  predicate HasStatus(i: Input, status: DealStatus) {
    i.code.NewVoucherResult? && i.lastResult.DealResponse? && i.lastResult.status == status
  }

  /** The branch that answers a request for funds. */
  function Pay(h: Handler, pchRequired: bool, owed: int, i: Input): Handler {
    if !pchRequired then Finish(h, Failure(PaymentOnFreeDeal))
    else
      var v := Voucher(h.nonce, h.totalPayment + owed);
      var h1 := h.(totalPayment := h.totalPayment + owed, requested := h.requested + [v]);
      if !i.created then Finish(h1, Failure(VoucherNotCreated))
      else if i.shortfall > 0 then Finish(h1, Failure(NotEnoughFunds))
      else if !i.sent then Finish(h1, Failure(VoucherNotSent))
      else h1.(nonce := Wrap64(h.nonce + 1), sent := h.sent + [v])
  }

  function Handle(h: Handler, pchRequired: bool, i: Input): Handler {
    match i.code
    case Error => Finish(h, Failure(TransferError))
    case CleanupComplete => Finish(h, Success)
    case FinishTransfer => if h.dealComplete then Finish(h, Success) else h.(allBytesReceived := true)
    case DataReceivedProgress =>
      h.(receivedFirstByte := true,
      notes := if h.receivedFirstByte then h.notes else h.notes + [FirstByteNote],
      progress := h.progress + [i.received])
    case OtherCode => h
    case NewVoucherResult =>
      match i.lastResult
      case OtherResult => h
      case DealResponse(status, owed) =>
        match status
        case Accepted => h.(notes := h.notes + [AcceptedNote])
        case FundsNeeded => Pay(h, pchRequired, owed, i)
        case FundsNeededLastPayment => Pay(h, pchRequired, owed, i)
        case Rejected => Finish(h, Failure(DealRejected))
        case FundsNeededUnseal => Finish(h, Failure(DataSealed))
        case Unsealing => Finish(h, Failure(DataSealed))
        case Cancelled => Finish(h, Failure(DealCancelled))
        case Errored => Finish(h, Failure(DealErrored))
        case Completed => if h.allBytesReceived then Finish(h, Success) else h.(dealComplete := true)
        case OtherStatus => h
  }

  function HandleAll(pchRequired: bool, inputs: seq<Input>): Handler {
    if inputs == [] then INITIAL
    else Handle(HandleAll(pchRequired, inputs[..|inputs| - 1]), pchRequired, inputs[|inputs| - 1])
  }

  // ----- the first outcome -----

  /** The failure an event calls for by itself, whatever came before it. */
  function ErrorOf(pchRequired: bool, i: Input): Option<Reason> {
    if i.code.Error? then Some(TransferError)
    else if WantsPayment(i) then
      if !pchRequired then Some(PaymentOnFreeDeal)
      else if !i.created then Some(VoucherNotCreated)
      else if i.shortfall > 0 then Some(NotEnoughFunds)
      else if !i.sent then Some(VoucherNotSent)
      else None
    else if HasStatus(i, Rejected) then Some(DealRejected)
    else if HasStatus(i, FundsNeededUnseal) || HasStatus(i, Unsealing) then Some(DataSealed)
    else if HasStatus(i, Cancelled) then Some(DealCancelled)
    else if HasStatus(i, Errored) then Some(DealErrored)
    else None
  }

  predicate NoError(pchRequired: bool, inputs: seq<Input>) {
    forall k :: 0 <= k < |inputs| ==> ErrorOf(pchRequired, inputs[k]).None?
  }

  predicate SawCleanup(inputs: seq<Input>) { exists k :: 0 <= k < |inputs| && inputs[k].code.CleanupComplete? }

  predicate SawCompleted(inputs: seq<Input>) { exists k :: 0 <= k < |inputs| && HasStatus(inputs[k], Completed) }

  predicate SawFinish(inputs: seq<Input>) { exists k :: 0 <= k < |inputs| && inputs[k].code.FinishTransfer? }

  /** The retrieval is over: cleanup was reported, or both the deal and the transfer are complete, in either order. */
  predicate Complete(inputs: seq<Input>) {
    SawCleanup(inputs) || (SawCompleted(inputs) && SawFinish(inputs))
  }

  predicate SucceedsAt(pchRequired: bool, inputs: seq<Input>, n: int) {
    0 <= n <= |inputs| && NoError(pchRequired, inputs[..n]) && Complete(inputs[..n])
  }

  predicate FailsAt(pchRequired: bool, inputs: seq<Input>, n: int) {
    && 0 <= n < |inputs| && NoError(pchRequired, inputs[..n]) && !Complete(inputs[..n])
    && ErrorOf(pchRequired, inputs[n]).Some?
  }

  lemma SawSnoc(pchRequired: bool, front: seq<Input>, i: Input)
    ensures NoError(pchRequired, front + [i]) <==> NoError(pchRequired, front) && ErrorOf(pchRequired, i).None?
    ensures SawCleanup(front + [i]) <==> SawCleanup(front) || i.code.CleanupComplete?
    ensures SawCompleted(front + [i]) <==> SawCompleted(front) || HasStatus(i, Completed)
    ensures SawFinish(front + [i]) <==> SawFinish(front) || i.code.FinishTransfer?
  {
    var inputs := front + [i];
    assert inputs[|front|] == i;
    assert forall k :: 0 <= k < |front| ==> inputs[k] == front[k];
  }

  /** While nothing has been reported, the flags are what the events so far say. */
  ghost predicate FlagsMatch(h: Handler, inputs: seq<Input>) {
    && !Complete(inputs)
    && (h.dealComplete <==> SawCompleted(inputs))
    && (h.allBytesReceived <==> SawFinish(inputs))
  }

  /** What one event means for flags and outcome, given the events before it. */
  ghost predicate Decides(h': Handler, pchRequired: bool, front: seq<Input>, i: Input) {
    match ErrorOf(pchRequired, i)
    case Some(reason) => h'.first == Some(Failure(reason))
    case None =>
      if Complete(front + [i]) then h'.first == Some(Success)
      else h'.first.None? && FlagsMatch(h', front + [i])
  }

  /** How a voucher result moves the flags: it raises the deal's flag or ends the retrieval. */
  ghost predicate FlagsMove(h: Handler, h': Handler, pchRequired: bool, i: Input) {
    var error := ErrorOf(pchRequired, i);
    && h'.allBytesReceived == h.allBytesReceived
    && (error.Some? ==> h'.first == Some(Failure(error.value)))
    && (error.None? && !HasStatus(i, Completed) ==> h'.first.None? && h'.dealComplete == h.dealComplete)
    && (HasStatus(i, Completed) ==>
      if h.allBytesReceived then h'.first == Some(Success) else h'.first.None? && h'.dealComplete)
  }

  lemma PayMovesFlags(h: Handler, pchRequired: bool, i: Input)
    requires h.first.None? && WantsPayment(i)
    ensures FlagsMove(h, Pay(h, pchRequired, i.lastResult.paymentOwed, i), pchRequired, i)
  {
  }

  lemma ResponseMovesFlags(h: Handler, pchRequired: bool, i: Input)
    requires h.first.None? && i.code.NewVoucherResult?
    ensures FlagsMove(h, Handle(h, pchRequired, i), pchRequired, i)
  {
    if WantsPayment(i) {
      PayMovesFlags(h, pchRequired, i);
      assert Handle(h, pchRequired, i) == Pay(h, pchRequired, i.lastResult.paymentOwed, i);
    }
  }

  lemma ResponseDecides(h: Handler, pchRequired: bool, front: seq<Input>, i: Input)
    requires h.first.None? && FlagsMatch(h, front) && i.code.NewVoucherResult?
    ensures Decides(Handle(h, pchRequired, i), pchRequired, front, i)
  {
    SawSnoc(pchRequired, front, i);
    ResponseMovesFlags(h, pchRequired, i);
  }

  lemma TransferEventDecides(h: Handler, pchRequired: bool, front: seq<Input>, i: Input)
    requires h.first.None? && FlagsMatch(h, front) && !i.code.NewVoucherResult?
    ensures Decides(Handle(h, pchRequired, i), pchRequired, front, i)
  {
    SawSnoc(pchRequired, front, i);
  }

  /** One event, as far as flags and outcome go. */
  lemma NextOutcome(h: Handler, pchRequired: bool, front: seq<Input>, i: Input)
    requires h.first.None? && FlagsMatch(h, front)
    ensures Decides(Handle(h, pchRequired, i), pchRequired, front, i)
  {
    if i.code.NewVoucherResult? {
      ResponseDecides(h, pchRequired, front, i);
    } else {
      TransferEventDecides(h, pchRequired, front, i);
    }
  }

  /** What the first outcome says about the events. */
  ghost predicate Explained(h: Handler, pchRequired: bool, inputs: seq<Input>) {
    match h.first
    case None => NoError(pchRequired, inputs) && FlagsMatch(h, inputs)
    case Some(Success) => exists n :: SucceedsAt(pchRequired, inputs, n)
    case Some(Failure(reason)) => exists n :: FailsAt(pchRequired, inputs, n) && ErrorOf(pchRequired, inputs[n]) == Some(reason)
  }

  /** Later events change nothing about an earlier decision. */
  lemma DecisionStays(h: Handler, pchRequired: bool, front: seq<Input>, i: Input)
    requires h.first.Some? && Explained(h, pchRequired, front)
    ensures Explained(h, pchRequired, front + [i])
  {
    assert forall n :: 0 <= n <= |front| ==> (front + [i])[..n] == front[..n];
    match h.first.value {
      case Success =>
        var n :| SucceedsAt(pchRequired, front, n);
        assert SucceedsAt(pchRequired, front + [i], n);
      case Failure(reason) =>
        var n :| FailsAt(pchRequired, front, n) && ErrorOf(pchRequired, front[n]) == Some(reason);
        assert FailsAt(pchRequired, front + [i], n);
    }
  }

  lemma DecisionMade(h: Handler, pchRequired: bool, front: seq<Input>, i: Input)
    requires h.first.None? && Explained(h, pchRequired, front)
    ensures Explained(Handle(h, pchRequired, i), pchRequired, front + [i])
  {
    var inputs := front + [i];
    NextOutcome(h, pchRequired, front, i);
    SawSnoc(pchRequired, front, i);
    assert inputs[..|front|] == front && inputs[..|inputs|] == inputs;
    if ErrorOf(pchRequired, i).Some? {
      assert FailsAt(pchRequired, inputs, |front|);
    } else if Complete(inputs) {
      assert SucceedsAt(pchRequired, inputs, |inputs|);
    }
  }

  lemma FirstStays(h: Handler, pchRequired: bool, i: Input)
    requires h.first.Some?
    ensures Handle(h, pchRequired, i).first == h.first
  {
  }

  lemma {:induction false} OutcomeExplained(pchRequired: bool, inputs: seq<Input>)
    ensures Explained(HandleAll(pchRequired, inputs), pchRequired, inputs)
  {
    if inputs == [] {
    } else {
      var n := |inputs| - 1;
      var front, i := inputs[..n], inputs[n];
      OutcomeExplained(pchRequired, front);
      assert inputs == front + [i];
      var h := HandleAll(pchRequired, front);
      if h.first.Some? {
        FirstStays(h, pchRequired, i);
        var h' := Handle(h, pchRequired, i);
        DecisionStays(h, pchRequired, front, i);
      } else {
        DecisionMade(h, pchRequired, front, i);
      }
    }
  }

  lemma CompleteStays(inputs: seq<Input>, m: nat, n: nat)
    requires m <= n <= |inputs| && Complete(inputs[..m])
    ensures Complete(inputs[..n])
  {
    assert forall k :: 0 <= k < m ==> inputs[..m][k] == inputs[..n][k];
  }

  lemma ErrorInPrefix(pchRequired: bool, inputs: seq<Input>, m: nat, n: nat)
    requires m < n <= |inputs| && ErrorOf(pchRequired, inputs[m]).Some?
    ensures !NoError(pchRequired, inputs[..n])
  {
    assert inputs[..n][m] == inputs[m];
  }

  /** The three possible verdicts exclude each other, and a failure has one cause. */
  lemma VerdictsExclude(pchRequired: bool, inputs: seq<Input>, m: int, n: int)
    requires FailsAt(pchRequired, inputs, m)
    ensures !SucceedsAt(pchRequired, inputs, n)
    ensures FailsAt(pchRequired, inputs, n) ==> n == m
  {
    if 0 <= n <= m {
      if Complete(inputs[..n]) {
        CompleteStays(inputs, n, m);
      }
      if n < m && ErrorOf(pchRequired, inputs[n]).Some? {
        ErrorInPrefix(pchRequired, inputs, n, m);
      }
    } else if m < n <= |inputs| {
      ErrorInPrefix(pchRequired, inputs, m, n);
    }
  }

  ghost predicate Succeeds(pchRequired: bool, inputs: seq<Input>) { exists n :: SucceedsAt(pchRequired, inputs, n) }

  ghost predicate FailsFor(pchRequired: bool, inputs: seq<Input>, reason: Reason) {
    exists n :: FailsAt(pchRequired, inputs, n) && ErrorOf(pchRequired, inputs[n]) == Some(reason)
  }

  lemma VerdictsExclusive(pchRequired: bool, inputs: seq<Input>, r: Reason, r': Reason)
    ensures Succeeds(pchRequired, inputs) ==> Complete(inputs) && !FailsFor(pchRequired, inputs, r)
    ensures FailsFor(pchRequired, inputs, r) ==> !NoError(pchRequired, inputs)
    ensures FailsFor(pchRequired, inputs, r) && FailsFor(pchRequired, inputs, r') ==> r == r'
  {
    assert inputs[..|inputs|] == inputs;
    if Succeeds(pchRequired, inputs) {
      var n :| SucceedsAt(pchRequired, inputs, n);
      CompleteStays(inputs, n, |inputs|);
    }
    if FailsFor(pchRequired, inputs, r) {
      var m :| FailsAt(pchRequired, inputs, m) && ErrorOf(pchRequired, inputs[m]) == Some(r);
      ErrorInPrefix(pchRequired, inputs, m, |inputs|);
      if Succeeds(pchRequired, inputs) {
        var n :| SucceedsAt(pchRequired, inputs, n);
        VerdictsExclude(pchRequired, inputs, m, n);
      }
      if FailsFor(pchRequired, inputs, r') {
        var n :| FailsAt(pchRequired, inputs, n) && ErrorOf(pchRequired, inputs[n]) == Some(r');
        VerdictsExclude(pchRequired, inputs, m, n);
      }
    }
  }

  lemma OutcomeVerdict(pchRequired: bool, inputs: seq<Input>)
    ensures match HandleAll(pchRequired, inputs).first
            case None => NoError(pchRequired, inputs) && !Complete(inputs)
            case Some(Success) => Succeeds(pchRequired, inputs)
            case Some(Failure(reason)) => FailsFor(pchRequired, inputs, reason)
  {
    OutcomeExplained(pchRequired, inputs);
  }

  /**
   The first outcome, read off the events. It is success exactly when some prefix
   without an error trigger contains CleanupComplete, or DealStatusCompleted and
   FinishTransfer in either order; it is a failure exactly when the first error
   trigger comes before that, and then for the reason of that trigger.
   */
  lemma {:induction false} FirstOutcome(pchRequired: bool, inputs: seq<Input>, reason: Reason)
    ensures var first := HandleAll(pchRequired, inputs).first;
            && (first == Some(Success) <==> Succeeds(pchRequired, inputs))
            && (first == Some(Failure(reason)) <==> FailsFor(pchRequired, inputs, reason))
            && (first.None? <==> NoError(pchRequired, inputs) && !Complete(inputs))
  {
    var first := HandleAll(pchRequired, inputs).first;
    OutcomeVerdict(pchRequired, inputs);
    VerdictsExclusive(pchRequired, inputs, reason, reason);
    if first.Some? && first.value.Failure? {
      VerdictsExclusive(pchRequired, inputs, first.value.reason, reason);
    }
  }

  // ----- the payment ledger -----

  /** Amounts owed in the requests for funds so far. */
  function Payments(inputs: seq<Input>): seq<int> {
    if inputs == [] then []
    else
      var i := inputs[|inputs| - 1];
      Payments(inputs[..|inputs| - 1]) + if WantsPayment(i) then [i.lastResult.paymentOwed] else []
  }

  function Sum(s: seq<int>): int {
    if s == [] then 0 else Sum(s[..|s| - 1]) + s[|s| - 1]
  }

  predicate VoucherGoesOut(i: Input) { WantsPayment(i) && i.created && i.shortfall <= 0 && i.sent }

  function Sends(inputs: seq<Input>): nat {
    if inputs == [] then 0
    else Sends(inputs[..|inputs| - 1]) + if VoucherGoesOut(inputs[|inputs| - 1]) then 1 else 0
  }

  /** Amounts owed in the requests for funds since the last voucher that went out. */
  function Unsent(inputs: seq<Input>): int {
    if inputs == [] then 0
    else
      var i := inputs[|inputs| - 1];
      if VoucherGoesOut(i) then 0
      else Unsent(inputs[..|inputs| - 1]) + if WantsPayment(i) then i.lastResult.paymentOwed else 0
  }

  function LastAmount(sent: seq<Voucher>): int {
    if sent == [] then 0 else sent[|sent| - 1].amount
  }

  /** The k-th voucher sent carries nonce k, and the nonce counts the vouchers sent (in 64 bits). */
  ghost predicate NoncesCount(h: Handler, inputs: seq<Input>) {
    && |h.sent| == Sends(inputs) && h.nonce == Wrap64(|h.sent|)
    && (forall k :: 0 <= k < |h.sent| ==> h.sent[k].nonce == Wrap64(k) && h.sent[k] in h.requested)
  }

  /** Every requested amount is the running sum of what was owed. */
  ghost predicate AmountsRun(h: Handler, owed: seq<int>) {
    && h.totalPayment == Sum(owed)
    && |h.requested| == |owed|
    && forall j :: 0 <= j < |h.requested| ==> h.requested[j].amount == Sum(owed[..j + 1])
  }

  /** The total is the last amount sent and what was owed since. */
  ghost predicate TotalSplits(h: Handler, inputs: seq<Input>) {
    h.totalPayment == LastAmount(h.sent) + Unsent(inputs)
  }

  lemma SnocParts<T>(front: seq<T>, last: T)
    ensures (front + [last])[..|front|] == front && (front + [last])[|front|] == last
  {
  }

  /** What one event does to the ledger of a paid deal. */
  ghost predicate LedgerEffect(h: Handler, h': Handler, i: Input) {
    if WantsPayment(i) then
      var v := Voucher(h.nonce, h.totalPayment + i.lastResult.paymentOwed);
      && h'.totalPayment == v.amount && h'.requested == h.requested + [v]
      && (if VoucherGoesOut(i) then h'.sent == h.sent + [v] && h'.nonce == Wrap64(h.nonce + 1)
          else h'.sent == h.sent && h'.nonce == h.nonce)
    else
      h'.totalPayment == h.totalPayment && h'.requested == h.requested && h'.sent == h.sent && h'.nonce == h.nonce
  }

  lemma PayHasLedgerEffect(h: Handler, i: Input)
    requires WantsPayment(i)
    ensures LedgerEffect(h, Pay(h, true, i.lastResult.paymentOwed, i), i)
  {
  }

  lemma OthersPayNothing(h: Handler, pchRequired: bool, i: Input)
    requires !WantsPayment(i)
    ensures var h' := Handle(h, pchRequired, i);
            h'.requested == h.requested && h'.sent == h.sent && h'.totalPayment == h.totalPayment && h'.nonce == h.nonce
  {
  }

  lemma HandleHasLedgerEffect(h: Handler, i: Input)
    ensures LedgerEffect(h, Handle(h, true, i), i)
  {
    if WantsPayment(i) {
      PayHasLedgerEffect(h, i);
    } else {
      OthersPayNothing(h, true, i);
    }
  }

  lemma NoncesStep(h: Handler, h': Handler, front: seq<Input>, i: Input)
    requires NoncesCount(h, front) && LedgerEffect(h, h', i)
    ensures NoncesCount(h', front + [i])
  {
    SnocParts(front, i);
  }

  lemma RunningSum(owed: seq<int>, next: int, j: nat)
    requires j < |owed| + 1
    ensures Sum((owed + [next])[..j + 1]) == if j < |owed| then Sum(owed[..j + 1]) else Sum(owed) + next
  {
    var all := owed + [next];
    if j < |owed| {
      assert all[..j + 1] == owed[..j + 1];
    } else {
      assert all[..j + 1] == all;
      SnocParts(owed, next);
    }
  }

  lemma AmountsStep(h: Handler, h': Handler, front: seq<Input>, i: Input)
    requires AmountsRun(h, Payments(front)) && LedgerEffect(h, h', i)
    ensures AmountsRun(h', Payments(front + [i]))
  {
    SnocParts(front, i);
    if WantsPayment(i) {
      var owed, next := Payments(front), i.lastResult.paymentOwed;
      SnocParts(owed, next);
      assert Payments(front + [i]) == owed + [next];
      forall j | 0 <= j < |h'.requested|
        ensures h'.requested[j].amount == Sum((owed + [next])[..j + 1])
      {
        RunningSum(owed, next, j);
      }
    } else {
      assert Payments(front + [i]) == Payments(front);
    }
  }

  lemma TotalStep(h: Handler, h': Handler, front: seq<Input>, i: Input)
    requires TotalSplits(h, front) && LedgerEffect(h, h', i)
    ensures TotalSplits(h', front + [i])
  {
    SnocParts(front, i);
  }

  ghost predicate Ledger(h: Handler, inputs: seq<Input>) {
    AmountsRun(h, Payments(inputs)) && NoncesCount(h, inputs) && TotalSplits(h, inputs)
  }

  lemma LedgerStep(h: Handler, h': Handler, front: seq<Input>, i: Input)
    requires Ledger(h, front) && LedgerEffect(h, h', i)
    ensures Ledger(h', front + [i])
  {
    AmountsStep(h, h', front, i);
    NoncesStep(h, h', front, i);
    TotalStep(h, h', front, i);
  }

  lemma LedgerSnoc(front: seq<Input>, i: Input)
    requires Ledger(HandleAll(true, front), front)
    ensures Ledger(HandleAll(true, front + [i]), front + [i])
  {
    SnocParts(front, i);
    var h, h' := HandleAll(true, front), HandleAll(true, front + [i]);
    HandleHasLedgerEffect(h, i);
    LedgerStep(h, h', front, i);
  }

  /**
   The ledger of a paid deal. Every requested amount is the running sum of all
   payments owed so far; the k-th voucher sent carries nonce k (from 0); and the
   total exceeds the last amount sent by exactly what was owed since then.
   */
  lemma {:induction false} PaidDealLedger(inputs: seq<Input>)
    ensures Ledger(HandleAll(true, inputs), inputs)
  {
    if inputs == [] {
    } else {
      var n := |inputs| - 1;
      PaidDealLedger(inputs[..n]);
      LedgerSnoc(inputs[..n], inputs[n]);
      assert inputs == inputs[..n] + [inputs[n]];
    }
  }

  /** The voucher an event asks for, after the events before it: numbered by those sent, for all that is owed by now. */
  function VoucherFor(front: seq<Input>, i: Input): Voucher {
    Voucher(Wrap64(Sends(front)), Sum(Payments(front + [i])))
  }

  /** The vouchers requested, and those sent, told from the events alone. */
  function RequestsFor(inputs: seq<Input>): seq<Voucher> {
    if inputs == [] then []
    else
      var front, i := inputs[..|inputs| - 1], inputs[|inputs| - 1];
      RequestsFor(front) + if WantsPayment(i) then [VoucherFor(front, i)] else []
  }

  function SentFor(inputs: seq<Input>): seq<Voucher> {
    if inputs == [] then []
    else
      var front, i := inputs[..|inputs| - 1], inputs[|inputs| - 1];
      SentFor(front) + if VoucherGoesOut(i) then [VoucherFor(front, i)] else []
  }

  lemma VouchersStep(h: Handler, h': Handler, front: seq<Input>, i: Input)
    requires Ledger(h, front) && LedgerEffect(h, h', i)
    ensures h'.requested == h.requested + (if WantsPayment(i) then [VoucherFor(front, i)] else [])
    ensures h'.sent == h.sent + (if VoucherGoesOut(i) then [VoucherFor(front, i)] else [])
  {
    if WantsPayment(i) {
      var owed, next := Payments(front), i.lastResult.paymentOwed;
      SnocParts(front, i);
      SnocParts(owed, next);
      assert Payments(front + [i]) == owed + [next];
    }
  }

  /** On a paid deal every voucher requested and every voucher sent is the one the events call for, in order. */
  lemma {:induction false} VouchersAreThoseCalledFor(inputs: seq<Input>)
    ensures var h := HandleAll(true, inputs); h.requested == RequestsFor(inputs) && h.sent == SentFor(inputs)
  {
    if inputs == [] {
    } else {
      var front, i := inputs[..|inputs| - 1], inputs[|inputs| - 1];
      VouchersAreThoseCalledFor(front);
      PaidDealLedger(front);
      HandleHasLedgerEffect(HandleAll(true, front), i);
      VouchersStep(HandleAll(true, front), HandleAll(true, inputs), front, i);
    }
  }

  lemma FreeDealPaysNothing(h: Handler, i: Input)
    ensures var h' := Handle(h, false, i);
            h'.requested == h.requested && h'.sent == h.sent && h'.totalPayment == h.totalPayment && h'.nonce == h.nonce
  {
    if !WantsPayment(i) {
      OthersPayNothing(h, false, i);
    }
  }

  /** A deal determined to cost nothing never requests a voucher. */
  lemma {:induction false} FreeDealLedger(inputs: seq<Input>)
    ensures var h := HandleAll(false, inputs);
            h.requested == [] && h.sent == [] && h.totalPayment == 0 && h.nonce == 0
  {
    if inputs == [] {
    } else {
      var n := |inputs| - 1;
      FreeDealLedger(inputs[..n]);
      FreeDealPaysNothing(HandleAll(false, inputs[..n]), inputs[n]);
    }
  }

  lemma {:induction false} NothingUnsent(pchRequired: bool, inputs: seq<Input>)
    requires pchRequired && NoError(pchRequired, inputs)
    ensures Unsent(inputs) == 0
  {
    if inputs == [] {
    } else {
      var n := |inputs| - 1;
      assert inputs == inputs[..n] + [inputs[n]];
      SawSnoc(pchRequired, inputs[..n], inputs[n]);
      NothingUnsent(pchRequired, inputs[..n]);
    }
  }

  /** Reporting success leaves the ledger alone. */
  lemma SuccessPaysNothing(h: Handler, pchRequired: bool, i: Input)
    requires h.first.None? && Handle(h, pchRequired, i).first == Some(Success)
    ensures var h' := Handle(h, pchRequired, i);
            h'.totalPayment == h.totalPayment && h'.sent == h.sent && h'.nonce == h.nonce
  {
  }

  /**
   When success is the first outcome, then at the moment it is reported the total
   payment is the last amount sent (0 if none) and the nonce counts the vouchers sent.
   */
  lemma {:induction false} LedgerSettledAtSuccess(pchRequired: bool, inputs: seq<Input>, i: Input)
    requires HandleAll(pchRequired, inputs).first.None?
    requires HandleAll(pchRequired, inputs + [i]).first == Some(Success)
    ensures var h := HandleAll(pchRequired, inputs + [i]);
            h.totalPayment == LastAmount(h.sent) && h.nonce == Wrap64(|h.sent|)
  {
    SnocParts(inputs, i);
    OutcomeVerdict(pchRequired, inputs);
    SuccessPaysNothing(HandleAll(pchRequired, inputs), pchRequired, i);
    if pchRequired {
      PaidDealLedger(inputs);
      NothingUnsent(pchRequired, inputs);
    } else {
      FreeDealLedger(inputs);
    }
  }

  // ----- what subscribers and the progress callback are told -----

  function Count(notes: seq<Note>, note: Note): nat {
    if notes == [] then 0 else Count(notes[..|notes| - 1], note) + if notes[|notes| - 1] == note then 1 else 0
  }

  function Accepts(inputs: seq<Input>): nat {
    if inputs == [] then 0
    else Accepts(inputs[..|inputs| - 1]) + if HasStatus(inputs[|inputs| - 1], Accepted) then 1 else 0
  }

  function ProgressOf(inputs: seq<Input>): seq<nat> {
    if inputs == [] then []
    else
      var i := inputs[|inputs| - 1];
      ProgressOf(inputs[..|inputs| - 1]) + if i.code.DataReceivedProgress? then [i.received] else []
  }

  /** What one event publishes and reports. */
  ghost predicate NotesEffect(h: Handler, h': Handler, i: Input) {
    && h'.receivedFirstByte == (h.receivedFirstByte || i.code.DataReceivedProgress?)
    && h'.progress == (if i.code.DataReceivedProgress? then h.progress + [i.received] else h.progress)
    && h'.notes == (if HasStatus(i, Accepted) then h.notes + [AcceptedNote]
                    else if i.code.DataReceivedProgress? && !h.receivedFirstByte then h.notes + [FirstByteNote]
                    else h.notes)
  }

  lemma ResponseHasNotesEffect(h: Handler, pchRequired: bool, i: Input)
    requires i.code.NewVoucherResult?
    ensures NotesEffect(h, Handle(h, pchRequired, i), i)
  {
  }

  lemma HandleHasNotesEffect(h: Handler, pchRequired: bool, i: Input)
    ensures NotesEffect(h, Handle(h, pchRequired, i), i)
  {
    if i.code.NewVoucherResult? {
      ResponseHasNotesEffect(h, pchRequired, i);
    }
  }

  lemma CountNote(notes: seq<Note>, n: Note, note: Note)
    ensures Count(notes + [n], note) == Count(notes, note) + if n == note then 1 else 0
  {
    SnocParts(notes, n);
  }

  ghost predicate NotesMatch(h: Handler, inputs: seq<Input>) {
    && Count(h.notes, AcceptedNote) == Accepts(inputs)
    && Count(h.notes, FirstByteNote) == (if ProgressOf(inputs) == [] then 0 else 1)
    && h.progress == ProgressOf(inputs)
    && (h.receivedFirstByte <==> ProgressOf(inputs) != [])
  }

  lemma AcceptanceNoted(h: Handler, h': Handler, front: seq<Input>, i: Input)
    requires NotesMatch(h, front) && NotesEffect(h, h', i) && HasStatus(i, Accepted)
    ensures NotesMatch(h', front + [i])
  {
    SnocParts(front, i);
    CountNote(h.notes, AcceptedNote, AcceptedNote);
    CountNote(h.notes, AcceptedNote, FirstByteNote);
    assert ProgressOf(front + [i]) == ProgressOf(front);
  }

  lemma ProgressNoted(h: Handler, h': Handler, front: seq<Input>, i: Input)
    requires NotesMatch(h, front) && NotesEffect(h, h', i) && i.code.DataReceivedProgress?
    ensures NotesMatch(h', front + [i])
  {
    SnocParts(front, i);
    CountNote(h.notes, FirstByteNote, AcceptedNote);
    CountNote(h.notes, FirstByteNote, FirstByteNote);
    assert ProgressOf(front + [i]) == ProgressOf(front) + [i.received];
  }

  lemma NothingNoted(h: Handler, h': Handler, front: seq<Input>, i: Input)
    requires NotesMatch(h, front) && NotesEffect(h, h', i) && !HasStatus(i, Accepted) && !i.code.DataReceivedProgress?
    ensures NotesMatch(h', front + [i])
  {
    SnocParts(front, i);
    assert ProgressOf(front + [i]) == ProgressOf(front);
  }

  lemma NotesStep(h: Handler, h': Handler, front: seq<Input>, i: Input)
    requires NotesMatch(h, front) && NotesEffect(h, h', i)
    ensures NotesMatch(h', front + [i])
  {
    if HasStatus(i, Accepted) {
      AcceptanceNoted(h, h', front, i);
    } else if i.code.DataReceivedProgress? {
      ProgressNoted(h, h', front, i);
    } else {
      NothingNoted(h, h', front, i);
    }
  }

  lemma NotesSnoc(pchRequired: bool, front: seq<Input>, i: Input)
    requires NotesMatch(HandleAll(pchRequired, front), front)
    ensures NotesMatch(HandleAll(pchRequired, front + [i]), front + [i])
  {
    SnocParts(front, i);
    var h := HandleAll(pchRequired, front);
    HandleHasNotesEffect(h, pchRequired, i);
    NotesStep(h, Handle(h, pchRequired, i), front, i);
  }

  /**
   Accepted is published once per acceptance of the deal, FirstByte once if
   anything was received and never again, and the progress callback is called
   with every reported progress in order.
   */
  lemma {:induction false} NotesMatchEvents(pchRequired: bool, inputs: seq<Input>)
    ensures NotesMatch(HandleAll(pchRequired, inputs), inputs)
  {
    if inputs == [] {
    } else {
      var front, i := inputs[..|inputs| - 1], inputs[|inputs| - 1];
      assert front + [i] == inputs;
      NotesMatchEvents(pchRequired, front);
      NotesSnoc(pchRequired, front, i);
    }
  }
}
