/**
 The nonce-tracking message pusher: one counter per resolved key, started from
 the chain, advanced only by a successful push.
 */
module MsgPusher {
  import opened Common

  type Address = string

  /** The parts of a message the pusher reads or writes; `payload` is everything else. */
  datatype Content = Content(from: Address, nonce: nat, gasFeeCap: int, gasPremium: int, payload: string)

  datatype SignedMessage = SignedMessage(message: Content, signature: string)

  /**
   What the outside calls of one push answer, in the order they are made. The last
   three are given the message, and may answer anything that depends on it.
   */
  datatype Replies = Replies(
    accountKey: Option<Address>,
    actorNonce: Option<nat>,
    estimate: Content -> Option<Content>,   // GasEstimateMessageGas
    sign: Content -> Option<string>,        // WalletSign
    push: SignedMessage -> bool)            // MpoolPush

  datatype Error = ResolveError | ActorError | EstimateError | SignError | PushError

  datatype Result = Success(smsg: SignedMessage) | Failure(error: Error)

  /** A message accepted by the message pool, with the key it was signed for. */
  datatype Push = Push(key: Address, smsg: SignedMessage)

  datatype State = State(
    nonces: map<Address, nat>,
    pushes: seq<Push>,         // history
    base: map<Address, nat>)   // history: the chain nonce at first use of a key

  const INITIAL := State(map[], [], map[])

  datatype Call = Call(msg: Content, replies: Replies)

  /** State, the caller's message, and what is returned after a call. */
  datatype After = After(state: State, msg: Content, result: Result)

  const GAS_FEE_CAP := 4000000000

  /** The message that is signed and pushed. */
  function Priced(estim: Content): Content {
    estim.(gasFeeCap := GAS_FEE_CAP, gasPremium := 2 * estim.gasPremium)
  }

  /** The key's counter, read from the chain at first use. */
  function Allocate(s: State, key: Address, actorNonce: nat): State {
    if key in s.nonces then s
    else s.(nonces := s.nonces[key := actorNonce], base := s.base[key := actorNonce])
  }

  /** The push went through: it is recorded and the counter moves on. */
  function Pushed(s: State, key: Address, smsg: SignedMessage): State
    requires key in s.nonces
  {
    s.(nonces := s.nonces[key := Wrap64(s.nonces[key] + 1)], pushes := s.pushes + [Push(key, smsg)])
  }

  /** What happens to a message that carries the nonce of its key. */
  function Send(s: State, key: Address, msg: Content, r: Replies): (State, Result)
    requires key in s.nonces
  {
    match r.estimate(msg)
    case None => (s, Failure(EstimateError))
    case Some(estim) =>
      match r.sign(Priced(estim))
      case None => (s, Failure(SignError))
      case Some(signature) =>
        var smsg := SignedMessage(Priced(estim), signature);
        if r.push(smsg) then (Pushed(s, key, smsg), Success(smsg)) else (s, Failure(PushError))
  }

  /** The call gets as far as reading the counter of the key. */
  predicate Counted(s: State, r: Replies) {
    r.accountKey.Some? && (r.accountKey.value in s.nonces || r.actorNonce.Some?)
  }

  /** The state when the counter is read. */
  function Started(s: State, r: Replies): State
    requires Counted(s, r)
  {
    Allocate(s, r.accountKey.value, if r.actorNonce.Some? then r.actorNonce.value else 0)
  }

  function Next(s: State, c: Call): After {
    var r := c.replies;
    if r.accountKey.None? then After(s, c.msg, Failure(ResolveError))
    else if !Counted(s, r) then After(s, c.msg, Failure(ActorError))
    else
      var key, s1 := r.accountKey.value, Started(s, r);
      var msg := c.msg.(nonce := s1.nonces[key]);
      var (s2, result) := Send(s1, key, msg, r);
      After(s2, msg, result)
  }

  /** Chain nonces are 64-bit, and an estimate has the nonce of the message it was asked for. */
  ghost predicate KeepsNonces(r: Replies) {
    && (r.actorNonce.Some? ==> r.actorNonce.value < UINT64_SIZE)
    && (forall m :: r.estimate(m).Some? ==> r.estimate(m).value.nonce == m.nonce)
  }

  function Run(calls: seq<Call>): State {
    if calls == [] then INITIAL else Next(Run(calls[..|calls| - 1]), calls[|calls| - 1]).state
  }

  ghost predicate Honest(calls: seq<Call>) { forall i :: 0 <= i < |calls| ==> KeepsNonces(calls[i].replies) }

  /** Nonces of the messages pushed for one key, in order. */
  function NoncesOf(pushes: seq<Push>, key: Address): seq<nat> {
    if pushes == [] then []
    else
      var last := pushes[|pushes| - 1];
      NoncesOf(pushes[..|pushes| - 1], key) + if last.key == key then [last.smsg.message.nonce] else []
  }

  ghost predicate Consecutive(nonces: seq<nat>, first: nat) {
    forall i :: 0 <= i < |nonces| ==> nonces[i] == Wrap64(first + i)
  }

  /** The pushes for one key carry consecutive nonces from its base, and its counter is the next one. */
  ghost predicate KeyInv(s: State, key: Address) {
    if key !in s.base then key !in s.nonces && NoncesOf(s.pushes, key) == []
    else
      && key in s.nonces
      && s.base[key] < UINT64_SIZE
      && Consecutive(NoncesOf(s.pushes, key), s.base[key])
      && s.nonces[key] == Wrap64(s.base[key] + |NoncesOf(s.pushes, key)|)
  }

  lemma Appended(pushes: seq<Push>, p: Push, key: Address)
    ensures NoncesOf(pushes + [p], key)
         == NoncesOf(pushes, key) + if p.key == key then [p.smsg.message.nonce] else []
  {
    assert (pushes + [p])[..|pushes|] == pushes;
  }

  lemma WrapNext(n: nat)
    ensures Wrap64(Wrap64(n) + 1) == Wrap64(n + 1)
  {
  }

  lemma WrapInjective(m: nat, n: nat)
    requires m < n < m + UINT64_SIZE
    ensures Wrap64(m) != Wrap64(n)
  {
    var p, q := m / UINT64_SIZE, n / UINT64_SIZE;
    assert m == p * UINT64_SIZE + Wrap64(m) && n == q * UINT64_SIZE + Wrap64(n);
  }

  lemma ConsecutiveSnoc(nonces: seq<nat>, first: nat)
    requires Consecutive(nonces, first)
    ensures Consecutive(nonces + [Wrap64(first + |nonces|)], first)
  {
  }

  /** A first use starts the counter; nothing else happens before the push. */
  lemma StartedKeepsKeyInv(s: State, r: Replies, key: Address)
    requires KeyInv(s, key) && Counted(s, r) && KeepsNonces(r)
    ensures KeyInv(Started(s, r), key)
  {
  }

  lemma OwnPushKeepsKeyInv(s: State, key: Address, smsg: SignedMessage)
    requires KeyInv(s, key) && key in s.nonces && smsg.message.nonce == s.nonces[key]
    ensures KeyInv(Pushed(s, key, smsg), key)
  {
    var sent := NoncesOf(s.pushes, key);
    Appended(s.pushes, Push(key, smsg), key);
    ConsecutiveSnoc(sent, s.base[key]);
    WrapNext(s.base[key] + |sent|);
  }

  lemma OtherPushKeepsKeyInv(s: State, used: Address, smsg: SignedMessage, key: Address)
    requires KeyInv(s, key) && used in s.nonces && used != key
    ensures KeyInv(Pushed(s, used, smsg), key)
  {
    Appended(s.pushes, Push(used, smsg), key);
    assert NoncesOf(s.pushes + [Push(used, smsg)], key) == NoncesOf(s.pushes, key);
  }

  /** What is pushed carries the nonce of the message the estimate was asked for. */
  lemma SendKeepsKeyInv(s: State, used: Address, msg: Content, r: Replies, key: Address)
    requires KeyInv(s, key) && used in s.nonces && KeepsNonces(r) && msg.nonce == s.nonces[used]
    ensures KeyInv(Send(s, used, msg, r).0, key)
  {
    var result := Send(s, used, msg, r).1;
    if result.Success? {
      assert result.smsg.message.nonce == msg.nonce;
      if used == key {
        OwnPushKeepsKeyInv(s, key, result.smsg);
      } else {
        OtherPushKeepsKeyInv(s, used, result.smsg, key);
      }
    }
  }

  lemma NextKeepsKeyInv(s: State, c: Call, key: Address)
    requires KeyInv(s, key) && KeepsNonces(c.replies)
    ensures KeyInv(Next(s, c).state, key)
  {
    var r := c.replies;
    if Counted(s, r) {
      var used, s1 := r.accountKey.value, Started(s, r);
      StartedKeepsKeyInv(s, r, key);
      SendKeepsKeyInv(s1, used, c.msg.(nonce := s1.nonces[used]), r, key);
    }
  }

  /**
   Over any sequence of calls, whatever fails in them and whatever alias of the
   sender they use: the messages pushed for a key carry the nonces n0, n0 + 1,
   n0 + 2, ... (in 64 bits) without gap or repetition, n0 being the chain nonce
   at the first use of the key.
   */
  lemma {:induction false} NoncesAreConsecutive(calls: seq<Call>, key: Address)
    requires Honest(calls)
    ensures KeyInv(Run(calls), key)
  {
    if calls == [] {
    } else {
      var n := |calls| - 1;
      NoncesAreConsecutive(calls[..n], key);
      NextKeepsKeyInv(Run(calls[..n]), calls[n], key);
    }
  }

  lemma ConsecutiveDistinct(nonces: seq<nat>, first: nat, i: nat, j: nat)
    requires Consecutive(nonces, first) && i < j < |nonces| <= UINT64_SIZE
    ensures nonces[i] != nonces[j]
  {
    WrapInjective(first + i, first + j);
  }

  /** No nonce is used twice for a key before 2^64 messages have been pushed for it. */
  lemma NoncesAreDistinct(calls: seq<Call>, key: Address, i: nat, j: nat)
    requires Honest(calls) && i < j < |NoncesOf(Run(calls).pushes, key)| <= UINT64_SIZE
    ensures NoncesOf(Run(calls).pushes, key)[i] != NoncesOf(Run(calls).pushes, key)[j]
  {
    NoncesAreConsecutive(calls, key);
    ConsecutiveDistinct(NoncesOf(Run(calls).pushes, key), Run(calls).base[key], i, j);
  }

  /** The chain nonce reported in the first call that resolves to the key and can read its actor. */
  function FirstChainNonce(calls: seq<Call>, key: Address): Option<nat> {
    if calls == [] then None
    else
      var n := |calls| - 1;
      var earlier := FirstChainNonce(calls[..n], key);
      if earlier.Some? then earlier
      else if calls[n].replies.accountKey == Some(key) then calls[n].replies.actorNonce
      else None
  }

  /** A key's base is the chain nonce of its first use, never read again. */
  lemma {:induction false} BaseIsFirstChainNonce(calls: seq<Call>, key: Address)
    ensures key in Run(calls).base <==> FirstChainNonce(calls, key).Some?
    ensures key in Run(calls).base ==> Run(calls).base[key] == FirstChainNonce(calls, key).value
    ensures key in Run(calls).base <==> key in Run(calls).nonces
  {
    if calls == [] {
    } else {
      BaseIsFirstChainNonce(calls[..|calls| - 1], key);
    }
  }

  /** The same message with another nonce. */
  function Renonced(c: Call, nonce: nat): Call { c.(msg := c.msg.(nonce := nonce)) }

  /** One call: state and result are the same, and so is the caller's message once its key is counted. */
  lemma CallIgnoresNonce(s: State, c: Call, nonce: nat)
    ensures var a, b := Next(s, c), Next(s, Renonced(c, nonce));
            a.state == b.state && a.result == b.result && (Counted(s, c.replies) ==> a.msg == b.msg)
  {
  }

  lemma {:induction false} SameRun(calls: seq<Call>, nonces: seq<nat>, others: seq<Call>, k: nat)
    requires |others| == |calls| == |nonces| && k <= |calls|
    requires forall i :: 0 <= i < |calls| ==> others[i] == Renonced(calls[i], nonces[i])
    ensures Run(others[..k]) == Run(calls[..k])
  {
    if k == 0 {
    } else {
      SameRun(calls, nonces, others, k - 1);
      assert calls[..k][..k - 1] == calls[..k - 1] && others[..k][..k - 1] == others[..k - 1];
      CallIgnoresNonce(Run(calls[..k - 1]), calls[k - 1], nonces[k - 1]);
    }
  }

  /**
   The nonces callers put into their messages have no effect, on the state or on
   any result, whatever the estimate, the wallet and the message pool make of the
   messages they are given.
   */
  lemma {:induction false} CallerNonceIsIgnored(calls: seq<Call>, nonces: seq<nat>)
    requires |calls| == |nonces|
    ensures var others := seq(|calls|, i requires 0 <= i < |calls| => Renonced(calls[i], nonces[i]));
            && Run(others) == Run(calls)
            && forall k :: 0 <= k < |calls| ==>
                 Next(Run(others[..k]), others[k]).result == Next(Run(calls[..k]), calls[k]).result
  {
    var others := seq(|calls|, i requires 0 <= i < |calls| => Renonced(calls[i], nonces[i]));
    forall k | 0 <= k <= |calls|
      ensures Run(others[..k]) == Run(calls[..k])
    {
      SameRun(calls, nonces, others, k);
    }
    assert others[..|calls|] == others && calls[..|calls|] == calls;
    forall k | 0 <= k < |calls|
      ensures Next(Run(others[..k]), others[k]).result == Next(Run(calls[..k]), calls[k]).result
    {
      CallIgnoresNonce(Run(calls[..k]), calls[k], nonces[k]);
    }
  }

  // ----- what a call answers, and what the pool got -----

  /** The nonce a call works with, if it gets one: its key's counter, or the chain's at first use. */
  function NonceFor(s: State, r: Replies): Option<nat> {
    match r.accountKey
    case None => None
    case Some(key) => if key in s.nonces then Some(s.nonces[key]) else r.actorNonce
  }

  /**
   `smsg` is what the pool is offered by a call that works with this nonce: the
   estimate of the caller's message under that nonce, at a fee cap of 4000000000
   and twice the estimated premium, with the wallet's signature of just that.
   */
  predicate Offers(c: Call, nonce: nat, smsg: SignedMessage) {
    var estim := c.replies.estimate(c.msg.(nonce := nonce));
    && estim.Some?
    && smsg.message.from == estim.value.from && smsg.message.nonce == estim.value.nonce
    && smsg.message.payload == estim.value.payload
    && smsg.message.gasFeeCap == 4000000000 && smsg.message.gasPremium == 2 * estim.value.gasPremium
    && c.replies.sign(smsg.message) == Some(smsg.signature)
  }

  /** A call succeeds exactly with the message it offered to the pool and the pool accepted. */
  lemma SuccessIsAcceptance(s: State, c: Call, smsg: SignedMessage)
    ensures Next(s, c).result == Success(smsg) <==>
            var nonce := NonceFor(s, c.replies); nonce.Some? && Offers(c, nonce.value, smsg) && c.replies.push(smsg)
  {
    if Counted(s, c.replies) {
      var estim := c.replies.estimate(c.msg.(nonce := NonceFor(s, c.replies).value));
      if estim.Some? && Offers(c, NonceFor(s, c.replies).value, smsg) {
        assert smsg.message == Priced(estim.value);
      }
    }
  }

  /** Otherwise it returns the error of the first call that did not answer, or that refused. */
  lemma ErrorIsOfFirstFailure(s: State, c: Call)
    ensures var r, result, nonce := c.replies, Next(s, c).result, NonceFor(s, c.replies);
            && (result == Failure(ResolveError) <==> r.accountKey.None?)
            && (result == Failure(ActorError) <==> r.accountKey.Some? && nonce.None?)
            && (result == Failure(EstimateError) <==> nonce.Some? && r.estimate(c.msg.(nonce := nonce.value)).None?)
            && (result == Failure(SignError) <==>
                nonce.Some? && r.estimate(c.msg.(nonce := nonce.value)).Some? && forall smsg :: !Offers(c, nonce.value, smsg))
            && (result == Failure(PushError) <==> nonce.Some? && exists smsg :: Offers(c, nonce.value, smsg) && !r.push(smsg))
  {
    var r := c.replies;
    if Counted(s, r) && r.estimate(c.msg.(nonce := NonceFor(s, r).value)).Some? {
      var message := Priced(r.estimate(c.msg.(nonce := NonceFor(s, r).value)).value);
      if r.sign(message).Some? {
        assert Offers(c, NonceFor(s, r).value, SignedMessage(message, r.sign(message).value));
      }
      forall smsg | Offers(c, NonceFor(s, r).value, smsg)
        ensures smsg.message == message && r.sign(message) == Some(smsg.signature)
      {
      }
    }
  }

  /** A failed call pushes nothing and moves no counter: at most it reads one from the chain. */
  lemma StateAfterCall(s: State, c: Call)
    ensures var nonce := NonceFor(s, c.replies);
            Next(s, c).msg == if nonce.Some? then c.msg.(nonce := nonce.value) else c.msg
    ensures var e, nonce := Next(s, c), NonceFor(s, c.replies);
            match e.result
            case Success(smsg) =>
              var key := c.replies.accountKey.value;
              nonce.Some? && e.state.pushes == s.pushes + [Push(key, smsg)] && e.state.nonces == s.nonces[key := Wrap64(nonce.value + 1)]
            case Failure(_) =>
              e.state.pushes == s.pushes
              && e.state.nonces == if nonce.Some? then s.nonces[c.replies.accountKey.value := nonce.value] else s.nonces
  {
  }

  /** The nonce a call gets, told from the chain and from what the pool accepted before. */
  function NextNonce(earlier: seq<Call>, accepted: seq<Push>, r: Replies): Option<nat> {
    match r.accountKey
    case None => None
    case Some(key) =>
      match FirstChainNonce(earlier, key)
      case Some(first) => Some(Wrap64(first + |NoncesOf(accepted, key)|))
      case None => r.actorNonce
  }

  /** What the pool has accepted, without any counter: of each call what it offered, if the pool answered yes. */
  ghost function Accepted(calls: seq<Call>): seq<Push> {
    if calls == [] then []
    else
      var front, c := calls[..|calls| - 1], calls[|calls| - 1];
      var nonce := NextNonce(front, Accepted(front), c.replies);
      if nonce.Some? && exists smsg :: Offers(c, nonce.value, smsg) && c.replies.push(smsg) then
        var smsg :| Offers(c, nonce.value, smsg) && c.replies.push(smsg);
        Accepted(front) + [Push(c.replies.accountKey.value, smsg)]
      else Accepted(front)
  }

  predicate ChainNoncesFit(calls: seq<Call>) {
    forall i :: 0 <= i < |calls| && calls[i].replies.actorNonce.Some? ==> calls[i].replies.actorNonce.value < UINT64_SIZE
  }

  /** The counter of a key is its base plus the number of its messages pushed, whatever the estimates do. */
  ghost predicate CounterInv(s: State, key: Address) {
    && (key in s.nonces <==> key in s.base)
    && (key !in s.base ==> NoncesOf(s.pushes, key) == [])
    && (key in s.base ==> s.nonces[key] == Wrap64(s.base[key] + |NoncesOf(s.pushes, key)|))
  }

  lemma PushedKeepsCounter(s: State, used: Address, smsg: SignedMessage, key: Address)
    requires CounterInv(s, key) && used in s.nonces
    ensures CounterInv(Pushed(s, used, smsg), key)
  {
    Appended(s.pushes, Push(used, smsg), key);
    if used == key {
      WrapNext(s.base[key] + |NoncesOf(s.pushes, key)|);
    }
  }

  lemma NextKeepsCounter(s: State, c: Call, key: Address)
    requires CounterInv(s, key)
    requires c.replies.actorNonce.Some? ==> c.replies.actorNonce.value < UINT64_SIZE
    ensures CounterInv(Next(s, c).state, key)
  {
    var r, result := c.replies, Next(s, c).result;
    if Counted(s, r) {
      var s1 := Started(s, r);
      assert CounterInv(s1, key);
      if result.Success? {
        PushedKeepsCounter(s1, r.accountKey.value, result.smsg, key);
      }
    }
  }

  lemma {:induction false} CountersHold(calls: seq<Call>, key: Address)
    requires ChainNoncesFit(calls)
    ensures CounterInv(Run(calls), key)
  {
    if calls == [] {
    } else {
      var n := |calls| - 1;
      CountersHold(calls[..n], key);
      NextKeepsCounter(Run(calls[..n]), calls[n], key);
    }
  }

  /** The counter a call finds is the nonce told without it. */
  lemma CounterIsNextNonce(calls: seq<Call>, r: Replies)
    requires ChainNoncesFit(calls)
    ensures NonceFor(Run(calls), r) == NextNonce(calls, Run(calls).pushes, r)
  {
    if r.accountKey.Some? {
      CountersHold(calls, r.accountKey.value);
      BaseIsFirstChainNonce(calls, r.accountKey.value);
    }
  }

  lemma AcceptanceIsRecorded(s: State, c: Call)
    ensures var nonce, e := NonceFor(s, c.replies), Next(s, c);
            if nonce.Some? && exists smsg :: Offers(c, nonce.value, smsg) && c.replies.push(smsg)
            then e.result.Success? && e.state.pushes == s.pushes + [Push(c.replies.accountKey.value, e.result.smsg)]
            else e.state.pushes == s.pushes && !e.result.Success?
  {
    var nonce, e := NonceFor(s, c.replies), Next(s, c);
    StateAfterCall(s, c);
    if nonce.Some? && exists smsg :: Offers(c, nonce.value, smsg) && c.replies.push(smsg) {
      var smsg :| Offers(c, nonce.value, smsg) && c.replies.push(smsg);
      SuccessIsAcceptance(s, c, smsg);
    } else if e.result.Success? {
      SuccessIsAcceptance(s, c, e.result.smsg);
    }
  }

  /**
   What was pushed is what the pool accepted: of all calls, in order, exactly the
   messages offered to a `push` that answered yes, each under the nonce told by
   the chain and the pool. A call is a success exactly when it added one.
   */
  lemma {:induction false} PushedIsAccepted(calls: seq<Call>)
    requires ChainNoncesFit(calls)
    ensures Run(calls).pushes == Accepted(calls)
    ensures calls != [] ==>
              var n := |calls| - 1;
              Next(Run(calls[..n]), calls[n]).result.Success? <==> |Accepted(calls)| > |Accepted(calls[..n])|
  {
    if calls == [] {
    } else {
      var front, c := calls[..|calls| - 1], calls[|calls| - 1];
      PushedIsAccepted(front);
      CounterIsNextNonce(front, c.replies);
      AcceptanceIsRecorded(Run(front), c);
      var s, nonce := Run(front), NonceFor(Run(front), c.replies);
      if nonce.Some? && exists smsg :: Offers(c, nonce.value, smsg) && c.replies.push(smsg) {
        var smsg :| Offers(c, nonce.value, smsg) && c.replies.push(smsg)
          && Accepted(calls) == Accepted(front) + [Push(c.replies.accountKey.value, smsg)];
        SuccessIsAcceptance(s, c, smsg);
      }
    }
  }

  // ----- the pusher as an object -----

  /** A message passed by reference: the pusher overwrites its nonce. */
  class Message {
    var content: Content

    constructor (content: Content)
      ensures this.content == content
    {
      this.content := content;
    }
  }

  class MsgPusher {
    var nonces: map<Address, nat>
    ghost var pushes: seq<Push>
    ghost var base: map<Address, nat>

    ghost function View(): State
      reads this
    {
      State(nonces, pushes, base)
    }

    constructor ()
      ensures View() == INITIAL
    {
      nonces, pushes, base := map[], [], map[];
    }

    method MpoolPushMessage(msg: Message, replies: Replies) returns (r: Result)
      modifies this, msg
      ensures After(View(), msg.content, r) == Next(old(View()), Call(old(msg.content), replies))
    {
      if replies.accountKey.None? {
        return Failure(ResolveError);
      }
      var kaddr := replies.accountKey.value;
      if kaddr !in nonces {
        if replies.actorNonce.None? {
          return Failure(ActorError);
        }
        nonces, base := nonces[kaddr := replies.actorNonce.value], base[kaddr := replies.actorNonce.value];
      }
      msg.content := msg.content.(nonce := nonces[kaddr]);
      var estimated := replies.estimate(msg.content);
      if estimated.None? {
        return Failure(EstimateError);
      }
      var estim := estimated.value;
      estim := estim.(gasFeeCap := GAS_FEE_CAP);
      estim := estim.(gasPremium := estim.gasPremium * 2);
      var signature := replies.sign(estim);
      if signature.None? {
        return Failure(SignError);
      }
      var smsg := SignedMessage(estim, signature.value);
      if !replies.push(smsg) {
        return Failure(PushError);
      }
      pushes := pushes + [Push(kaddr, smsg)];
      nonces := nonces[kaddr := Wrap64(nonces[kaddr] + 1)];
      return Success(smsg);
    }
  }
}
