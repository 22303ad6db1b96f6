/**
 The order in which the expiry pass makes its calls is needed as much as the
 promises around it. Two variants make the same calls in another order; both
 are unsafe although every promise is kept.
 */
module ExpiryOrder {
  import opened ExpiryProtocol

  datatype Order =
    | AsWritten
    | ReadBeforeCancel    // the persisted record is read before the active transfer is cancelled
    | DeleteAfterLookUp   // the token is deleted only after the transfer was looked up

  /** What a variant keeps in local variables: whether a transfer was found, and whether a record was. */
  datatype Variant = Variant(state: State, found: bool, recorded: bool)

  const START := Variant(INITIAL, false, false)

  /** With late deletion, collecting an id only lists it, so it must not be listed twice. */
  predicate EnabledIn(order: Order, v: Variant, a: Action) {
    Enabled(v.state, a) && (order.DeleteAfterLookUp? && a.DeleteToken? ==> a.id !in v.state.expired)
  }

  /** Found or not, the record is read next; a found transfer is cancelled after that. */
  function NextReadBeforeCancel(v: Variant, a: Action): Variant
    requires Enabled(v.state, a)
  {
    var s := v.state;
    match a
    case LookUp(reply) =>
      if reply.LookupError? then v.(state := Next(s, a))
      else Variant(s.(expired := s.expired[1..], pass := Reading(s.expired[0])), reply.Found?, false)
    case Read(ok) =>
      var id := s.pass.id;
      if ok && v.found && !(id in s.store && s.store[id] == Completed)
      then Variant(s.(pass := Cancelling(id)), true, id in s.store)
      else v.(state := Next(s, a))
    case CancelReturns(ok) =>
      var id := s.pass.id;
      v.(state := s.(pass := if !ok then Looping else if v.recorded then Firing(id) else Saving(id)))
    case _ => v.(state := Next(s, a))
  }

  /** An expired id is listed with its token in place; the token is deleted just before the record is read. */
  function NextDeleteAfterLookUp(v: Variant, a: Action): Variant
    requires Enabled(v.state, a)
  {
    var s := v.state;
    match a
    case DeleteToken(id) => v.(state := s.(expired := s.expired + [id]))
    case Read(_) => v.(state := Next(s.(tokens := s.tokens - {s.pass.id}), a))
    case _ => v.(state := Next(s, a))
  }

  function NextIn(order: Order, v: Variant, a: Action): Variant
    requires EnabledIn(order, v, a)
  {
    match order
    case AsWritten => v.(state := Next(v.state, a))
    case ReadBeforeCancel => NextReadBeforeCancel(v, a)
    case DeleteAfterLookUp => NextDeleteAfterLookUp(v, a)
  }

  predicate AllowedIn(order: Order, v: Variant, a: Action) {
    EnabledIn(order, v, a) && Allowed(v.state, a, EVERYTHING)
  }

  /** Schedules of a variant that keep every promise. */
  predicate LegalIn(order: Order, actions: seq<Action>)
    decreases |actions|, 0
  {
    actions != [] ==>
      var n := |actions| - 1;
      LegalIn(order, actions[..n]) && AllowedIn(order, RunIn(order, actions[..n]), actions[n])
  }

  function RunIn(order: Order, actions: seq<Action>): Variant
    requires LegalIn(order, actions)
    decreases |actions|, 1
  {
    if actions == [] then START
    else NextIn(order, RunIn(order, actions[..|actions| - 1]), actions[|actions| - 1])
  }

  // ----- the order as written -----

  lemma {:induction false} AsWrittenIsProtocol(actions: seq<Action>)
    requires LegalIn(AsWritten, actions)
    ensures Legal(actions, EVERYTHING) && RunIn(AsWritten, actions).state == Run(actions)
  {
    if actions == [] {
    } else {
      AsWrittenIsProtocol(actions[..|actions| - 1]);
    }
  }

  // ----- the other orders -----

  ghost predicate Reachable(order: Order, v: Variant) {
    exists actions :: LegalIn(order, actions) && RunIn(order, actions) == v
  }

  lemma ReachStart(order: Order)
    ensures Reachable(order, START)
  {
    assert LegalIn(order, []) && RunIn(order, []) == START;
  }

  /** All promises at once. */
  predicate AllKept(s: State, a: Action) {
    match a
    case Start(id) => id in s.tokens
    case Prepare(id) => id !in s.prepared
    case Emit(_, id, _) => id in s.active
    case Stop(id) => s.callbacks == map[]
    case CancelReturns(_) => s.pass.Cancelling? && s.pass.id !in s.active
    case CallbackSave(_, ok) => ok
    case _ => true
  }

  lemma Reach(order: Order, v: Variant, a: Action, v': Variant)
    requires Reachable(order, v) && EnabledIn(order, v, a) && AllKept(v.state, a) && v' == NextIn(order, v, a)
    ensures Reachable(order, v')
  {
    assert AllowedIn(order, v, a);
    var actions :| LegalIn(order, actions) && RunIn(order, actions) == v;
    var longer := actions + [a];
    assert longer[..|longer| - 1] == actions && longer[|longer| - 1] == a;
    assert LegalIn(order, longer) && RunIn(order, longer) == v';
  }

  /** Steps that all orders take alike. */
  predicate Common(a: Action) { !(a.DeleteToken? || a.LookUp? || a.Read? || a.CancelReturns?) }

  lemma ReachCommon(order: Order, v: Variant, a: Action, s': State)
    requires Reachable(order, v) && Common(a) && Enabled(v.state, a) && AllKept(v.state, a) && s' == Next(v.state, a)
    ensures Reachable(order, v.(state := s'))
  {
    Reach(order, v, a, v.(state := s'));
  }

  /** A listener and one prepared id. */
  const PREPARED := HEARD.(prepared := {1}, tokens := {1})

  lemma ReachPrepared(order: Order)
    ensures Reachable(order, START.(state := PREPARED))
  {
    ReachStart(order);
    ReachCommon(order, START, SetListener(true), HEARD);
    ReachCommon(order, START.(state := HEARD), Prepare(1), PREPARED);
  }

  const COMPLETION: seq<Effect> := [Saved(1, Completed), Fired(1, Completed)]

  lemma ReachSaved(order: Order, v: Variant, s: State)
    requires Reachable(order, v.(state := s.(callbacks := map[0 := Callback(1, Completed, false)])))
    requires s.store == map[] && s.log == []
    ensures Reachable(order, v.(state := s.(callbacks := map[0 := Callback(1, Completed, true)],
                                            store := map[1 := Completed], log := [Saved(1, Completed)])))
  {
    ReachCommon(order, v.(state := s.(callbacks := map[0 := Callback(1, Completed, false)])), CallbackSave(0, true),
                s.(callbacks := map[0 := Callback(1, Completed, true)], store := map[1 := Completed], log := [Saved(1, Completed)]));
  }

  lemma ReachFired(order: Order, v: Variant, s: State)
    requires Reachable(order, v.(state := s.(callbacks := map[0 := Callback(1, Completed, true)],
                                             store := map[1 := Completed], log := [Saved(1, Completed)])))
    requires s.callbacks == map[] && s.listening
    ensures Reachable(order, v.(state := s.(store := map[1 := Completed], log := COMPLETION)))
  {
    var s1 := s.(callbacks := map[0 := Callback(1, Completed, true)], store := map[1 := Completed], log := [Saved(1, Completed)]);
    ReachCommon(order, v.(state := s1), CallbackFire(0), s.(store := map[1 := Completed], log := COMPLETION));
  }

  /** The active transfer completes, and its callback saves and reports that. */
  lemma ReachCompletion(order: Order, v: Variant)
    requires Reachable(order, v) && 1 in v.state.active && v.state.listening
    requires v.state.callbacks == map[] && v.state.store == map[] && v.state.log == []
    ensures Reachable(order, v.(state := v.state.(store := map[1 := Completed], log := COMPLETION)))
  {
    var s := v.state;
    ReachCommon(order, v, Emit(0, 1, Completed), s.(callbacks := map[0 := Callback(1, Completed, false)]));
    ReachSaved(order, v, s);
    ReachFired(order, v, s);
  }

  /** In every schedule that keeps the promises, the listener never hears Failed after Completed. */
  ghost predicate Safe(order: Order) {
    forall actions :: LegalIn(order, actions) ==> NeverRevoked(RunIn(order, actions).state.log)
  }

  lemma UnsafeBy(order: Order, v: Variant)
    requires Reachable(order, v) && !NeverRevoked(v.state.log)
    ensures !Safe(order)
  {
    var actions :| LegalIn(order, actions) && RunIn(order, actions) == v;
  }

  /** The pass saves its Failed record and reports it all the same. */
  lemma ReachFailure(order: Order, v: Variant)
    requires Reachable(order, v) && v.state.pass == Saving(1) && v.state.listening && v.state.log == COMPLETION
    ensures !Safe(order)
  {
    var s1 := Next(v.state, Save(true));
    ReachCommon(order, v, Save(true), s1);
    var s2 := Next(s1, Fire);
    ReachCommon(order, v.(state := s1), Fire, s2);
    assert s2.log == COMPLETION + [Saved(1, Failed), Fired(1, Failed)];
    assert s2.log[1] == Fired(1, Completed) && s2.log[3] == Fired(1, Failed);
    UnsafeBy(order, v.(state := s2));
  }

  lemma ListId(order: Order, s: State, s': State)
    requires Reachable(order, START.(state := s)) && s.pass == Collecting && s.tokens == {1} && s.expired == []
    requires s' == s.(tokens := if order.DeleteAfterLookUp? then {1} else {}, expired := [1])
    ensures Reachable(order, START.(state := s'))
  {
    Reach(order, START.(state := s), DeleteToken(1), START.(state := s'));
  }

  /** A pass begins and lists the id, whose token is gone with early deletion only. */
  lemma ReachLooping(order: Order, s: State)
    requires Reachable(order, START.(state := s)) && s.pass == Idle && s.tokens == {1} && s.expired == []
    ensures var tokens := if order.DeleteAfterLookUp? then {1} else {};
            Reachable(order, START.(state := s.(tokens := tokens, expired := [1], pass := Looping)))
  {
    var s1 := s.(pass := Collecting);
    ReachCommon(order, START.(state := s), Tick, s1);
    var s2 := s1.(tokens := if order.DeleteAfterLookUp? then {1} else {}, expired := [1]);
    ListId(order, s1, s2);
    ReachCommon(order, START.(state := s2), DeleteReturns(true), s2.(pass := Looping));
  }

  // With the record read before the cancel, a transfer may complete in between.

  const CANCELLING := PREPARED.(tokens := {}, active := {1}, pass := Cancelling(1))

  lemma FindAndRead()
    requires Reachable(ReadBeforeCancel, START.(state := CANCELLING.(expired := [1], pass := Looping)))
    ensures Reachable(ReadBeforeCancel, Variant(CANCELLING, true, false))
  {
    var s := CANCELLING.(expired := [1], pass := Looping);
    var v := Variant(CANCELLING.(pass := Reading(1)), true, false);
    Reach(ReadBeforeCancel, START.(state := s), LookUp(Found), v);
    Reach(ReadBeforeCancel, v, Read(true), Variant(CANCELLING, true, false));
  }

  lemma ReachCancelling()
    ensures Reachable(ReadBeforeCancel, Variant(CANCELLING, true, false))
  {
    var o := ReadBeforeCancel;
    ReachPrepared(o);
    ReachCommon(o, START.(state := PREPARED), Start(1), PREPARED.(active := {1}));
    ReachLooping(o, PREPARED.(active := {1}));
    FindAndRead();
  }

  lemma CancelAndFail(s: State)
    requires Reachable(ReadBeforeCancel, Variant(s, true, false)) && s.pass == Cancelling(1) && s.active == {}
    requires s.listening && s.log == COMPLETION
    ensures !Safe(ReadBeforeCancel)
  {
    var v := Variant(s.(pass := Saving(1)), true, false);
    Reach(ReadBeforeCancel, Variant(s, true, false), CancelReturns(true), v);
    ReachFailure(ReadBeforeCancel, v);
  }

  lemma ReadBeforeCancelIsUnsafe()
    ensures !Safe(ReadBeforeCancel)
  {
    var o := ReadBeforeCancel;
    ReachCancelling();
    ReachCompletion(o, Variant(CANCELLING, true, false));
    var s := CANCELLING.(store := map[1 := Completed], log := COMPLETION);
    ReachCommon(o, Variant(s, true, false), Stop(1), s.(active := {}));
    CancelAndFail(s.(active := {}));
  }

  // With the token deleted after the lookup, a transfer may start and complete after it was looked for in vain.

  const MISSED := PREPARED.(pass := Reading(1))

  lemma LookUpInVain()
    requires Reachable(DeleteAfterLookUp, START.(state := PREPARED.(expired := [1], pass := Looping)))
    ensures Reachable(DeleteAfterLookUp, START.(state := MISSED))
  {
    var s := PREPARED.(expired := [1], pass := Looping);
    assert Next(s, LookUp(NotFound)) == MISSED;
    Reach(DeleteAfterLookUp, START.(state := s), LookUp(NotFound), START.(state := MISSED));
  }

  lemma ReachMissed()
    ensures Reachable(DeleteAfterLookUp, START.(state := MISSED))
  {
    ReachPrepared(DeleteAfterLookUp);
    ReachLooping(DeleteAfterLookUp, PREPARED);
    assert PREPARED.(tokens := {1}) == PREPARED;
    LookUpInVain();
  }

  lemma DeleteAfterLookUpIsUnsafe()
    ensures !Safe(DeleteAfterLookUp)
  {
    var o := DeleteAfterLookUp;
    ReachMissed();
    ReachCommon(o, START.(state := MISSED), Start(1), MISSED.(active := {1}));
    var s := MISSED.(active := {1}, tokens := {}, pass := Saving(1));
    Reach(o, START.(state := MISSED.(active := {1})), Read(true), START.(state := s));
    ReachCompletion(o, START.(state := s));
    ReachFailure(o, START.(state := s.(store := map[1 := Completed], log := COMPLETION)));
  }

  /**
   Of the three orders exactly the one the pass uses is safe: with the others, some
   schedule that keeps all five promises lets the listener hear Failed after Completed.
   */
  lemma OnlyAsWrittenIsSafe(order: Order)
    ensures Safe(order) <==> order == AsWritten
  {
    match order {
      case AsWritten =>
        forall actions | LegalIn(AsWritten, actions)
          ensures NeverRevoked(RunIn(AsWritten, actions).state.log)
        {
          AsWrittenIsProtocol(actions);
          CompletedEventIsFinal(actions);
        }
      case ReadBeforeCancel => ReadBeforeCancelIsUnsafe();
      case DeleteAfterLookUp => DeleteAfterLookUpIsUnsafe();
    }
  }
}
