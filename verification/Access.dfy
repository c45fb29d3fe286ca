/** Who can make each entry point do anything. */
module Access {
  import opened Records
  import opened Machine

  // ---------------------------------------------------------------------------
  // Guards
  // ---------------------------------------------------------------------------

  predicate OwnerCall(call: Call) {
    || call.UpdateModule? || call.ConfirmModule? || call.CancelModule? || call.CallModule? || call.CallChild?
    || call.InitiateEscape? || call.FinalizeEscape? || call.EnterEscrow? || call.InitiateReclaim? || call.Reclaim?
  }

  /**
   Owner entry points do nothing without the backup owner's witness and a resting wallet; all but the
   cancellation of an update and the two steps of a reclaim also need the account out of escrow.
   */
  lemma ConfigurationNeedsTheOwner(env: Env, who: Caller, w: World, call: Call)
    requires OwnerCall(call) && !Dispatch(env, who, w, call).exit.Aborted?
    ensures Idle(w, call.a) && call.a in w.book.accounts && w.book.accounts[call.a].owner in who.witnesses
    ensures !call.CancelModule? && !call.InitiateReclaim? && !call.Reclaim? ==> !Escrowed(w.book, call.a)
    ensures call.InitiateReclaim? || call.Reclaim? ==> Escrowed(w.book, call.a)
  {
    hide Apply, Emit, SetUp, CleanRoot, Within, Notify, TryConfirm, AdoptLegacy, Idle, Escrowed, ValidTopology, ValidChildCall;
    if call.UpdateModule? {
      assert Dispatch(env, who, w, call) == DoUpdateModule(env, who, w, call);
    } else if call.ConfirmModule? {
      assert Dispatch(env, who, w, call) == DoConfirmModule(env, who, w, call);
    } else if call.CallModule? {
      assert Dispatch(env, who, w, call) == DoCallModule(env, who, w, call);
    } else if call.CallChild? {
      assert Dispatch(env, who, w, call) == DoCallChild(env, who, w, call);
    } else if call.FinalizeEscape? {
      assert Dispatch(env, who, w, call) == DoFinalizeEscape(env, who, w, call);
    } else if call.Reclaim? {
      assert Dispatch(env, who, w, call) == DoReclaim(env, who, w, call);
    }
  }

  /** Only the recorded market, naming the recorded listing, ends an escrow early. */
  lemma EscrowNeedsItsMarket(env: Env, who: Caller, w: World, call: Call)
    requires (call.CancelEscrow? || call.SettleEscrow?) && !Dispatch(env, who, w, call).exit.Aborted?
    ensures Idle(w, call.a) && call.a in w.book.markets
    ensures who.script == w.book.markets[call.a] && Get(w.book.listings, call.a, 0) == call.listing
  {
    hide Apply, Emit, CleanRoot, Notify, Idle;
    if call.CancelEscrow? {
      assert Dispatch(env, who, w, call) == DoCancelEscrow(env, who, w, call);
    } else {
      assert Dispatch(env, who, w, call) == DoSettleEscrow(env, who, w, call);
    }
  }

  /** Only the installed root maintains its roster, never twice at once and never while its account executes. */
  lemma RostersNeedTheirRoot(env: Env, who: Caller, w: World, call: Call)
    requires (call.SetDependencies? || call.ClearDependencies?) && !Dispatch(env, who, w, call).exit.Aborted?
    ensures call.a in w.book.accounts && who.script != 0 && who.script == Pointer(w.book.accounts[call.a], call.role)
    ensures call.a !in w.maintenance && !Locked(w, call.a)
    ensures w.depth == 0 || InRootContext(w, call.role, call.a, who.script)
    ensures call.SetDependencies? ==> !Escrowed(w.book, call.a)
  {
    hide Apply, Emit, CleanAll, ValidChildren, Escrowed, InRootContext;
    if call.SetDependencies? {
      assert Dispatch(env, who, w, call) == DoSetDependencies(env, who, w, call);
    } else {
      assert Dispatch(env, who, w, call) == DoClearDependencies(env, who, w, call);
    }
  }

  /** An operation that returns was signed for, or witnessed by the owner, in time, and the owner when an escape was running. */
  lemma OperationsAreAuthorized(env: Env, who: Caller, w: World, a: Hash, plan: Plan)
    requires ExecuteUserOp(env, who, w, a, plan).exit.Done?
    ensures a in w.book.accounts && !Locked(w, a) && !Escrowed(w.book, a) && w.header.time <= plan.op.deadline
    ensures var state := w.book.accounts[a];
            && (if state.verifier != 0 then plan.verdict == Answer(true) else state.owner != 0 && state.owner in who.witnesses)
            && (state.escapeAt > 0 ==> state.owner in who.witnesses)
  {
    hide Apply, Emit, Escrowed, ValidOperation, Validate, Finally;
    var state := w.book.accounts[a];
    var w1 := SetContext(w, Lock, a, a);
    var w2 := SetContext(w1, Executing(Verifier), a, state.verifier);
    AdmittedOnly(env, who, w1, a, state, plan);
    AdmittedOnly(env, who, w2, a, state, plan);
    FinallyNeedsReturn(Validate(env, who, w1, a, state, plan), Lock, a);
    FinallyNeedsReturn(Validate(env, who, w2, a, state, plan), Executing(Verifier), a);
    FinallyNeedsReturn(Finally(Validate(env, who, w2, a, state, plan), Executing(Verifier), a), Lock, a);
  }

  lemma FinallyNeedsReturn(o: Outcome, slot: Slot, a: Hash)
    ensures Finally(o, slot, a).exit.Done? ==> o.exit.Done?
  {
  }

  lemma AdmittedOnly(env: Env, who: Caller, w: World, a: Hash, state: Account, plan: Plan)
    requires ValidOperation(plan.op)
    ensures Validate(env, who, w, a, state, plan).exit.Done? ==>
              && w.header.time <= plan.op.deadline
              && (if state.verifier != 0 then plan.verdict == Answer(true) else state.owner != 0 && state.owner in who.witnesses)
              && (state.escapeAt > 0 ==> state.owner in who.witnesses)
  {
    hide Apply, Emit, InTarget, Hooked, NonceAcceptable;
  }
}
