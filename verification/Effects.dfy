/**
 No step is skipped: an entry point returns exactly when its guards hold and every callee it owes
 returns, each in the world and under the context it is promised, and it stores what it was asked to.
 */
module Effects {
  import opened Records
  import opened Machine
  import opened Guarantee
  import opened Soundness
  import opened Witness

  // ---------------------------------------------------------------------------
  // Cleanups
  // ---------------------------------------------------------------------------

  /** A cleanup ends exactly as its module does, and while the module runs only it may configure itself in that role. */
  lemma CleanupCompletesWithItsModule(env: Env, w: World, role: Role, a: Hash, m: Hash, b: Behaviour)
    requires Inv(w) && MayEnter(w, Config(role), a)
    ensures var inside := SetContext(w, Config(role), a, m);
            && Cleanup(env, w, role, a, m, b).exit == External(env, inside, b).exit
            && forall caller, other: Hash :: CanConfigure(inside.contexts, role, a, caller, other) <==> caller == m && other == m
  {
    hide Inv, Sound, External;
    var inside := SetContext(w, Config(role), a, m);
    SetContextKeepsInv(w, Config(role), a, m);
    ExternalSound(env, inside, b);
    var o := External(env, inside, b);
    if !o.exit.Aborted? {
      Arrives(inside, o, 0);
    }
  }

  // ---------------------------------------------------------------------------
  // Execution
  // ---------------------------------------------------------------------------

  /** The world in which an operation is validated. */
  function UnderKeys(w: World, a: Hash, state: Account): World {
    var locked := SetContext(w, Lock, a, a);
    if state.verifier == 0 then locked else SetContext(locked, Executing(Verifier), a, state.verifier)
  }

  /** Everything that validation demands before it writes. */
  predicate Admissible(now: nat, who: Caller, b: Book, a: Hash, state: Account, plan: Plan)
    requires ValidOperation(plan.op)
  {
    && now <= plan.op.deadline && NonceAcceptable(b, a, plan.op.nonce)
    && (if state.verifier != 0 then plan.verdict == Answer(true) else state.owner != 0 && state.owner in who.witnesses)
    && (state.escapeAt > 0 ==> state.owner != 0 && state.owner in who.witnesses)
  }

  /** The target and the post-execution callbacks return, one after the other. */
  predicate TargetReturns(env: Env, w: World, a: Hash, state: Account, plan: Plan) {
    var body := External(env, SetContext(w, Target, a, plan.op.target), plan.body);
    && body.exit.Done?
    && var u := Regain(body.world, plan.op);
    && var hooked := if state.hook == 0 then Finish(u) else External(env, u, plan.postHook);
    && hooked.exit.Done?
    && (state.verifier != 0 ==> External(env, hooked.world, plan.postVerifier).exit.Done?)
  }

  /** The pre-execution hook returns, and then the rest under its key. */
  predicate CalleesReturn(env: Env, w: World, a: Hash, state: Account, plan: Plan) {
    if state.hook == 0 then TargetReturns(env, w, a, state, plan)
    else
      var pre := External(env, SetContext(w, Executing(Hook), a, state.hook), plan.pre);
      pre.exit.Done? && TargetReturns(env, pre.world, a, state, plan)
  }

  lemma TargetReturnsExactly(env: Env, w: World, a: Hash, state: Account, plan: Plan)
    requires Inv(w) && MayEnter(w, Target, a)
    ensures InTarget(env, w, a, state, plan).exit.Done? <==> TargetReturns(env, w, a, state, plan)
  {
    hide Inv, External, Finally, Sound;
    var inside := SetContext(w, Target, a, plan.op.target);
    SetContextKeepsInv(w, Target, a, plan.op.target);
    RunSound(env, inside, state, plan);
    FinallySound(w, Target, a, plan.op.target, Run(env, inside, state, plan), 0);
  }

  lemma CalleesReturnExactly(env: Env, w: World, a: Hash, state: Account, plan: Plan)
    requires Inv(w) && MayEnter(w, Target, a) && MayEnter(w, Executing(Hook), a)
    ensures var o := if state.hook == 0 then InTarget(env, w, a, state, plan) else Hooked(env, w, a, state, plan);
            o.exit.Done? <==> CalleesReturn(env, w, a, state, plan)
  {
    hide Inv, External, Finally, Sound, InTarget, TargetReturns;
    if state.hook == 0 {
      TargetReturnsExactly(env, w, a, state, plan);
    } else {
      var u := SetContext(w, Executing(Hook), a, state.hook);
      SetContextKeepsInv(w, Executing(Hook), a, state.hook);
      ExternalSound(env, u, plan.pre);
      var pre := External(env, u, plan.pre);
      FinallySound(w, Executing(Hook), a, state.hook, pre, 0);
      if !pre.exit.Aborted? {
        Arrives(u, pre, 0);
        TargetReturnsExactly(env, pre.world, a, state, plan);
        InTargetSound(env, pre.world, a, state, plan);
        var o := InTarget(env, pre.world, a, state, plan);
        Then(u, pre, o, 0);
        FinallySound(w, Executing(Hook), a, state.hook, o, 0);
      }
    }
  }

  lemma AdmittedExactly(env: Env, who: Caller, w: World, a: Hash, state: Account, plan: Plan)
    requires ValidOperation(plan.op) && a in w.book.accounts && state == w.book.accounts[a]
    ensures Admit(env, who, w, a, state, plan).exit.Done? <==> Admissible(w.header.time, who, w.book, a, state, plan)
  {
    hide Apply, NonceAcceptable;
    CancelKeepsNonces(w, a, plan.op.nonce);
  }

  lemma CancelKeepsNonces(w: World, a: Hash, nonce: nat)
    ensures NonceAcceptable(Emit(w, EscapeCancelled(a)).book, a, nonce) <==> NonceAcceptable(w.book, a, nonce)
  {
  }

  lemma ValidationReturnsExactly(env: Env, who: Caller, w: World, a: Hash, state: Account, plan: Plan)
    requires Inv(w) && Locked(w, a) && a in w.book.accounts && state == w.book.accounts[a] && !Escrowed(w.book, a)
    requires MayEnter(w, Target, a) && MayEnter(w, Executing(Hook), a) && ValidOperation(plan.op)
    ensures Validate(env, who, w, a, state, plan).exit.Done? <==>
              && Admissible(w.header.time, who, w.book, a, state, plan)
              && CalleesReturn(env, Admit(env, who, w, a, state, plan).world, a, state, plan)
  {
    hide Inv, Admit, Admissible, InTarget, Hooked, CalleesReturn, Sound, Escrowed, ValidOperation, Emit, NonceAcceptable;
    AdmitSound(env, who, w, a, state, plan);
    AdmittedExactly(env, who, w, a, state, plan);
    var first := Admit(env, who, w, a, state, plan);
    if first.exit.Done? {
      CalleesReturnExactly(env, first.world, a, state, plan);
    }
  }

  /** The guards of an operation. */
  predicate MayExecute(w: World, a: Hash, plan: Plan) {
    a != 0 && !Locked(w, a) && ValidOperation(plan.op) && a in w.book.accounts && !Escrowed(w.book, a)
  }

  /**
   An operation returns exactly when its guards hold, it is admissible, and the pre-execution hook, the
   target, the post-execution hook and the verifier's callback all return, each in the world the one
   before it left.  Any of them can stop it, whatever it did before it failed.
   */
  lemma OperationReturnsExactly(env: Env, who: Caller, w: World, a: Hash, plan: Plan)
    requires Inv(w)
    ensures ExecuteUserOp(env, who, w, a, plan).exit.Done? <==>
              && MayExecute(w, a, plan)
              && var state := w.book.accounts[a];
              && Admissible(w.header.time, who, w.book, a, state, plan)
              && CalleesReturn(env, Admit(env, who, UnderKeys(w, a, state), a, state, plan).world, a, state, plan)
  {
    hide Inv, Admit, Admissible, Validate, Finally, CalleesReturn, Sound, Escrowed, ValidOperation;
    if MayExecute(w, a, plan) {
      var state := w.book.accounts[a];
      var u := UnderKeys(w, a, state);
      UnderKeysReady(w, a, state);
      ValidationReturnsExactly(env, who, u, a, state, plan);
      ExecutionEndsAsValidation(env, who, w, a, plan);
    }
  }

  lemma UnderKeysReady(w: World, a: Hash, state: Account)
    requires Inv(w) && a != 0 && !Locked(w, a)
    ensures var u := UnderKeys(w, a, state);
            && Inv(u) && Locked(u, a) && u.book == w.book && MayEnter(u, Target, a) && MayEnter(u, Executing(Hook), a)
  {
    hide Inv;
    UnlockedIsClear(w, a);
    var locked := SetContext(w, Lock, a, a);
    SetContextKeepsInv(w, Lock, a, a);
    if state.verifier != 0 {
      SetContextKeepsInv(locked, Executing(Verifier), a, state.verifier);
    }
  }

  lemma ExecutionEndsAsValidation(env: Env, who: Caller, w: World, a: Hash, plan: Plan)
    requires Inv(w) && MayExecute(w, a, plan)
    ensures var state := w.book.accounts[a];
            ExecuteUserOp(env, who, w, a, plan).exit == Validate(env, who, UnderKeys(w, a, state), a, state, plan).exit
  {
    hide Inv, Validate, Finally, Sound, Escrowed, ValidOperation;
    var state := w.book.accounts[a];
    var w1, u := SetContext(w, Lock, a, a), UnderKeys(w, a, state);
    UnderKeysReady(w, a, state);
    UnlockedIsClear(w, a);
    SetContextKeepsInv(w, Lock, a, a);
    ValidateSound(env, who, u, a, state, plan);
    var o := Validate(env, who, u, a, state, plan);
    if state.verifier == 0 {
      FinallySound(w, Lock, a, a, o, a);
    } else {
      FinallySound(w1, Executing(Verifier), a, state.verifier, o, a);
      FinallySound(w, Lock, a, a, Finally(o, Executing(Verifier), a), a);
    }
  }

  // ---------------------------------------------------------------------------
  // Sponsored execution
  // ---------------------------------------------------------------------------

  lemma ReserveLogsFirst(w: World, requested: nat)
    ensures var o := Reserve(w, requested);
            o.exit.Done? ==> |o.world.log| == |w.log| + 1 && o.world.log[..|w.log|] == w.log
                             && o.world.log[|w.log|].Reserved? && o.world.log[|w.log|].requested == requested
  {
    hide Apply;
  }

  /** The execution that a sponsored call wraps. */
  function Sponsored(env: Env, who: Caller, w: World, call: Call): Outcome
    requires call.Sponsor? && (call.batch || |call.plans| > 0)
  {
    if call.batch then ExecuteUserOps(env, who, w, call.a, call.plans) else ExecuteUserOp(env, who, w, call.a, call.plans[0])
  }

  /** The reservation is the first thing a sponsored call writes, before any contract is called. */
  lemma SponsorshipReservesFirst(env: Env, who: Caller, w: World, call: Call)
    requires Inv(w) && call.Sponsor?
    ensures var o := DoSponsor(env, who, w, call);
            o.exit.Done? ==>
              |w.log| < |o.world.log| && o.world.log[|w.log|].Reserved? && o.world.log[|w.log|].requested == call.amount
  {
    hide Sound, Step, Inv, Apply, Emit, Reserve, ExecuteUserOps, ExecuteUserOp, External;
    var o := DoSponsor(env, who, w, call);
    if o.exit.Done? {
      ReserveSound(w, call.amount);
      ReserveLogsFirst(w, call.amount);
      var o1 := Reserve(w, call.amount);
      Arrives(w, o1, 0);
      var w1 := o1.world;
      ExecuteAllSound(env, who, w1, call.a, call.plans);
      ExecuteSound(env, who, w1, call.a, call.plans[0]);
      var o3 := Sponsored(env, who, w1, call);
      Arrives(w1, o3, 0);
      ExternalSound(env, o3.world, call.settlement);
      Arrives(o3.world, o, 0);
      assert o.world.log[|w.log|] == o.world.log[..|o3.world.log|][|w.log|];
      assert o3.world.log[|w.log|] == o3.world.log[..|w1.log|][|w.log|];
    }
  }

  // ---------------------------------------------------------------------------
  // Rosters
  // ---------------------------------------------------------------------------

  /** An enrolment that returns has stored exactly the roster it was given, on record with its start, and cleaned up exactly what left. */
  lemma EnrolmentStoresTheRoster(env: Env, who: Caller, w: World, call: Call)
    requires Inv(w) && call.SetDependencies?
    ensures var o := DoSetDependencies(env, who, w, call);
            o.exit.Done? ==>
              && (call.role, call.a) in o.world.book.rosters && o.world.book.rosters[(call.role, call.a)] == call.children
              && |o.world.log| > |w.log| && o.world.log[|o.world.log| - 1] == RosterSet(call.role, call.a, call.children, |w.log|)
              && forall c | c in Get(w.book.rosters, (call.role, call.a), []) && c !in call.children ::
                   CleanedSince(o.world.log, |w.log|, call.role, call.a, c)
  {
    hide Sound, Step, Inv, Apply, CleanAll, ValidChildren, CleanedSince, Escrowed, InRootContext;
    var (role, a, children) := (call.role, call.a, call.children);
    var o := DoSetDependencies(env, who, w, call);
    if o.exit.Done? {
      var v, previous := Acquire(w, a), Get(w.book.rosters, (role, a), []);
      AcquireKeepsInv(w, a);
      MaintenanceMayConfigure(w, who, role, a, false);
      CleanAllSound(env, v, role, a, Removed(previous, children), call.cleanups, |w.log|);
      var cleaned := CleanAll(env, v, role, a, Removed(previous, children), call.cleanups);
      var e := RosterSet(role, a, children, |w.log|);
      assert ReplaceRoster(env, v, role, a, children, call) == if cleaned.exit.Done? then Finish(Emit(cleaned.world, e)) else cleaned;
      Arrives(v, cleaned, 0);
      RosterWritten(cleaned.world.book, role, a, children, |w.log|);
      LogGrows(cleaned.world.log, e);
      assert o.world.log == cleaned.world.log + [e];
      forall c | c in previous && c !in children ensures CleanedSince(o.world.log, |w.log|, role, a, c) {
        RemovedIsTheDifference(previous, children);
        assert c in Removed(previous, children) && CleanedSince(cleaned.world.log, |w.log|, role, a, c);
        CleanedLater(cleaned.world.log, o.world.log, |w.log|, role, a, c);
      }
    }
  }

  /** The roster that a clearing empties: the stored one, or the one the root reports when none is stored. */
  function ClearedRoster(w: World, call: Call): seq<Hash>
    requires call.ClearDependencies?
  {
    if (call.role, call.a) in w.book.rosters then w.book.rosters[(call.role, call.a)]
    else if call.legacy.Answer? then call.legacy.value
    else []
  }

  lemma ClearingUnfolds(env: Env, who: Caller, w: World, call: Call)
    requires call.ClearDependencies? && DoClearDependencies(env, who, w, call).exit.Done?
    ensures ValidDependencyCall(w, who, call.role, call.a, true)
    ensures var cleaned := CleanAll(env, Acquire(w, call.a), call.role, call.a, ClearedRoster(w, call), call.cleanups);
            && cleaned.exit.Done?
            && DoClearDependencies(env, who, w, call)
               == Release(Finish(Emit(cleaned.world, RosterCleared(call.role, call.a, |w.log|))), call.a)
  {
    hide Emit, CleanAll, ValidChildren, Escrowed, InRootContext;
    var root := Pointer(w.book.accounts[call.a], call.role);
    assert ClearRoster(env, Acquire(w, call.a), call.role, call.a, root, call).exit.Done?;
  }

  /** A clearing that returns has deleted the roster, on record with its start, and cleaned up all of it. */
  lemma ClearingEmptiesTheRoster(env: Env, who: Caller, w: World, call: Call)
    requires Inv(w) && call.ClearDependencies? && DoClearDependencies(env, who, w, call).exit.Done?
    ensures var o := DoClearDependencies(env, who, w, call);
            && (call.role, call.a) !in o.world.book.rosters
            && |o.world.log| > |w.log| && o.world.log[|o.world.log| - 1] == RosterCleared(call.role, call.a, |w.log|)
            && forall c | c in ClearedRoster(w, call) :: CleanedSince(o.world.log, |w.log|, call.role, call.a, c)
  {
    hide Sound, Step, Inv, Apply, CleanAll, CleanedSince, Escrowed, InRootContext, DoClearDependencies, ClearedRoster;
    var (role, a, children) := (call.role, call.a, ClearedRoster(w, call));
    var o, v := DoClearDependencies(env, who, w, call), Acquire(w, a);
    ClearingUnfolds(env, who, w, call);
    AcquireKeepsInv(w, a);
    MaintenanceMayConfigure(w, who, role, a, true);
    CleanAllSound(env, v, role, a, children, call.cleanups, |w.log|);
    var cleaned := CleanAll(env, v, role, a, children, call.cleanups);
    var e := RosterCleared(role, a, |w.log|);
    Arrives(v, cleaned, 0);
    RosterDeleted(cleaned.world.book, role, a, |w.log|);
    LogGrows(cleaned.world.log, e);
    forall c | c in children ensures CleanedSince(o.world.log, |w.log|, role, a, c) {
      CleanedLater(cleaned.world.log, o.world.log, |w.log|, role, a, c);
    }
  }

  lemma RosterDeleted(b: Book, role: Role, a: Hash, since: nat)
    ensures Apply(b, RosterCleared(role, a, since)).rosters == b.rosters - {(role, a)}
  {
  }

  // ---------------------------------------------------------------------------
  // Keys and depth
  // ---------------------------------------------------------------------------

  /** A cleanup deletes its configuration key, also one that an enclosing root context had set. */
  lemma CleanupDropsTheKey(env: Env, w: World, role: Role, a: Hash, m: Hash, b: Behaviour)
    requires Cleanup(env, w, role, a, m, b).exit.Done?
    ensures (Config(role), a) !in Cleanup(env, w, role, a, m, b).world.contexts
  {
    hide External, Apply;
  }

  lemma KeptAcross(w: World, o: Outcome)
    requires Sound(w, o, 0) && o.exit.Done?
    ensures ContextsKept(w, o.world.contexts)
  {
    hide Inv, ContextsKept, Stamped, ViewsFit;
  }

  lemma KeyStaysAway(w: World, v: World, k: (Slot, Hash))
    requires ContextsKept(w, v.contexts) && k !in w.contexts
    ensures k !in v.contexts
  {
  }

  /** What a maintenance leaves of the contexts: nothing changes, unless a child is cleaned up in the root's own context. */
  lemma MaintenanceContexts(env: Env, w: World, role: Role, a: Hash, root: Hash, leaving: seq<Hash>, cleanups: seq<Behaviour>)
    requires Inv(w) && MayEnter(w, Config(role), a) && (w.depth == 0 || InRootContext(w, role, a, root))
    requires CleanAll(env, w, role, a, leaving, cleanups).exit.Done?
    ensures CleanAll(env, w, role, a, leaving, cleanups).world.contexts
            == if leaving == [] then w.contexts else w.contexts - {(Config(role), a)}
  {
    hide Inv, Sound, Step, Cleanup, CleanedSince, Frozen;
    CleanAllSound(env, w, role, a, leaving, cleanups, |w.log|);
    var o := CleanAll(env, w, role, a, leaving, cleanups);
    KeptAcross(w, o);
    OnlyKey(w, role, a, root);
    if leaving != [] {
      CleanupDropsTheKey(env, w, role, a, leaving[0], cleanups[0]);
      var first := Cleanup(env, w, role, a, leaving[0], cleanups[0]);
      CleanupSound(env, w, role, a, leaving[0], cleanups[0]);
      Arrives(w, first, 0);
      StillConfigurable(w, first.world, role, a);
      CleanAllSound(env, first.world, role, a, leaving[1..], cleanups[1..], |first.world.log|);
      KeptAcross(first.world, o);
      KeyStaysAway(first.world, o.world, (Config(role), a));
    }
  }

  lemma OnlyKey(w: World, role: Role, a: Hash, root: Hash)
    requires Inv(w) && (w.depth == 0 || InRootContext(w, role, a, root))
    ensures w.contexts == if w.depth == 0 then map[] else map[(Config(role), a) := root]
  {
    if w.depth == 1 {
      var rest := w.contexts - {(Config(role), a)};
      assert w.contexts.Keys == rest.Keys + {(Config(role), a)};
      assert rest == map[];
    }
  }

  /** After an enrolment there are as many context keys as the depth counter says exactly at rest or when no child left. */
  lemma EnrolmentKeyCount(env: Env, who: Caller, w: World, call: Call)
    requires Inv(w) && call.SetDependencies? && DoSetDependencies(env, who, w, call).exit.Done?
    ensures var v := DoSetDependencies(env, who, w, call).world;
            && v.depth == w.depth
            && (|v.contexts| == v.depth <==>
                  w.depth == 0 || forall c | c in Get(w.book.rosters, (call.role, call.a), []) :: c in call.children)
  {
    hide Sound, Step, Inv, Apply, CleanAll, ValidChildren, Escrowed, Removed;
    var (role, a, children) := (call.role, call.a, call.children);
    var v, leaving := Acquire(w, a), Removed(Get(w.book.rosters, (role, a), []), children);
    var root := Pointer(w.book.accounts[a], role);
    AcquireKeepsInv(w, a);
    MaintenanceMayConfigure(w, who, role, a, false);
    var cleaned := CleanAll(env, v, role, a, leaving, call.cleanups);
    assert ReplaceRoster(env, v, role, a, children, call) ==
           if cleaned.exit.Done? then Finish(Emit(cleaned.world, RosterSet(role, a, children, |w.log|))) else cleaned;
    MaintenanceContexts(env, v, role, a, root, leaving, call.cleanups);
    CleanAllSound(env, v, role, a, leaving, call.cleanups, |v.log|);
    Arrives(v, cleaned, 0);
    OnlyKey(v, role, a, root);
    var previous := Get(w.book.rosters, (role, a), []);
    RemovedIsTheDifference(previous, children);
    assert leaving == [] <==> forall c | c in previous :: c in children by {
      assert leaving != [] ==> leaving[0] in leaving;
    }
  }
}
