/**
 An operation of the owner stops a running escape.  A rotation confirmed around it, from whose cleanup
 callback the operation was called, stores the record it had loaded before and so starts the escape
 again.  This module says exactly when that can happen, and gives the run in which it does.
 */
module Cancellation {
  import opened Bytes
  import opened Values
  import opened Records
  import opened Machine
  import opened Guarantee
  import opened Soundness
  import opened Runs
  import opened Rotation
  import opened Effects

  /** If an operation stops the escape while the confirmation runs, it is stopped when the confirmation returns. */
  ghost predicate CancellationSurvives(env: Env, who: Caller, w: World, call: Call) {
    call.ConfirmModule? ==>
      var o := DoConfirmModule(env, who, w, call);
      o.exit.Done? && Stopped(o.world.log, |w.log|, call.a) ==>
        call.a in o.world.book.accounts && o.world.book.accounts[call.a].escapeAt == 0
  }

  /** The calls that confirm the pending update of (role, a). */
  predicate ConfirmationOf(call: Call, role: Role, a: Hash) {
    call.ConfirmModule? && call.role == role && call.a == a
  }

  // ---------------------------------------------------------------------------
  // When it survives
  // ---------------------------------------------------------------------------

  /** Where a confirmation's events come from: the cleanup, the store, the set-up, and the drop. */
  lemma ConfirmationLog(env: Env, who: Caller, w: World, call: Call)
    requires Inv(w) && call.ConfirmModule? && DoConfirmModule(env, who, w, call).exit.Done?
    ensures call.a in w.book.accounts && (call.role, call.a) in w.book.updates
    ensures var (log, n) := (DoConfirmModule(env, who, w, call).world.log, StoreAt(env, w, call));
            && |w.log| <= n < |log| && QuietFrom(|w.log|, log[..n]) && log[..n] == OldCleanup(env, w, call).world.log
            && log[n] == Confirmation(env, w, call.role, call.a)
            && Extends(w.log, log[..n]) && LegalLog(log[..n]) && Replay(w.log) == w.book
  {
    hide Apply, DoConfirmModule, CleanRoot, SetUp, Frozen, Escrowed, CleanedSince, OnlyChanges, KeepsTheRest, Sound, Step, QuietFrom, LegalLog, Replay, LocksCover;
    ConfirmationInstalls(env, who, w, call);
    ConfirmationUnfolds(env, who, w, call);
    ConfirmationStores(env, w, call);
    ConfirmationPrefix(env, who, w, call);
  }

  lemma ConfirmationPrefix(env: Env, who: Caller, w: World, call: Call)
    requires Inv(w) && call.ConfirmModule? && DoConfirmModule(env, who, w, call).exit.Done?
    ensures call.a in w.book.accounts
    ensures var c := OldCleanup(env, w, call).world;
            Extends(c.log, DoConfirmModule(env, who, w, call).world.log)
  {
    hide Inv, Apply, DoConfirmModule, CleanRoot, SetUp, Frozen, Escrowed, CleanedSince, Sound, Step;
    ConfirmationUnfolds(env, who, w, call);
    ConfirmationStores(env, w, call);
    var (role, a, pending) := (call.role, call.a, w.book.updates[(call.role, call.a)]);
    var c, e := OldCleanup(env, w, call).world, Confirmation(env, w, role, a);
    var v := Emit(c, e);
    SetUpSound(env, v, a, pending.module_, pending.params, call.setup);
    var s := NewSetUp(env, v, call, pending);
    if role.Verifier? {
      Arrives(v, s, 0);
    }
    StoredAt(c.log, e, s.world.log, UpdateDropped(role, a));
  }

  /** A cancellation during the call happened during the cleanup or after the store. */
  lemma StoppedInParts(log: seq<Event>, from: nat, n: nat, a: Hash)
    requires from <= n < |log| && log[n] != EscapeCancelled(a) && Stopped(log, from, a) && !Stopped(log, n + 1, a)
    ensures Stopped(log[..n], from, a)
  {
    var i :| from <= i < |log| && log[i] == EscapeCancelled(a);
    assert i < n && log[..n][i] == EscapeCancelled(a);
  }

  /** With no escape running, or no installed module to clean up, the confirmation overwrites nothing. */
  lemma NothingToOverwrite(env: Env, who: Caller, w: World, call: Call)
    requires Inv(w) && call.ConfirmModule? && call.a in w.book.accounts
    requires w.book.accounts[call.a].escapeAt == 0 || Pointer(w.book.accounts[call.a], call.role) == 0
    ensures CancellationSurvives(env, who, w, call)
  {
    hide Apply, DoConfirmModule, CleanRoot, Escrowed, CleanedSince, Sound, Step, LegalLog, Replay, LocksCover, Frozen;
    var (o, a) := (DoConfirmModule(env, who, w, call), call.a);
    if o.exit.Done? && Stopped(o.world.log, |w.log|, a) {
      TimerAfterConfirmation(env, who, w, call);
      ConfirmationLog(env, who, w, call);
      var n := StoreAt(env, w, call);
      if !Stopped(o.world.log, n + 1, a) {
        StoppedInParts(o.world.log, |w.log|, n, a);
        if Pointer(w.book.accounts[a], call.role) == 0 {
          NoCleanup(env, w, call);
        }
        QuietTimer(o.world.log[..n], |w.log|, a);
      }
    }
  }

  lemma NoCleanup(env: Env, w: World, call: Call)
    requires call.ConfirmModule? && call.a in w.book.accounts && Pointer(w.book.accounts[call.a], call.role) == 0
    ensures OldCleanup(env, w, call).world.log == w.log
  {
  }

  // ---------------------------------------------------------------------------
  // When it does not
  // ---------------------------------------------------------------------------

  /** A callee that returns at once. */
  lemma QuietCallee(env: Env, w: World)
    ensures External(env, w, Return) == Finish(Look(w))
  {
    assert Perform(env, w, Return) == Finish(Look(w));
  }

  /** An operation in time, with small arguments. */
  function SmallOperation(now: nat, target: Hash, name: string, argCount: nat, first: Option<Hash>, nonce: nat): UserOperation {
    UserOperation(target, name, argCount, 32 * argCount, nonce, now, 0, first)
  }

  /** An operation none of whose callees calls the wallet back. */
  function QuietOperation(op: UserOperation): Plan {
    Plan(op, Answer(true), Return, Return, Return, Return)
  }

  lemma QuietCalleesReturn(env: Env, w: World, a: Hash, state: Account, op: UserOperation)
    ensures CalleesReturn(env, w, a, state, QuietOperation(op))
  {
    hide External;
    var plan := QuietOperation(op);
    var u := if state.hook == 0 then w else Look(SetContext(w, Executing(Hook), a, state.hook));
    QuietCallee(env, SetContext(w, Executing(Hook), a, state.hook));
    var t := SetContext(u, Target, a, plan.op.target);
    QuietCallee(env, t);
    var v := Regain(Look(t), plan.op);
    QuietCallee(env, v);
    QuietCallee(env, Look(v));
  }

  /** The owner can have an operation of the account admitted under this nonce. */
  predicate CanOperate(now: nat, b: Book, a: Hash, nonce: nat) {
    NonceAcceptable(b, a, nonce) && nonce < Pow256(32) && now < Pow256(32)
  }

  lemma SmallOperationIsValid(now: nat, b: Book, a: Hash, target: Hash, name: string, argCount: nat, first: Option<Hash>, nonce: nat)
    requires target != 0 && 0 < |name| <= 128 && argCount <= 64 && CanOperate(now, b, a, nonce)
    ensures var op := SmallOperation(now, target, name, argCount, first, nonce);
            ValidOperation(op) && now <= op.deadline && NonceAcceptable(b, a, op.nonce)
  {
  }

  lemma QuietOperationReturns(env: Env, who: Caller, w: World, a: Hash, op: UserOperation)
    requires Inv(w) && a != 0 && !Locked(w, a) && ByOwner(w.book, who, a) && !Escrowed(w.book, a)
    requires ValidOperation(op) && w.header.time <= op.deadline && NonceAcceptable(w.book, a, op.nonce)
    ensures ExecuteUserOp(env, who, w, a, QuietOperation(op)).exit.Done?
  {
    hide Inv, Admit, CalleesReturn, Escrowed, ExecuteUserOp, NonceAcceptable;
    var (plan, state) := (QuietOperation(op), w.book.accounts[a]);
    OperationReturnsExactly(env, who, w, a, plan);
    QuietCalleesReturn(env, Admit(env, who, UnderKeys(w, a, state), a, state, plan).world, a, state, op);
  }

  /** A module that, asked to clean up, calls one operation of the account and returns. */
  function OperatingCleanup(now: nat, who: Caller, a: Hash, nonce: nat): Behaviour {
    Invoke(who, Execute(a, QuietOperation(SmallOperation(now, 1, "x", 0, None, nonce))), false, Return)
  }

  lemma OperatingCleanupStops(env: Env, who: Caller, w: World, a: Hash, nonce: nat)
    requires Inv(w) && w.depth > 0 && a != 0 && !Locked(w, a) && ByOwner(w.book, who, a) && !Escrowed(w.book, a)
    requires CanOperate(w.header.time, w.book, a, nonce) && w.book.accounts[a].escapeAt > 0
    ensures var o := External(env, w, OperatingCleanup(w.header.time, who, a, nonce));
            o.exit.Done? && Stopped(o.world.log, |w.log|, a)
  {
    hide Apply, ExecuteUserOp, Escrowed, CanOperate, Moves, ViewsFit, LegalLog, Replay, LocksCover, OneOperation, Stopped, StampFits, ValidOperation, NonceAcceptable;
    var op := SmallOperation(w.header.time, 1, "x", 0, None, nonce);
    var (u, plan) := (Look(w), QuietOperation(op));
    LookSound(w, 0);
    SmallOperationIsValid(w.header.time, u.book, a, 1, "x", 0, None, nonce);
    QuietOperationReturns(env, who, u, a, op);
    ExecuteSound(env, who, u, a, plan);
    OperationRunsOnce(env, who, u, a, plan);
    var o := ExecuteUserOp(env, who, u, a, plan);
    OperationCalled(env, who, u, a, plan);
    LastInvoke(env, w, who, a, plan, o.world);
    OperationStops(u, o.world, a, nonce);
  }

  lemma OperationCalled(env: Env, who: Caller, w: World, a: Hash, plan: Plan)
    requires ExecuteUserOp(env, who, w, a, plan).exit.Done?
    ensures Enter(env, who, w, Execute(a, plan)) == ExecuteUserOp(env, who, w, a, plan)
  {
    hide ExecuteUserOp;
    assert Dispatch(env, who, w, Execute(a, plan)) == ExecuteUserOp(env, who, w, a, plan);
  }

  lemma LastInvoke(env: Env, w: World, who: Caller, a: Hash, plan: Plan, v: World)
    requires Enter(env, who, Look(w), Execute(a, plan)) == Finish(v)
    ensures External(env, w, Invoke(who, Execute(a, plan), false, Return)) == Finish(Look(v))
  {
    hide Enter;
    assert Perform(env, v, Return) == Finish(Look(v));
    assert Perform(env, w, Invoke(who, Execute(a, plan), false, Return)) == Finish(Look(v));
  }

  /** An operation that returned under a context stopped a running escape, and the log says so. */
  lemma OperationStops(w: World, v: World, a: Hash, nonce: nat)
    requires Inv(w) && w.depth > 0 && Step(w, v, 0) && OneOperation(w.book, v.book, a, nonce) && w.book.accounts[a].escapeAt > 0
    ensures Stopped(v.log, |w.log|, a)
  {
    hide LegalLog, Replay, LocksCover, ViewsFit, Stopped;
    forall i | |w.log| <= i < |v.log| ensures Quiet(v.log[i]) {
      assert StampFits(w, v.log[i], i, v.views);
    }
    QuietTimer(v.log, |w.log|, a);
  }

  /** The confirmation around such a cleanup. */
  function Overwriting(now: nat, who: Caller, role: Role, a: Hash, nonce: nat): Call {
    ConfirmModule(role, a, Answer(true), OperatingCleanup(now, who, a, nonce), Return)
  }

  predicate Confirmable(env: Env, who: Caller, w: World, role: Role, a: Hash) {
    && Configurable(w, who, a) && (role, a) in w.book.updates
    && w.header.time >= w.book.updates[(role, a)].since + CONFIG_TIMELOCK_MS
  }

  /** It returns, the operation did stop the escape, and the escape is running as before. */
  lemma OverwritingRestarts(env: Env, who: Caller, w: World, role: Role, a: Hash, nonce: nat)
    requires Inv(w) && a != 0 && Confirmable(env, who, w, role, a) && CanOperate(w.header.time, w.book, a, nonce)
    requires w.book.accounts[a].escapeAt > 0 && Pointer(w.book.accounts[a], role) != 0
    ensures var o := DoConfirmModule(env, who, w, Overwriting(w.header.time, who, role, a, nonce));
            && o.exit.Done? && Stopped(o.world.log, |w.log|, a)
            && a in o.world.book.accounts && o.world.book.accounts[a].escapeAt == w.book.accounts[a].escapeAt
  {
    hide Apply, DoConfirmModule, External, Escrowed, CanOperate, Sound, Step, LegalLog, Replay, LocksCover, Frozen, Stopped, CleanedSince, Emit;
    var call, m := Overwriting(w.header.time, who, role, a, nonce), Pointer(w.book.accounts[a], role);
    var u := SetContext(w, Config(role), a, m);
    SetContextKeepsInv(w, Config(role), a, m);
    OperatingCleanupStops(env, who, u, a, nonce);
    CleanRootIsQuiet(env, w, role, a, m, call.cleanup);
    OverwritingReturns(env, who, w, role, a, nonce);
    TimerAfterConfirmation(env, who, w, call);
    ConfirmationLog(env, who, w, call);
    CleanupLog(env, w, role, a, m, call.cleanup);
    var o := DoConfirmModule(env, who, w, call).world;
    StoppedLater(External(env, u, call.cleanup).world.log, o.log, |w.log|, a);
    QuietSetUpStopsNothing(env, who, w, call);
  }

  lemma OverwritingReturns(env: Env, who: Caller, w: World, role: Role, a: Hash, nonce: nat)
    requires Inv(w) && Confirmable(env, who, w, role, a)
    requires CleanupExit(env, w, role, a, Pointer(w.book.accounts[a], role), OperatingCleanup(w.header.time, who, a, nonce)).Done?
    ensures DoConfirmModule(env, who, w, Overwriting(w.header.time, who, role, a, nonce)).exit.Done?
  {
    hide Inv, DoConfirmModule, External, Escrowed, CleanRoot, Emit;
    var call, pending := Overwriting(w.header.time, who, role, a, nonce), w.book.updates[(role, a)];
    ConfirmationReturnsExactly(env, who, w, call);
    var v := Emit(OldCleanup(env, w, call).world, Confirmation(env, w, role, a));
    QuietCallee(env, SetContext(v, Config(Verifier), a, pending.module_));
  }

  /** What the module logged during its cleanup is in the cleanup's log. */
  lemma CleanupLog(env: Env, w: World, role: Role, a: Hash, m: Hash, b: Behaviour)
    requires Inv(w) && !Locked(w, a) && m != 0 && CleanRoot(env, w, role, a, m, b).exit.Done?
    ensures var inside := External(env, SetContext(w, Config(role), a, m), b).world;
            Extends(inside.log, CleanRoot(env, w, role, a, m, b).world.log)
  {
    hide Inv, Apply, External, Finally;
    var o := External(env, SetContext(w, Config(role), a, m), b);
    FinallyKeeps(o, Config(role), a);
    LogGrows(o.world.log, Cleaned(role, a, m, |w.views|));
    assert Within(env, w, Config(role), a, m, b) == Finally(o, Config(role), a);
    assert CleanRoot(env, w, role, a, m, b) == Cleanup(env, w, role, a, m, b);
  }

  lemma StoppedLater(past: seq<Event>, log: seq<Event>, n: nat, a: Hash)
    requires Stopped(past, n, a) && |past| <= |log| && log[..|past|] == past
    ensures Stopped(log, n, a)
  {
    var i :| n <= i < |past| && past[i] == EscapeCancelled(a);
    assert log[i] == log[..|past|][i];
  }

  /** A set-up that returns at once stops nothing after the store. */
  lemma QuietSetUpStopsNothing(env: Env, who: Caller, w: World, call: Call)
    requires Inv(w) && call.ConfirmModule? && call.setup == Return && DoConfirmModule(env, who, w, call).exit.Done?
    ensures call.a in w.book.accounts && !Stopped(DoConfirmModule(env, who, w, call).world.log, StoreAt(env, w, call) + 1, call.a)
  {
    hide Inv, Apply, DoConfirmModule, CleanRoot, External, Finally, Escrowed, CleanedSince, Frozen;
    ConfirmationUnfolds(env, who, w, call);
    ConfirmationStores(env, w, call);
    var (role, a, pending) := (call.role, call.a, w.book.updates[(call.role, call.a)]);
    var v := Emit(OldCleanup(env, w, call).world, Confirmation(env, w, role, a));
    var inside := SetContext(v, Config(Verifier), a, pending.module_);
    QuietCallee(env, inside);
    FinallyKeeps(Finish(Look(inside)), Config(Verifier), a);
    var s := NewSetUp(env, v, call, pending);
    assert s.world.log == v.log;
    NothingAfter(v.log, UpdateDropped(role, a), a);
  }

  // ---------------------------------------------------------------------------
  // Exactly when
  // ---------------------------------------------------------------------------

  /**
   For a due confirmation of an account that can still operate: a cancellation survives, whatever the
   modules do, if and only if on entry no escape is running or no module is installed in the role.
   */
  lemma CancellationSurvivesExactly(env: Env, who: Caller, w: World, role: Role, a: Hash, nonce: nat)
    requires Inv(w) && a != 0 && Confirmable(env, who, w, role, a) && CanOperate(w.header.time, w.book, a, nonce)
    ensures (forall call | ConfirmationOf(call, role, a) :: CancellationSurvives(env, who, w, call)) <==>
              w.book.accounts[a].escapeAt == 0 || Pointer(w.book.accounts[a], role) == 0
  {
    hide Inv, Idle, Escrowed, CanOperate, DoConfirmModule;
    if w.book.accounts[a].escapeAt == 0 || Pointer(w.book.accounts[a], role) == 0 {
      forall call | ConfirmationOf(call, role, a) ensures CancellationSurvives(env, who, w, call) {
        NothingToOverwrite(env, who, w, call);
      }
    } else {
      OverwritingRestarts(env, who, w, role, a, nonce);
      var call := Overwriting(w.header.time, who, role, a, nonce);
      assert ConfirmationOf(call, role, a) && !CancellationSurvives(env, who, w, call);
    }
  }
}
