/**
 Operations nested in the target of another one.  The wallet has shown the target of every operation that
 returned; so wherever two accounts can operate, an operation of one can have the core call the other's
 hook back while that other account executes.
 */
module Nesting {
  import opened Bytes
  import opened Values
  import opened Records
  import opened Machine
  import opened Guarantee
  import opened Soundness
  import opened Runs
  import opened Effects
  import opened Cancellation
  import opened Callbacks
  import opened DailyHistory
  import opened DailyLimit
  import opened Sessions
  import opened Metering

  // ---------------------------------------------------------------------------
  // An operation shows its target
  // ---------------------------------------------------------------------------

  predicate ShowsAt(x: View, op: UserOperation) {
    x.kept && x.returned == Some(op)
  }

  /** Between `w` and `v`, at a moment that is not rolled back, the target of the operation returned. */
  ghost predicate Shows(w: World, v: World, op: UserOperation) {
    exists k: nat | |w.views| <= k < |v.views| :: ShowsAt(v.views[k], op)
  }

  lemma ShowsLater(w: World, u: World, v: World, x: World, op: UserOperation)
    requires Shows(u, v, op) && |w.views| <= |u.views| && Extends(v.views, x.views)
    ensures Shows(w, x, op)
  {
    hide ShowsAt;
    var k: nat :| |u.views| <= k < |v.views| && ShowsAt(v.views[k], op);
    assert x.views[k] == x.views[..|v.views|][k];
  }

  lemma RegainShows(w: World, op: UserOperation)
    ensures Shows(w, Regain(w, op), op)
  {
    assert ShowsAt(Regain(w, op).views[|w.views|], op);
  }

  lemma RunShows(env: Env, w: World, state: Account, plan: Plan)
    requires Inv(w) && Run(env, w, state, plan).exit.Done?
    ensures Shows(w, Run(env, w, state, plan).world, plan.op)
  {
    hide Inv, External, Sound, Shows;
    ExternalSound(env, w, plan.body);
    var body := External(env, w, plan.body);
    OutcomeExtends(w, body);
    Arrives(w, body, 0);
    var u := Regain(body.world, plan.op);
    RegainShows(body.world, plan.op);
    RegainSound(body.world, plan.op, 0);
    ExternalSound(env, u, plan.postHook);
    var hooked := if state.hook != 0 then External(env, u, plan.postHook) else Finish(u);
    OutcomeExtends(u, External(env, u, plan.postHook));
    HookedArrives(env, u, state, plan);
    ExternalSound(env, hooked.world, plan.postVerifier);
    OutcomeExtends(hooked.world, External(env, hooked.world, plan.postVerifier));
    ShowsLater(w, body.world, u, hooked.world, plan.op);
    ShowsLater(w, w, hooked.world, Run(env, w, state, plan).world, plan.op);
  }

  lemma OutcomeExtends(w: World, o: Outcome)
    requires Sound(w, o, 0)
    ensures Extends(w.views, o.world.views)
  {
  }

  lemma HookedArrives(env: Env, w: World, state: Account, plan: Plan)
    requires Inv(w) && (state.hook != 0 ==> External(env, w, plan.postHook).exit.Done?)
    ensures Inv(if state.hook != 0 then External(env, w, plan.postHook).world else w)
  {
    hide Inv, External, Sound;
    ExternalSound(env, w, plan.postHook);
    if state.hook != 0 {
      Arrives(w, External(env, w, plan.postHook), 0);
    }
  }

  lemma InTargetShows(env: Env, w: World, a: Hash, state: Account, plan: Plan)
    requires Inv(w) && MayEnter(w, Target, a) && InTarget(env, w, a, state, plan).exit.Done?
    ensures Shows(w, InTarget(env, w, a, state, plan).world, plan.op)
  {
    hide Inv, Run, Finally;
    var u := SetContext(w, Target, a, plan.op.target);
    SetContextKeepsInv(w, Target, a, plan.op.target);
    var o := Run(env, u, state, plan);
    FinallyNeedsDone(o, Target, a);
    RunShows(env, u, state, plan);
    FinallyKeeps(o, Target, a);
    ShowsLater(w, u, o.world, Finally(o, Target, a).world, plan.op);
  }

  lemma FinallyNeedsDone(o: Outcome, slot: Slot, a: Hash)
    ensures Finally(o, slot, a).exit.Done? ==> o.exit.Done?
  {
  }

  lemma HookedShows(env: Env, w: World, a: Hash, state: Account, plan: Plan)
    requires Inv(w) && MayEnter(w, Target, a) && MayEnter(w, Executing(Hook), a) && Hooked(env, w, a, state, plan).exit.Done?
    ensures Shows(w, Hooked(env, w, a, state, plan).world, plan.op)
  {
    hide Inv, External, InTarget, Finally, Sound;
    var u := SetContext(w, Executing(Hook), a, state.hook);
    SetContextKeepsInv(w, Executing(Hook), a, state.hook);
    var pre := External(env, u, plan.pre);
    FinallyNeedsDone(pre, Executing(Hook), a);
    ExternalSound(env, u, plan.pre);
    Arrives(u, pre, 0);
    OutcomeExtends(u, pre);
    var o := InTarget(env, pre.world, a, state, plan);
    FinallyNeedsDone(o, Executing(Hook), a);
    MayEnterLater(u, pre.world, a);
    InTargetShows(env, pre.world, a, state, plan);
    FinallyKeeps(o, Executing(Hook), a);
    ShowsLater(w, pre.world, o.world, Finally(o, Executing(Hook), a).world, plan.op);
  }

  lemma MayEnterLater(w: World, v: World, a: Hash)
    requires Step(w, v, 0) && MayEnter(w, Target, a)
    ensures MayEnter(v, Target, a)
  {
    hide Inv, Stamped, ViewsFit;
  }

  lemma ValidateShows(env: Env, who: Caller, w: World, a: Hash, state: Account, plan: Plan)
    requires Inv(w) && Locked(w, a) && a in w.book.accounts && state == w.book.accounts[a] && !Escrowed(w.book, a)
    requires MayEnter(w, Target, a) && MayEnter(w, Executing(Hook), a) && ValidOperation(plan.op)
    requires Validate(env, who, w, a, state, plan).exit.Done?
    ensures Shows(w, Validate(env, who, w, a, state, plan).world, plan.op)
  {
    hide Inv, Admit, InTarget, Hooked, Sound, Escrowed, ValidOperation;
    AdmitSound(env, who, w, a, state, plan);
    var first := Admit(env, who, w, a, state, plan);
    OwnOutcomeExtends(w, first, a);
    if state.hook == 0 {
      InTargetShows(env, first.world, a, state, plan);
    } else {
      HookedShows(env, first.world, a, state, plan);
    }
    var v := Validate(env, who, w, a, state, plan).world;
    ShowsLater(w, first.world, v, v, plan.op);
  }

  lemma OwnOutcomeExtends(w: World, o: Outcome, a: Hash)
    requires Sound(w, o, a)
    ensures Extends(w.views, o.world.views)
  {
  }

  /** The wallet has shown, at a moment that is kept, that the target of an operation that returned did return. */
  lemma OperationShows(env: Env, who: Caller, w: World, a: Hash, plan: Plan)
    requires Inv(w) && ExecuteUserOp(env, who, w, a, plan).exit.Done?
    ensures Shows(w, ExecuteUserOp(env, who, w, a, plan).world, plan.op)
  {
    hide Inv, Validate, Finally, Sound, Escrowed, ValidOperation, ExecuteUserOp, Admissible, CalleesReturn, Admit;
    OperationReturnsExactly(env, who, w, a, plan);
    var state := w.book.accounts[a];
    var w1, u := SetContext(w, Lock, a, a), UnderKeys(w, a, state);
    UnderKeysReady(w, a, state);
    ExecutesUnderLocks(env, who, w, a, plan);
    var v := UnderLocks(env, who, w1, a, state, plan);
    var o := Validate(env, who, u, a, state, plan);
    FinallyNeedsDone(v, Lock, a);
    FinallyNeedsDone(o, Executing(Verifier), a);
    ValidateShows(env, who, u, a, state, plan);
    FinallyKeeps(o, Executing(Verifier), a);
    FinallyKeeps(v, Lock, a);
    ShowsLater(w, u, o.world, Finally(v, Lock, a).world, plan.op);
  }

  // ---------------------------------------------------------------------------
  // An operation that has the other account's hook called back
  // ---------------------------------------------------------------------------

  /** The operation whose target call is one of the hook's callbacks: the last one, early, or the first one once more. */
  function CallbackOperation(now: nat, callee: Callee, early: bool, nonce: nat): UserOperation {
    if early then SmallOperation(now, callee.hook, "postExecute", 3, Some(callee.account), nonce)
    else SmallOperation(now, callee.hook, "preExecute", 2, Some(callee.account), nonce)
  }

  /** The behaviour of a contract that has such an operation of `b` executed. */
  function Reach(now: nat, who: Caller, callee: Callee, early: bool, b: Hash, nonce: nat): Behaviour {
    Invoke(who, Execute(b, QuietOperation(CallbackOperation(now, callee, early, nonce))), false, Return)
  }

  /** An operation with such a contract as its target. */
  function Reaching(now: nat, who: Caller, target: Hash, nonce: nat, callee: Callee, early: bool, b: Hash, other: nat): Plan {
    QuietOperation(SmallOperation(now, target, "run", 0, None, nonce)).(body := Reach(now, who, callee, early, b, other))
  }

  /** Both accounts can operate. */
  predicate BothOperate(env: Env, who: Caller, w: World, a: Hash, nonce: nat, b: Hash, other: nat) {
    && a != 0 && b != 0 && a != b && !Locked(w, a) && !Locked(w, b)
    && ByOwner(w.book, who, a) && !Escrowed(w.book, a) && CanOperate(w.header.time, w.book, a, nonce)
    && ByOwner(w.book, who, b) && !Escrowed(w.book, b) && CanOperate(w.header.time, w.book, b, other)
  }

  /** What admitting an operation of `a` leaves to another account. */
  lemma OthersCanOperate(env: Env, who: Caller, w: World, a: Hash, b: Hash, nonce: nat, other: nat, stopped: bool)
    requires a != b && ByOwner(w.book, who, b) && !Escrowed(w.book, b) && CanOperate(w.header.time, w.book, b, other)
    ensures var v := if stopped then Emit(w, EscapeCancelled(a)) else w;
            var x := Emit(v, NonceConsumed(a, Channel(nonce), Sequence(nonce)));
            x.header == w.header && ByOwner(x.book, who, b) && !Escrowed(x.book, b) && CanOperate(w.header.time, x.book, b, other)
  {
    hide Channel, Sequence, Pow256;
  }

  /** In the target phase of an admitted operation, the other account can operate. */
  lemma TargetLeavesOthers(env: Env, who: Caller, w: World, h: Instance, plan: Plan, b: Hash, other: nat)
    requires var at := Setting(env, who, w, plan);
             && Hosts(h, at) && plan.pre == Return && Admissible(w.header.time, who, w.book, h.account, w.book.accounts[h.account], plan)
    requires h.account != b && !Locked(w, b) && ByOwner(w.book, who, b) && !Escrowed(w.book, b) && CanOperate(w.header.time, w.book, b, other)
    ensures var u := TargetStart(h, Setting(env, who, w, plan));
            && Inv(u) && u.header == w.header && !Locked(u, b) && (Target, b) !in u.contexts
            && ByOwner(u.book, who, b) && !Escrowed(u.book, b) && CanOperate(u.header.time, u.book, b, other)
  {
    hide Inv, Admit, Admissible, External, Sound, Step, Escrowed, ValidOperation, CanOperate, ByOwner, Emit;
    var (a, state) := (h.account, w.book.accounts[h.account]);
    UnlockedIsClear(w, b);
    var v := UnderKeys(w, a, state);
    UnderKeysReady(w, a, state);
    AdmittedExactly(env, who, v, a, state, plan);
    AdmitSound(env, who, v, a, state, plan);
    OthersCanOperate(env, who, v, a, b, plan.op.nonce, other, state.escapeAt > 0);
    var admitted := Admit(env, who, v, a, state, plan).world;
    SetContextKeepsInv(admitted, Executing(Hook), a, state.hook);
    var u := SetContext(admitted, Executing(Hook), a, state.hook);
    QuietCallee(env, u);
    LookSound(u, 0);
    SetContextKeepsInv(Look(u), Target, a, plan.op.target);
  }

  /** The target's call: the operation of `b` goes through, and the hook has returned from its callback. */
  lemma ReachShows(env: Env, who: Caller, w: World, callee: Callee, early: bool, b: Hash, nonce: nat)
    requires Inv(w) && b != 0 && callee.hook != 0 && !Locked(w, b) && ByOwner(w.book, who, b) && !Escrowed(w.book, b)
    requires CanOperate(w.header.time, w.book, b, nonce)
    ensures var o := External(env, w, Reach(w.header.time, who, callee, early, b, nonce));
            o.exit.Done? && Shows(w, o.world, CallbackOperation(w.header.time, callee, early, nonce))
  {
    hide Inv, ExecuteUserOp, Shows, Escrowed, ByOwner, Enter, NonceAcceptable;
    var op := CallbackOperation(w.header.time, callee, early, nonce);
    var (u, plan) := (Look(w), QuietOperation(op));
    LookSound(w, 0);
    QuietOperationReturns(env, who, u, b, op);
    OperationCalled(env, who, u, b, plan);
    OperationShows(env, who, u, b, plan);
    var v := ExecuteUserOp(env, who, u, b, plan).world;
    LastInvoke(env, w, who, b, plan, v);
    ShowsLater(w, u, v, Look(v), op);
  }

  lemma ReachingReturns(env: Env, who: Caller, w: World, h: Instance, plan: Plan)
    requires var at := Setting(env, who, w, plan);
             && Hosts(h, at) && plan.pre == plan.postHook == plan.postVerifier == Return
             && Admissible(w.header.time, who, w.book, h.account, w.book.accounts[h.account], plan) && TargetEnd(h, at).exit.Done?
    ensures ExecuteUserOp(env, who, w, h.account, plan).exit.Done?
  {
    hide External, Admit, Admissible, ExecuteUserOp, Inv, ValidOperation, Escrowed;
    var (at, a, state) := (Setting(env, who, w, plan), h.account, w.book.accounts[h.account]);
    OperationReturnsExactly(env, who, w, a, plan);
    QuietCallee(env, FirstCallback(h, at));
    var done := TargetDone(h, at);
    QuietCallee(env, done);
    QuietCallee(env, Look(done));
  }

  lemma {:induction false} ShownIsReturned(h: Instance, views: seq<View>, from: nat, k: nat, op: UserOperation)
    requires from <= k < |views| && ShowsAt(views[k], op) && CalleeOf(h).Calls(op)
    ensures Returned(h, views, from) != []
    decreases |views|
  {
    if k < |views| - 1 {
      ShownIsReturned(h, views[..|views| - 1], from, k, op);
    }
  }

  lemma ShownIsCalledBack(h: Instance, at: Setting, op: UserOperation)
    requires MayExecute(at.w, h.account, at.plan) && CalleeOf(h).Calls(op)
    requires Shows(TargetStart(h, at), TargetEnd(h, at).world, op)
    ensures CalledBack(h, at) != []
  {
    hide TargetStart, TargetEnd, MayExecute, ShowsAt, Returned;
    var (u, v, w) := (TargetStart(h, at), TargetEnd(h, at).world, TargetDone(h, at));
    var k: nat :| |u.views| <= k < |v.views| && ShowsAt(v.views[k], op);
    ShownIsReturned(h, w.views, |u.views|, k, op);
  }

  /**
   Wherever two accounts can operate: the operation of the one whose target executes an operation of the
   other on the first one's hook goes through, and has the core call that hook back meanwhile.
   */
  lemma NestedOperationAims(h: Instance, env: Env, who: Caller, w: World, target: Hash, nonce: nat, early: bool, b: Hash, other: nat)
    requires target != 0 && target != h.self && BothOperate(env, who, w, h.account, nonce, b, other)
    requires Hosts(h, Setting(env, who, w, Reaching(w.header.time, who, target, nonce, CalleeOf(h), early, b, other)))
    ensures var at := Setting(env, who, w, Reaching(w.header.time, who, target, nonce, CalleeOf(h), early, b, other));
            Executed(h, at).exit.Done? && Aimed(h, at)
  {
    hide Inv, External, ExecuteUserOp, Escrowed, ValidOperation, TargetStart, FirstCallback, CalledBack, Shows;
    var plan := Reaching(w.header.time, who, target, nonce, CalleeOf(h), early, b, other);
    var at := Setting(env, who, w, plan);
    TargetLeavesOthers(env, who, w, h, plan, b, other);
    ReachShows(env, who, TargetStart(h, at), CalleeOf(h), early, b, other);
    ReachingReturns(env, who, w, h, plan);
    ShownIsCalledBack(h, at, CallbackOperation(w.header.time, CalleeOf(h), early, other));
  }

  /** So any amount of any limited token can leave in it uncharged: metering completeness fails at this input. */
  lemma NestedOperationHidesTheOutflow(
      h: Instance, m: Meter, env: Env, who: Caller, w: World, target: Hash, nonce: nat, early: bool, b: Hash, other: nat,
      token: Token, amount: nat)
    returns (x: Execution)
    requires target != 0 && target != h.self && BothOperate(env, who, w, h.account, nonce, b, other)
    requires Hosts(h, Setting(env, who, w, Reaching(w.header.time, who, target, nonce, CalleeOf(h), early, b, other)))
    requires !h.native && Settled(false, m) && token in m.limits && amount > m.limits[token].maxAmount
    ensures x.at == Setting(env, who, w, Reaching(w.header.time, who, target, nonce, CalleeOf(h), early, b, other)) && Occurs(h, x)
    ensures RunSession(h, m, SessionOf(h, x)) == Some(m) && Outgoing(false, SessionOf(h, x), token) >= amount
  {
    hide Hosts, Executed, Aimed, Occurs, SessionOf, BothOperate, Settled, CalledBack;
    var at := Setting(env, who, w, Reaching(w.header.time, who, target, nonce, CalleeOf(h), early, b, other));
    HostsHere(h, at);
    NestedOperationAims(h, env, who, w, target, nonce, early, b, other);
    var arguments := Arguments.Arguments(true, true, 0);
    MotionlessExecutionPasses(h, m, at, arguments);
    var i;
    x, i := AimedHidesTheOutflow(h, m, MotionlessExecution(h, at, arguments), token, amount);
  }
}
