/**
 The daily-limit hook together with the wallet that calls it.  The class runs sessions as module
 Sessions says.  In the deployed profile the wallet decides which calls in between are authorized: no
 configuration ever, and a callback exactly where the target call of a nested operation is that callback.
 */
module Metering {
  import opened Values
  import opened Records
  import opened Machine
  import opened Guarantee
  import opened Soundness
  import opened Effects
  import opened Callbacks
  import opened DailyLedger
  import opened DailyHistory
  import opened DailyLimit
  import opened Sessions
  import Witness

  // ---------------------------------------------------------------------------
  // The class runs sessions
  // ---------------------------------------------------------------------------

  /** Between operations: no snapshot is stored, and a token without a limit has no records. */
  ghost predicate AtRest(hook: DailyLimitHook)
    reads hook
  {
    hook.Valid() && Settled(hook.native, MeterOf(hook.State()))
  }

  lemma MeterFields(s: Storage)
    ensures MeterOf(s).limits == s.limits && MeterOf(s).snapshots == s.snapshots
    ensures forall t: Token :: MeterOf(s).ledgers[t] == LedgerIn(s, t)
  {
  }

  lemma OnlySnapshots(s: Storage, snapshots: map<Token, int>)
    ensures MeterOf(s.(snapshots := snapshots)) == MeterOf(s).(snapshots := snapshots)
  {
    SameMeter(MeterOf(s.(snapshots := snapshots)), MeterOf(s).(snapshots := snapshots));
  }

  /** One call of an entry point. */
  method Call(hook: DailyLimitHook, r: Request, now: int) returns (ok: bool)
    requires hook.Valid()
    modifies hook
    ensures var effect := Effect(hook.Identity(), MeterOf(old(hook.State())), r, now);
            (ok <==> effect.Some?) && (ok ==> hook.Valid() && MeterOf(hook.State()) == effect.value)
  {
    match r.change
    case SetLimit(token, maxAmount, useRollingWindow) => ok := CallSetLimit(hook, token, maxAmount, useRollingWindow, r.from);
    case ClearAll =>
      ok := hook.ClearAccount(r.from);
      if ok { SameMeter(MeterOf(hook.State()), NOTHING); }
    case Before(operation, balance) => ok := CallBefore(hook, operation, balance, now, r.from);
    case After(operation, accepted, balance) => ok := CallAfter(hook, operation, accepted, balance, now, r.from);
  }

  method CallSetLimit(hook: DailyLimitHook, token: Token, maxAmount: int, useRollingWindow: bool, from: Origin) returns (ok: bool)
    requires hook.Valid()
    modifies hook
    ensures var effect := Effect(hook.Identity(), MeterOf(old(hook.State())), Request(SetLimit(token, maxAmount, useRollingWindow), from), 0);
            (ok <==> effect.Some?) && (ok ==> hook.Valid() && MeterOf(hook.State()) == effect.value)
  {
    hide MayConfigure, LedgerIn, ValidHistory;
    ghost var m := MeterOf(hook.State());
    ok := hook.SetDailyLimit(token, maxAmount, useRollingWindow, from);
    if ok {
      ghost var n := MeterOf(hook.State());
      assert forall t: Token :: n.ledgers[t] == hook.LedgerOf(t);
      SameMeter(n, Limited(hook.native, m, token, maxAmount, useRollingWindow));
    }
  }

  method CallBefore(hook: DailyLimitHook, operation: Operation, balance: Token -> int, now: int, from: Origin) returns (ok: bool)
    requires hook.Valid()
    modifies hook
    ensures var effect := Effect(hook.Identity(), MeterOf(old(hook.State())), Request(Before(operation, balance), from), now);
            (ok <==> effect.Some?) && (ok ==> hook.Valid() && MeterOf(hook.State()) == effect.value)
  {
    hide MayCallBack, Admitted, MeterOf, LedgerIn, ValidHistory;
    ghost var s := hook.State();
    MeterFields(s);
    ok := hook.PreExecute(operation, now, balance, from);
    OnlySnapshots(s, hook.snapshots);
    if ok {
      assert hook.State() == s.(snapshots := hook.snapshots);
    }
  }

  method CallAfter(hook: DailyLimitHook, operation: Operation, accepted: bool, balance: Token -> int, now: int, from: Origin)
    returns (ok: bool)
    requires hook.Valid()
    modifies hook
    ensures var effect := Effect(hook.Identity(), MeterOf(old(hook.State())), Request(After(operation, accepted, balance), from), now);
            (ok <==> effect.Some?) && (ok ==> hook.Valid() && MeterOf(hook.State()) == effect.value)
  {
    hide MayCallBack, Metered, MeterOf, LedgerIn, ValidHistory, ChargedAll, Effect, MeteredLedger, Declared;
    ghost var m := MeterOf(hook.State());
    MeterFields(hook.State());
    AfterEffect(hook.Identity(), m, operation, accepted, balance, now, from);
    ChargedAllExactly(hook.native, m, operation, accepted, now, balance);
    ok := hook.PostExecute(operation, accepted, now, balance, from);
    ghost var n := MeterOf(hook.State());
    MeterFields(hook.State());
    if ok {
      forall t: Token ensures MeteredLedger(hook.native, m, operation, accepted, now, balance, t) == Some(n.ledgers[t]) {
        assert n.ledgers[t] == hook.LedgerOf(t);
        MeteredToken(hook.native, m, operation, accepted, now, balance, t);
      }
      ChargedAllIs(hook.native, m, operation, accepted, now, balance, n);
    }
  }

  lemma AfterEffect(h: Instance, m: Meter, operation: Operation, accepted: bool, balance: Token -> int, now: int, from: Origin)
    ensures Effect(h, m, Request(After(operation, accepted, balance), from), now)
         == if MayCallBack(h, from) then ChargedAll(h.native, m, operation, accepted, now, balance) else None
  {
    hide MayCallBack, ChargedAll;
  }

  lemma MeteredToken(native: bool, m: Meter, operation: Operation, accepted: bool, now: int, balance: Token -> int, t: Token)
    ensures var (direct, declared) := Declared(native, operation, accepted);
            MeteredLedger(native, m, operation, accepted, now, balance, t)
            == if t in m.limits then Metered(native, m.snapshots, m.limits, balance, direct, declared, t, now, m.ledgers[t]) else Some(m.ledgers[t])
  {
    hide Metered, Declared;
  }

  /** One operation of the account: the callbacks, whatever is called in between, and the rollback if anything fails. */
  method Operate(hook: DailyLimitHook, s: Session) returns (ok: bool)
    requires AtRest(hook) && (s.ends ==> Unconfigured(hook.Identity(), s))
    modifies hook
    ensures AtRest(hook)
    ensures var run := RunSession(hook.Identity(), MeterOf(old(hook.State())), s);
            if run.Some? then ok && MeterOf(hook.State()) == run.value else !ok && hook.State() == old(hook.State())
  {
    hide Effect, Settled, MeterOf, Whole, ValidHistory;
    var saved, calls := hook.State(), Whole(s);
    ghost var h, m := hook.Identity(), MeterOf(hook.State());
    ok := true;
    var i := 0;
    while ok && i < |calls|
      invariant i <= |calls|
      invariant ok ==> hook.Valid() && EffectAll(h, m, calls, s.now) == EffectAll(h, MeterOf(hook.State()), calls[i..], s.now)
      invariant !ok ==> EffectAll(h, m, calls, s.now) == None
    {
      assert calls[i..][0] == calls[i] && calls[i..][1..] == calls[i + 1..];
      ok := Call(hook, calls[i], s.now);
      i := i + 1;
    }
    if ok { assert calls[i..] == []; }
    if ok && s.ends {
      SessionsSettle(h, m, s);
    } else {
      ok := false;
      hook.Restore(saved);
    }
  }

  // ---------------------------------------------------------------------------
  // The wallet's operation
  // ---------------------------------------------------------------------------

  /** An operation that the wallet is asked to execute, and the wallet in which it starts. */
  datatype Setting = Setting(env: Env, who: Caller, w: World, plan: Plan)

  /** The account has the hook installed, the hook knows this core, and the operation passes its guards. */
  ghost predicate Hosts(h: Instance, at: Setting) {
    && Inv(at.w) && MayExecute(at.w, h.account, at.plan)
    && h.self != 0 && at.w.book.accounts[h.account].hook == h.self && h.core != 0 && h.core == at.env.self && h.core != h.self
    && !Witness.CanConfigure(at.w.contexts, Hook, h.account, h.self, h.self)
  }

  /** The wallet while the hook's first callback runs. */
  function FirstCallback(h: Instance, at: Setting): World
    requires MayExecute(at.w, h.account, at.plan)
  {
    var a, state := h.account, at.w.book.accounts[h.account];
    SetContext(Admit(at.env, at.who, UnderKeys(at.w, a, state), a, state, at.plan).world, Executing(Hook), a, state.hook)
  }

  /** The wallet when the target gets control, and what the target's call makes of it. */
  function TargetStart(h: Instance, at: Setting): World
    requires MayExecute(at.w, h.account, at.plan)
  {
    SetContext(External(at.env, FirstCallback(h, at), at.plan.pre).world, Target, h.account, at.plan.op.target)
  }

  function TargetEnd(h: Instance, at: Setting): Outcome
    requires MayExecute(at.w, h.account, at.plan)
  {
    External(at.env, TargetStart(h, at), at.plan.body)
  }

  function Executed(h: Instance, at: Setting): Outcome {
    ExecuteUserOp(at.env, at.who, at.w, h.account, at.plan)
  }

  /** What `TryReadTrackedTransfer` finds in arguments that are not part of the wallet's model. */
  datatype Arguments = Arguments(wellTyped: bool, fromAccountAssets: bool, amount: int)

  function OperationOf(native: bool, op: UserOperation, arguments: Arguments): Operation {
    if op.name != "transfer" then Other
    else if (if native then op.argCount != 4 || !arguments.wellTyped else op.argCount < 3) then Malformed
    else Transfer(op.target, arguments.fromAccountAssets, arguments.amount)
  }

  /** The operation together with the balances it finds and leaves and the hook calls made while the target runs. */
  datatype Execution = Execution(
    at: Setting, arguments: Arguments, accepted: bool, before: Token -> int, after: Token -> int, requests: seq<Request>)

  /** The session that the hook sees. */
  function SessionOf(h: Instance, x: Execution): Session
    requires MayExecute(x.at.w, h.account, x.at.plan)
  {
    Session(
      OperationOf(h.native, x.at.plan.op, x.arguments), x.accepted, x.at.w.header.time, x.before, x.after, x.requests,
      Origin(h.core, FirstCallback(h, x.at).contexts, false), Origin(h.core, TargetEnd(h, x.at).world.contexts, false),
      Executed(h, x.at).exit.Done?)
  }

  function CalleeOf(h: Instance): Callee {
    Callee(h.self, h.account)
  }

  /** The wallet when the operation's own target has returned. */
  function TargetDone(h: Instance, at: Setting): World
    requires MayExecute(at.w, h.account, at.plan)
  {
    Regain(TargetEnd(h, at).world, at.plan.op)
  }

  /** `contexts` is what the wallet shows at some moment of the target phase that is not rolled back later. */
  ghost predicate SeenInTarget(h: Instance, at: Setting, contexts: Contexts)
    requires MayExecute(at.w, h.account, at.plan)
  {
    exists k: nat | |TargetStart(h, at).views| <= k < |TargetDone(h, at).views| ::
      TargetDone(h, at).views[k].kept && TargetDone(h, at).views[k].contexts == contexts
  }

  /** One of the hook's two callbacks, and what the wallet shows while the core makes it. */
  datatype Callback = Callback(before: bool, contexts: Contexts)

  /** The target calls from position `from` on that were callbacks of the hook for its account and are not rolled back. */
  function Returned(h: Instance, views: seq<View>, from: nat): seq<Callback> {
    if |views| <= from then []
    else
      var (x, earlier) := (views[|views| - 1], Returned(h, views[..|views| - 1], from));
      if x.kept && CalleeOf(h).Returned(x) then earlier + [Callback(CalleeOf(h).IsBefore(x.returned.value), x.contexts)] else earlier
  }

  /** The callbacks that the core makes in the target phase, in their order. */
  function CalledBack(h: Instance, at: Setting): seq<Callback>
    requires MayExecute(at.w, h.account, at.plan)
  {
    Returned(h, TargetDone(h, at).views, |TargetStart(h, at).views|)
  }

  /** The callbacks among some requests that the core makes, in their order. */
  function CoreCallbacks(h: Instance, requests: seq<Request>): seq<Callback> {
    if requests == [] then []
    else
      var (r, earlier) := (requests[|requests| - 1], CoreCallbacks(h, requests[..|requests| - 1]));
      if IsCallback(r.change) && r.from.caller == h.core then earlier + [Callback(r.change.Before?, r.from.contexts)] else earlier
  }

  /**
   The execution can occur.  The hook's calls are made in the target phase, and not by the hook itself,
   which calls no hook; those that the core makes to its callbacks are exactly the target calls that the
   wallet made to them.  A hook that is itself the target moves no token and has no `transfer`.
   */
  ghost predicate Occurs(h: Instance, x: Execution) {
    && !h.native && Hosts(h, x.at)
    && (forall i | 0 <= i < |x.requests| :: SeenInTarget(h, x.at, x.requests[i].from.contexts) && x.requests[i].from.caller != h.self)
    && CoreCallbacks(h, x.requests) == CalledBack(h, x.at)
    && (x.at.plan.op.target == h.self ==> x.at.plan.op.name != "transfer" && forall t: Token :: x.after(t) == x.before(t))
  }

  /** The operation's target is another contract, and during it a nested operation has the core call the hook back. */
  predicate Aimed(h: Instance, at: Setting)
    requires MayExecute(at.w, h.account, at.plan)
  {
    at.plan.op.target != h.self && CalledBack(h, at) != []
  }

  /** Neither the operation nor any in its target's callback tree is a callback of the hook for the account. */
  predicate AvoidsHook(h: Instance, at: Setting) {
    !CalleeOf(h).Calls(at.plan.op) && Avoids(at.plan.body, CalleeOf(h))
  }

  // ---------------------------------------------------------------------------
  // What the wallet vouches for in the target phase
  // ---------------------------------------------------------------------------

  predicate ExecutingHook(h: Instance, contexts: Contexts) {
    (Executing(Hook), h.account) in contexts && contexts[(Executing(Hook), h.account)] == h.self
  }

  lemma HostsHere(h: Instance, at: Setting)
    requires Hosts(h, at)
    ensures MayExecute(at.w, h.account, at.plan) && h.core != 0 && h.core != h.self
  {
  }

  lemma FirstCallbackReady(h: Instance, at: Setting)
    requires Hosts(h, at) && Executed(h, at).exit.Done?
    ensures var u := FirstCallback(h, at);
            && Inv(u) && Locked(u, h.account) && ExecutingHook(h, u.contexts) && MayEnter(u, Target, h.account)
            && !Witness.CanConfigure(u.contexts, Hook, h.account, h.self, h.self)
            && External(at.env, u, at.plan.pre).exit.Done? && TargetEnd(h, at).exit.Done?
  {
    hide Inv, Admit, Admissible, External, Sound, Step, Escrowed, ValidOperation, ExecuteUserOp, Apply;
    var a, state := h.account, at.w.book.accounts[h.account];
    OperationReturnsExactly(at.env, at.who, at.w, a, at.plan);
    var v := UnderKeys(at.w, a, state);
    UnderKeysReady(at.w, a, state);
    AdmittedExactly(at.env, at.who, v, a, state, at.plan);
    AdmitSound(at.env, at.who, v, a, state, at.plan);
    var admitted := Admit(at.env, at.who, v, a, state, at.plan).world;
    SetContextKeepsInv(admitted, Executing(Hook), a, state.hook);
  }

  /** When the target gets control the account executes under its hook's key, and nothing lets the hook configure itself. */
  lemma TargetStartReady(h: Instance, at: Setting)
    requires Hosts(h, at) && Executed(h, at).exit.Done?
    ensures var u := TargetStart(h, at);
            && Inv(u) && Locked(u, h.account) && ExecutingHook(h, u.contexts)
            && !Witness.CanConfigure(u.contexts, Hook, h.account, h.self, h.self)
  {
    hide Inv, External, Sound, Stamped, ViewsFit, FirstCallback, ExecuteUserOp, Escrowed, ValidOperation;
    FirstCallbackReady(h, at);
    var u := FirstCallback(h, at);
    ExternalSound(at.env, u, at.plan.pre);
    var pre := External(at.env, u, at.plan.pre);
    Arrives(u, pre, 0);
    SetContextKeepsInv(pre.world, Target, h.account, at.plan.op.target);
  }

  /** At every moment of the target phase, and when it ends. */
  lemma VouchedFor(h: Instance, at: Setting, contexts: Contexts)
    requires Hosts(h, at) && Executed(h, at).exit.Done?
    requires SeenInTarget(h, at, contexts) || contexts == TargetEnd(h, at).world.contexts
    ensures ExecutingHook(h, contexts) && !Witness.CanConfigure(contexts, Hook, h.account, h.self, h.self)
  {
    hide Inv, External, TargetStart, ExecuteUserOp, Escrowed, ValidOperation, AccountKept, RosterKept, Frozen, LocksCover;
    TargetStartReady(h, at);
    FirstCallbackReady(h, at);
    var u := TargetStart(h, at);
    ExternalSound(at.env, u, at.plan.body);
    var o := TargetEnd(h, at);
    if contexts != o.world.contexts {
      var views := TargetDone(h, at).views;
      var k: nat :| |u.views| <= k < |views| && views[k].kept && views[k].contexts == contexts;
      assert k < |o.world.views| && views[k] == o.world.views[k];
      assert ViewFits(u, o.world.views[k], 0);
      assert StaysLocked(u.contexts, contexts, h.account);
    }
  }

  /** No execution that occurs has an authorized configuration call, and both callbacks of its own are authorized. */
  lemma SessionIsUnconfigured(h: Instance, x: Execution)
    requires Occurs(h, x) && Executed(h, x.at).exit.Done?
    ensures var s := SessionOf(h, x);
            Unconfigured(h, s) && MayCallBack(h, s.first) && MayCallBack(h, s.last)
  {
    hide ExecuteUserOp, Hosts, FirstCallback, TargetStart, TargetEnd, SeenInTarget, CalledBack, CoreCallbacks;
    HostsHere(h, x.at);
    FirstCallbackReady(h, x.at);
    VouchedFor(h, x.at, TargetEnd(h, x.at).world.contexts);
    forall i | 0 <= i < |x.requests| && !IsCallback(x.requests[i].change) ensures !MayConfigure(h, x.requests[i].from) {
      VouchedFor(h, x.at, x.requests[i].from.contexts);
    }
  }

  /** A callback in between is authorized only for the core, and the core makes it only as a target call. */
  lemma CallbackNeedsATargetCall(h: Instance, x: Execution, i: nat)
    requires Occurs(h, x) && Executed(h, x.at).exit.Done? && i < |x.requests|
    requires IsCallback(x.requests[i].change) && MayCallBack(h, x.requests[i].from)
    ensures x.requests[i].from.caller == h.core
    ensures Callback(x.requests[i].change.Before?, x.requests[i].from.contexts) in CalledBack(h, x.at)
  {
    hide ExecuteUserOp, Hosts, TargetStart, TargetEnd, SeenInTarget, CalledBack, CoreCallbacks;
    HostsHere(h, x.at);
    VouchedFor(h, x.at, x.requests[i].from.contexts);
    CoreCallbackAt(h, x.requests, i);
  }

  lemma {:induction false} CoreCallbackAt(h: Instance, requests: seq<Request>, i: nat)
    requires i < |requests| && IsCallback(requests[i].change) && requests[i].from.caller == h.core
    ensures Callback(requests[i].change.Before?, requests[i].from.contexts) in CoreCallbacks(h, requests)
  {
    if i < |requests| - 1 {
      CoreCallbackAt(h, requests[..|requests| - 1], i);
    }
  }

  lemma UncalledIsUndisturbed(h: Instance, x: Execution)
    requires Occurs(h, x) && Executed(h, x.at).exit.Done? && CalledBack(h, x.at) == []
    ensures Undisturbed(h, SessionOf(h, x))
  {
    hide Occurs, ExecuteUserOp, CalledBack, MayCallBack;
    forall i | 0 <= i < |x.requests| && IsCallback(x.requests[i].change) ensures !MayCallBack(h, x.requests[i].from) {
      if MayCallBack(h, x.requests[i].from) {
        CallbackNeedsATargetCall(h, x, i);
      }
    }
  }

  /** What can be decided on the tree: if nothing in it is a callback of the hook, none is made. */
  lemma AvoidingIsUncalled(h: Instance, at: Setting)
    requires MayExecute(at.w, h.account, at.plan) && AvoidsHook(h, at)
    ensures CalledBack(h, at) == []
  {
    hide External, TargetStart, Avoids, MayExecute, Returned, Uncalled;
    var (u, v, callee) := (TargetStart(h, at), TargetEnd(h, at).world, CalleeOf(h));
    ExternalAvoids(at.env, u, at.plan.body, callee);
    RegainUncalled(v, at.plan.op, callee);
    UncalledThen(u, v, TargetDone(h, at), callee);
    NothingReturned(h, u, TargetDone(h, at).views);
  }

  lemma {:induction false} NothingReturned(h: Instance, u: World, views: seq<View>)
    requires forall k | |u.views| <= k < |views| :: !CalleeOf(h).Returned(views[k])
    ensures Returned(h, views, |u.views|) == []
    decreases |views|
  {
    if |views| > |u.views| {
      NothingReturned(h, u, views[..|views| - 1]);
    }
  }

  /**
   Metering completeness in the deployed profile, for every operation in whose tree no operation is a
   callback of the hook: if it goes through, then whatever its target does and calls, no hook call was made
   in between, every limited token has been charged exactly once with its outflow, nothing else has moved,
   and no snapshot is left.
   */
  lemma AvoidingOperationsAreMetered(h: Instance, m: Meter, x: Execution)
    requires Settled(false, m) && Occurs(h, x) && AvoidsHook(h, x.at) && RunSession(h, m, SessionOf(h, x)).Some?
    ensures var n := RunSession(h, m, SessionOf(h, x)).value;
            Complete(false, m, SessionOf(h, x), n) && x.requests == [] && n.limits == m.limits
  {
    hide ExecuteUserOp, EffectAll, Complete, Settled, CalledBack, AvoidsHook, MayExecute, Occurs;
    OccursMayExecute(h, x);
    EndsNormally(h, m, SessionOf(h, x));
    AvoidingIsUncalled(h, x.at);
    SessionIsUnconfigured(h, x);
    UncalledIsUndisturbed(h, x);
    MeteringIsComplete(h, m, SessionOf(h, x));
  }

  lemma OccursMayExecute(h: Instance, x: Execution)
    requires Occurs(h, x)
    ensures MayExecute(x.at.w, h.account, x.at.plan) && !h.native
  {
  }

  lemma EndsNormally(h: Instance, m: Meter, s: Session)
    requires RunSession(h, m, s).Some?
    ensures s.ends
  {
  }

  // ---------------------------------------------------------------------------
  // Exactly when
  // ---------------------------------------------------------------------------

  /** A hook that is itself the target moves nothing, so nothing escapes. */
  lemma OwnTargetIsCovered(h: Instance, m: Meter, x: Execution, n: Meter)
    requires Occurs(h, x) && x.at.plan.op.target == h.self
    ensures Covered(false, m, SessionOf(h, x), n)
  {
    hide ExecuteUserOp, Hosts, FirstCallback, TargetEnd, CalledBack, CoreCallbacks, SeenInTarget, Charge;
    HostsHere(h, x.at);
    forall t: Token ensures Outgoing(false, SessionOf(h, x), t) <= 0 {
      assert x.after(t) == x.before(t);
    }
  }

  lemma NotAimedIsCovered(h: Instance, m: Meter, x: Execution)
    requires Settled(false, m) && Occurs(h, x) && RunSession(h, m, SessionOf(h, x)).Some? && !Aimed(h, x.at)
    ensures Covered(false, m, SessionOf(h, x), RunSession(h, m, SessionOf(h, x)).value)
  {
    hide Occurs, ExecuteUserOp, EffectAll, Settled, CalledBack, Covered, Complete, MayExecute;
    OccursMayExecute(h, x);
    EndsNormally(h, m, SessionOf(h, x));
    if x.at.plan.op.target == h.self {
      OwnTargetIsCovered(h, m, x, RunSession(h, m, SessionOf(h, x)).value);
    } else {
      SessionIsUnconfigured(h, x);
      UncalledIsUndisturbed(h, x);
      MeteringIsComplete(h, m, SessionOf(h, x));
    }
  }

  /** The same call with the same arguments, whatever balances it reads. */
  ghost predicate SameCall(p: Request, q: Request) {
    && p.from == q.from
    && match p.change {
         case Before(operation, _) => q.change.Before? && q.change.operation == operation
         case After(operation, accepted, _) => q.change.After? && q.change.operation == operation && q.change.accepted == accepted
         case _ => q.change == p.change
       }
  }

  /** The same operation with the same calls of the hook, whatever tokens move. */
  ghost predicate Alike(x: Execution, y: Execution) {
    && x.at == y.at && x.arguments == y.arguments && x.accepted == y.accepted && |x.requests| == |y.requests|
    && forall i | 0 <= i < |x.requests| :: SameCall(x.requests[i], y.requests[i])
  }

  lemma {:induction false} SameCoreCallbacks(h: Instance, p: seq<Request>, q: seq<Request>)
    requires |p| == |q| && forall i | 0 <= i < |p| :: SameCall(p[i], q[i])
    ensures CoreCallbacks(h, p) == CoreCallbacks(h, q)
    decreases |p|
  {
    if p != [] {
      SameCoreCallbacks(h, p[..|p| - 1], q[..|q| - 1]);
    }
  }

  lemma {:induction false} FirstCoreCallback(h: Instance, requests: seq<Request>) returns (i: nat)
    requires CoreCallbacks(h, requests) != []
    ensures i < |requests| && IsCallback(requests[i].change) && requests[i].from.caller == h.core
    ensures CoreCallbacks(h, requests)[0] == Callback(requests[i].change.Before?, requests[i].from.contexts)
  {
    var n := |requests| - 1;
    if CoreCallbacks(h, requests[..n]) == [] {
      i := n;
    } else {
      i := FirstCoreCallback(h, requests[..n]);
    }
  }

  /** The execution in which `amount` more of `token` leaves around its call at position `i`. */
  function MovedAround(x: Execution, i: nat, token: Token, amount: nat): Execution
    requires i < |x.requests|
  {
    var r := x.requests[i];
    x.(before := Raised(x.before, token, amount),
       requests := RaisedAll(x.requests[..i], token, amount)
                   + [if r.change.After? then RaisedRequest(r, token, amount) else r] + x.requests[i + 1..])
  }

  lemma MovedAroundOccurs(h: Instance, x: Execution, i: nat, token: Token, amount: nat)
    requires Occurs(h, x) && x.at.plan.op.target != h.self && i < |x.requests|
    ensures var y := MovedAround(x, i, token, amount);
            Occurs(h, y) && Alike(y, x) && SessionOf(h, y) == MovedOut(SessionOf(h, x), i, token, amount)
  {
    hide ExecuteUserOp, Hosts, FirstCallback, TargetEnd, CalledBack, CoreCallbacks, SeenInTarget;
    HostsHere(h, x.at);
    var y := MovedAround(x, i, token, amount);
    forall j | 0 <= j < |y.requests| ensures SameCall(y.requests[j], x.requests[j]) {
      assert y.requests[j] == x.requests[j] || y.requests[j] == RaisedRequest(x.requests[j], token, amount);
    }
    SameCoreCallbacks(h, y.requests, x.requests);
  }

  /**
   Take any execution that goes through, of an operation in whose target the core has called the hook
   back.  The same one in which any amount of a limited token leaves just before the first such callback
   takes new snapshots, or just after it has done its metering early, goes through with the same result.
   */
  lemma AimedHidesTheOutflow(h: Instance, m: Meter, x: Execution, token: Token, amount: nat) returns (y: Execution, i: nat)
    requires Settled(false, m) && Occurs(h, x) && RunSession(h, m, SessionOf(h, x)).Some? && Aimed(h, x.at)
    requires token in m.limits && amount > m.limits[token].maxAmount
    ensures Occurs(h, y) && Alike(y, x) && RunSession(h, m, SessionOf(h, y)) == RunSession(h, m, SessionOf(h, x))
    ensures i < |x.requests| && CalledBack(h, x.at)[0] == Callback(x.requests[i].change.Before?, x.requests[i].from.contexts)
    ensures exists raise: nat :: y == MovedAround(x, i, token, raise)
    ensures Outgoing(false, SessionOf(h, y), token) >= amount
    ensures !Covered(false, m, SessionOf(h, y), RunSession(h, m, SessionOf(h, y)).value)
  {
    hide Hosts, ExecuteUserOp, FirstCallback, TargetEnd, CalledBack, CoreCallbacks, SeenInTarget, EffectAll, Settled, Covered, Unconfigured, RaisedAll, RaisedRequest;
    HostsHere(h, x.at);
    EndsNormally(h, m, SessionOf(h, x));
    SessionIsUnconfigured(h, x);
    i := FirstCoreCallback(h, x.requests);
    var leaving := x.before(token) - x.after(token);
    var raise: nat := if leaving < amount then amount - leaving else 0;
    y := MovedAround(x, i, token, raise);
    MovedAroundOccurs(h, x, i, token, raise);
    CallbackHidesTheOutflow(h, m, SessionOf(h, x), i, token, raise);
    SessionKeepsLimits(h, m, SessionOf(h, x));
    MovedOutIsUncovered(h, m, SessionOf(h, y), RunSession(h, m, SessionOf(h, y)).value, token);
  }

  /**
   For every execution that goes through, while some token is limited: every execution of the same
   operation with the same calls of the hook that goes through has each outflow charged, whatever tokens
   move, if and only if no operation nested in its target is a callback of the hook for the account.
   */
  lemma MeteredExactly(h: Instance, m: Meter, x: Execution, token: Token)
    requires Settled(false, m) && Occurs(h, x) && RunSession(h, m, SessionOf(h, x)).Some? && token in m.limits
    ensures (forall y: Execution | Alike(y, x) && Occurs(h, y) && RunSession(h, m, SessionOf(h, y)).Some? ::
               Covered(false, m, SessionOf(h, y), RunSession(h, m, SessionOf(h, y)).value))
            <==> !Aimed(h, x.at)
  {
    hide Occurs, SessionOf, RunSession, Covered, Settled, Aimed, MayExecute;
    OccursMayExecute(h, x);
    LedgerIsSane(false, m, token);
    if Aimed(h, x.at) {
      var y, i := AimedHidesTheOutflow(h, m, x, token, m.limits[token].maxAmount + 1);
    } else {
      forall y: Execution | Alike(y, x) && Occurs(h, y) && RunSession(h, m, SessionOf(h, y)).Some?
        ensures Covered(false, m, SessionOf(h, y), RunSession(h, m, SessionOf(h, y)).value)
      {
        NotAimedIsCovered(h, m, y);
      }
    }
  }

  // ---------------------------------------------------------------------------
  // The execution in which nothing moves
  // ---------------------------------------------------------------------------

  /** Calls of the hook that are these callbacks, reading and declaring nothing. */
  function Motions(h: Instance, callbacks: seq<Callback>): (r: seq<Request>)
    ensures |r| == |callbacks|
  {
    seq(|callbacks|, i requires 0 <= i < |callbacks| =>
      Request(if callbacks[i].before then Before(Other, NO_BALANCE) else After(Other, false, NO_BALANCE),
              Origin(h.core, callbacks[i].contexts, false)))
  }

  lemma {:induction false} MotionsAreTheirs(h: Instance, callbacks: seq<Callback>)
    ensures CoreCallbacks(h, Motions(h, callbacks)) == callbacks
  {
    if callbacks != [] {
      var n := |callbacks| - 1;
      MotionsAreTheirs(h, callbacks[..n]);
      assert Motions(h, callbacks)[..n] == Motions(h, callbacks[..n]);
      assert callbacks == callbacks[..n] + [callbacks[n]];
    }
  }

  function MotionlessExecution(h: Instance, at: Setting, arguments: Arguments): Execution
    requires MayExecute(at.w, h.account, at.plan)
  {
    Execution(at, arguments, false, NO_BALANCE, NO_BALANCE, Motions(h, CalledBack(h, at)))
  }

  lemma {:induction false} ReturnedIsSeen(h: Instance, views: seq<View>, from: nat, i: nat) returns (k: nat)
    requires i < |Returned(h, views, from)|
    ensures from <= k < |views| && views[k].kept && views[k].contexts == Returned(h, views, from)[i].contexts
  {
    var n := |views| - 1;
    if i < |Returned(h, views[..n], from)| {
      k := ReturnedIsSeen(h, views[..n], from, i);
    } else {
      k := n;
    }
  }

  lemma CalledBackInTarget(h: Instance, at: Setting, i: nat)
    requires MayExecute(at.w, h.account, at.plan) && i < |CalledBack(h, at)|
    ensures SeenInTarget(h, at, CalledBack(h, at)[i].contexts)
  {
    hide TargetStart, TargetDone, MayExecute, Returned;
    var k := ReturnedIsSeen(h, TargetDone(h, at).views, |TargetStart(h, at).views|, i);
  }

  /** It occurs for every operation that the wallet executes, and goes through if the hook admits it. */
  lemma MotionlessExecutionPasses(h: Instance, m: Meter, at: Setting, arguments: Arguments)
    requires !h.native && Settled(false, m) && Hosts(h, at) && Executed(h, at).exit.Done? && at.plan.op.target != h.self
    requires Admitted(false, m, OperationOf(false, at.plan.op, arguments), at.w.header.time)
    ensures var x := MotionlessExecution(h, at, arguments);
            Occurs(h, x) && RunSession(h, m, SessionOf(h, x)) == Some(m)
  {
    hide Hosts, ExecuteUserOp, FirstCallback, TargetEnd, TargetStart, CalledBack, CoreCallbacks, SeenInTarget, Settled, Admitted, RunSession;
    HostsHere(h, at);
    var x, calls := MotionlessExecution(h, at, arguments), CalledBack(h, at);
    MotionsAreTheirs(h, calls);
    forall i | 0 <= i < |calls|
      ensures SeenInTarget(h, at, x.requests[i].from.contexts) && MayCallBack(h, x.requests[i].from)
    {
      CalledBackInTarget(h, at, i);
      VouchedFor(h, at, calls[i].contexts);
    }
    SessionIsUnconfigured(h, x);
    MotionlessSessionPasses(h, m, SessionOf(h, x));
  }
}
