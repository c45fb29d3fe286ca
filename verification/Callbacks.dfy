/**
 Which callbacks of a hook a callback tree can have the wallet make as an operation's target call.  A tree
 without such an operation never makes one, however it is nested, rolled back or aborted.
 */
module Callbacks {
  import opened Bytes
  import opened Values
  import opened Records
  import opened Machine
  import opened Guarantee

  /** A hook and the account that it meters. */
  datatype Callee = Callee(hook: Hash, account: Hash) {
    /** The operation's target call is the hook's `preExecute` for the account. */
    predicate IsBefore(op: UserOperation) {
      op.target == hook && op.first == Some(account) && op.name == "preExecute" && op.argCount == 2
    }

    /** The operation's target call is the hook's `postExecute` for the account. */
    predicate IsAfter(op: UserOperation) {
      op.target == hook && op.first == Some(account) && op.name == "postExecute" && op.argCount == 3
    }

    predicate Calls(op: UserOperation) {
      IsBefore(op) || IsAfter(op)
    }

    predicate Returned(x: View) {
      x.returned.Some? && Calls(x.returned.value)
    }
  }

  // ---------------------------------------------------------------------------
  // On trees
  // ---------------------------------------------------------------------------

  /** No operation anywhere in the tree makes such a call. */
  predicate Avoids(b: Behaviour, callee: Callee) {
    match b
    case Invoke(_, call, _, rest) => AvoidsCall(call, callee) && Avoids(rest, callee)
    case _ => true
  }

  predicate AvoidsPlan(plan: Plan, callee: Callee) {
    !callee.Calls(plan.op) && Avoids(plan.pre, callee) && Avoids(plan.body, callee) && Avoids(plan.postHook, callee) && Avoids(plan.postVerifier, callee)
  }

  predicate AvoidsCall(call: Call, callee: Callee) {
    match call
    case Register(_, _, _, _, _, _, _, _, _, setup) => Avoids(setup, callee)
    case UpdateModule(_, _, _, _, _, setup) => Avoids(setup, callee)
    case ConfirmModule(_, _, _, cleanup, setup) => Avoids(cleanup, callee) && Avoids(setup, callee)
    case CallModule(_, _, _, _, _, _, body) => Avoids(body, callee)
    case CallChild(_, _, _, _, _, _, _, _, _, body) => Avoids(body, callee)
    case SetDependencies(_, _, _, _, cleanups) => forall b | b in cleanups :: Avoids(b, callee)
    case ClearDependencies(_, _, _, _, cleanups) => forall b | b in cleanups :: Avoids(b, callee)
    case FinalizeEscape(_, _, _, _, verifierCleanup, hookCleanup, setup) =>
      Avoids(verifierCleanup, callee) && Avoids(hookCleanup, callee) && Avoids(setup, callee)
    case CancelEscrow(_, _, notified) => notified.None? || Avoids(notified.value, callee)
    case SettleEscrow(_, _, _, verifierCleanup, hookCleanup) => Avoids(verifierCleanup, callee) && Avoids(hookCleanup, callee)
    case Reclaim(_, notified) => notified.None? || Avoids(notified.value, callee)
    case Execute(_, plan) => AvoidsPlan(plan, callee)
    case ExecuteBatch(_, plans) => forall p | p in plans :: AvoidsPlan(p, callee)
    case Sponsor(_, _, plans, _, _, _, _, settlement) => (forall p | p in plans :: AvoidsPlan(p, callee)) && Avoids(settlement, callee)
    case _ => true
  }

  // ---------------------------------------------------------------------------
  // On worlds
  // ---------------------------------------------------------------------------

  /** From `w` to `v` no such call has returned, kept or not. */
  ghost predicate Uncalled(w: World, v: World, callee: Callee) {
    Extends(w.views, v.views) && forall k | |w.views| <= k < |v.views| :: !callee.Returned(v.views[k])
  }

  lemma UncalledSame(w: World, v: World, callee: Callee)
    requires v.views == w.views
    ensures Uncalled(w, v, callee)
  {
  }

  lemma UncalledThen(u: World, v: World, w: World, callee: Callee)
    requires Uncalled(u, v, callee) && Uncalled(v, w, callee)
    ensures Uncalled(u, w, callee)
  {
    assert w.views[..|u.views|] == w.views[..|v.views|][..|u.views|];
    forall k | |u.views| <= k < |w.views| ensures !callee.Returned(w.views[k]) {
      if k < |v.views| {
        assert w.views[k] == w.views[..|v.views|][k];
      }
    }
  }

  lemma EmitUncalled(w: World, v: World, e: Event, callee: Callee)
    requires Uncalled(w, v, callee)
    ensures Uncalled(w, Emit(v, e), callee)
  {
    hide Apply;
  }

  lemma FinallyUncalled(w: World, o: Outcome, slot: Slot, a: Hash, callee: Callee)
    requires Uncalled(w, o.world, callee)
    ensures Uncalled(w, Finally(o, slot, a).world, callee)
  {
  }

  lemma UndoUncalled(w: World, v: World, callee: Callee)
    requires Uncalled(w, v, callee)
    ensures Uncalled(w, Undo(w, v), callee)
  {
    assert Undo(w, v).views[..|w.views|] == v.views[..|w.views|];
  }

  lemma LookUncalled(w: World, callee: Callee)
    ensures Uncalled(w, Look(w), callee)
  {
  }

  /** Another operation's target may return. */
  lemma RegainUncalled(w: World, op: UserOperation, callee: Callee)
    requires !callee.Calls(op)
    ensures Uncalled(w, Regain(w, op), callee)
  {
  }

  // ---------------------------------------------------------------------------
  // Through the machine
  // ---------------------------------------------------------------------------

  lemma {:induction false} PerformAvoids(env: Env, w: World, b: Behaviour, callee: Callee)
    requires Avoids(b, callee)
    ensures Uncalled(w, Perform(env, w, b).world, callee)
    decreases b, 0
  {
    hide Uncalled, Enter, Look;
    LookUncalled(w, callee);
    match b
    case Invoke(who, call, caught, rest) =>
      var o := Enter(env, who, Look(w), call);
      EnterAvoids(env, who, Look(w), call, callee);
      UncalledThen(w, Look(w), o.world, callee);
      if o.exit.Done? || (o.exit.Thrown? && caught) {
        PerformAvoids(env, o.world, rest, callee);
        UncalledThen(w, o.world, Perform(env, o.world, rest).world, callee);
      }
    case _ =>
  }

  lemma {:induction false} ExternalAvoids(env: Env, w: World, b: Behaviour, callee: Callee)
    requires Avoids(b, callee)
    ensures Uncalled(w, External(env, w, b).world, callee)
    decreases b, 1
  {
    hide Uncalled, Perform;
    PerformAvoids(env, w, b, callee);
    UndoUncalled(w, Perform(env, w, b).world, callee);
  }

  lemma {:induction false} WithinAvoids(env: Env, w: World, role: Role, a: Hash, h: Hash, b: Behaviour, callee: Callee)
    requires Avoids(b, callee)
    ensures Uncalled(w, Within(env, w, Config(role), a, h, b).world, callee)
    decreases b, 2
  {
    hide Uncalled, External, Finally;
    var u := SetContext(w, Config(role), a, h);
    UncalledSame(w, SetContext(w, Config(role), a, h), callee);
    ExternalAvoids(env, u, b, callee);
    UncalledThen(w, u, External(env, u, b).world, callee);
    FinallyUncalled(w, External(env, u, b), Config(role), a, callee);
  }

  lemma {:induction false} CleanupAvoids(env: Env, w: World, role: Role, a: Hash, h: Hash, b: Behaviour, callee: Callee)
    requires Avoids(b, callee)
    ensures Uncalled(w, Cleanup(env, w, role, a, h, b).world, callee)
    decreases b, 3
  {
    hide Uncalled, Within, Apply;
    WithinAvoids(env, w, role, a, h, b, callee);
    EmitUncalled(w, Within(env, w, Config(role), a, h, b).world, Cleaned(role, a, h, |w.views|), callee);
  }

  lemma {:induction false} CleanRootAvoids(env: Env, w: World, role: Role, a: Hash, h: Hash, b: Behaviour, callee: Callee)
    requires Avoids(b, callee)
    ensures Uncalled(w, CleanRoot(env, w, role, a, h, b).world, callee)
    decreases b, 4
  {
    hide Uncalled, Cleanup;
    UncalledSame(w, w, callee);
    CleanupAvoids(env, w, role, a, h, b, callee);
  }

  lemma {:induction false} SetUpAvoids(env: Env, w: World, a: Hash, verifier: Hash, params: seq<Byte>, b: Behaviour, callee: Callee)
    requires Avoids(b, callee)
    ensures Uncalled(w, SetUp(env, w, a, verifier, params, b).world, callee)
    decreases b, 4
  {
    hide Uncalled, Within;
    UncalledSame(w, w, callee);
    WithinAvoids(env, w, Verifier, a, verifier, b, callee);
  }

  lemma {:induction false} EnterAvoids(env: Env, who: Caller, w: World, call: Call, callee: Callee)
    requires AvoidsCall(call, callee)
    ensures Uncalled(w, Enter(env, who, w, call).world, callee)
    decreases call, 9
  {
    hide Uncalled, Dispatch, AvoidsCall;
    DispatchAvoids(env, who, w, call, callee);
    UndoUncalled(w, Dispatch(env, who, w, call).world, callee);
  }

  lemma {:induction false} DispatchAvoids(env: Env, who: Caller, w: World, call: Call, callee: Callee)
    requires AvoidsCall(call, callee)
    ensures Uncalled(w, Dispatch(env, who, w, call).world, callee)
    decreases call, 8
  {
    hide Uncalled, AvoidsPlan, ExecuteUserOp, ExecuteUserOps,
         DoRegister, DoRegisterPlatform, DoRotateOwner, DoUpdateModule, DoConfirmModule, DoCancelModule, DoCallModule,
         DoCallChild, DoSetDependencies, DoClearDependencies, DoInitiateEscape, DoFinalizeEscape, DoEnterEscrow,
         DoCancelEscrow, DoSettleEscrow, DoInitiateReclaim, DoReclaim, DoSponsor;
    match call
    case Register(_, _, _, _, _, _, _, _, _, _) => RegisterAvoids(env, who, w, call, callee);
    case UpdateModule(_, _, _, _, _, _) => UpdateAvoids(env, who, w, call, callee);
    case ConfirmModule(_, _, _, _, _) => ConfirmAvoids(env, who, w, call, callee);
    case CallModule(_, _, _, _, _, _, _) => CallModuleAvoids(env, who, w, call, callee);
    case CallChild(_, _, _, _, _, _, _, _, _, _) => CallChildAvoids(env, who, w, call, callee);
    case SetDependencies(_, _, _, _, _) => SetDependenciesAvoids(env, who, w, call, callee);
    case ClearDependencies(_, _, _, _, _) => ClearDependenciesAvoids(env, who, w, call, callee);
    case FinalizeEscape(_, _, _, _, _, _, _) => FinalizeAvoids(env, who, w, call, callee);
    case CancelEscrow(_, _, _) => EscrowExitAvoids(env, who, w, call, callee);
    case SettleEscrow(_, _, _, _, _) => SettleAvoids(env, who, w, call, callee);
    case Reclaim(_, _) => EscrowExitAvoids(env, who, w, call, callee);
    case Execute(a, plan) => ExecuteAvoids(env, who, w, a, plan, callee);
    case ExecuteBatch(a, plans) => BatchAvoids(env, who, w, a, plans, callee);
    case Sponsor(_, _, _, _, _, _, _, _) => SponsorAvoids(env, who, w, call, callee);
    case _ => SingleAvoids(env, who, w, call, callee);
  }

  /** The entry points that call nobody. */
  lemma SingleAvoids(env: Env, who: Caller, w: World, call: Call, callee: Callee)
    requires || call.RegisterPlatform? || call.RotateOwner? || call.CancelModule? || call.InitiateEscape?
             || call.EnterEscrow? || call.InitiateReclaim?
    ensures Uncalled(w, Dispatch(env, who, w, call).world, callee)
  {
    hide Uncalled, Apply, Idle, Escrowed;
    UncalledSame(w, Dispatch(env, who, w, call).world, callee);
  }

  lemma {:induction false} RegisterAvoids(env: Env, who: Caller, w: World, call: Call, callee: Callee)
    requires call.Register? && Avoids(call.setup, callee)
    ensures Uncalled(w, DoRegister(env, who, w, call).world, callee)
    decreases call, 7
  {
    hide Uncalled, Apply, SetUp, ValidRegistration, Emit;
    UncalledSame(w, w, callee);
    var v := Emit(w, Registered(call.a, Account(call.verifier, call.hook, call.owner, call.timelock, 0), []));
    EmitUncalled(w, w, Registered(call.a, Account(call.verifier, call.hook, call.owner, call.timelock, 0), []), callee);
    SetUpAvoids(env, v, call.a, call.verifier, call.params, call.setup, callee);
    UncalledThen(w, v, SetUp(env, v, call.a, call.verifier, call.params, call.setup).world, callee);
  }

  lemma {:induction false} UpdateAvoids(env: Env, who: Caller, w: World, call: Call, callee: Callee)
    requires call.UpdateModule? && Avoids(call.setup, callee)
    ensures Uncalled(w, DoUpdateModule(env, who, w, call).world, callee)
    decreases call, 7
  {
    hide Uncalled, Apply, SetUp, Idle, Escrowed, Emit;
    var (role, a, h) := (call.role, call.a, call.module_);
    UncalledSame(w, w, callee);
    var v := Emit(w, Installed(role, a, h));
    EmitUncalled(w, w, Installed(role, a, h), callee);
    EmitUncalled(w, w, UpdateRequested(role, a, h, if role.Verifier? then call.params else [], w.header.time), callee);
    SetUpAvoids(env, v, a, h, call.params, call.setup, callee);
    UncalledThen(w, v, SetUp(env, v, a, h, call.params, call.setup).world, callee);
  }

  lemma {:induction false} ConfirmAvoids(env: Env, who: Caller, w: World, call: Call, callee: Callee)
    requires call.ConfirmModule? && Avoids(call.cleanup, callee) && Avoids(call.setup, callee)
    ensures Uncalled(w, DoConfirmModule(env, who, w, call).world, callee)
    decreases call, 7
  {
    hide Uncalled, Apply, SetUp, CleanRoot, Idle, Escrowed, Emit;
    var (role, a) := (call.role, call.a);
    UncalledSame(w, w, callee);
    if a in w.book.accounts && (role, a) in w.book.updates {
      var pending, record := w.book.updates[(role, a)], w.book.accounts[a];
      var c := CleanRoot(env, w, role, a, Pointer(record, role), call.cleanup).world;
      CleanRootAvoids(env, w, role, a, Pointer(record, role), call.cleanup, callee);
      var e := UpdateConfirmed(role, a, record, pending.module_, |w.log|, w.header.time);
      EmitUncalled(w, c, e, callee);
      EmitUncalled(w, Emit(c, e), UpdateDropped(role, a), callee);
      SetUpAvoids(env, Emit(c, e), a, pending.module_, pending.params, call.setup, callee);
      var s := SetUp(env, Emit(c, e), a, pending.module_, pending.params, call.setup).world;
      UncalledThen(w, Emit(c, e), s, callee);
      EmitUncalled(w, s, UpdateDropped(role, a), callee);
    }
  }

  lemma AdoptAvoids(env: Env, w: World, role: Role, a: Hash, root: Hash, legacy: Reply<seq<Hash>>, cleanable: set<Hash>, callee: Callee)
    ensures Uncalled(w, AdoptLegacy(env, w, role, a, root, legacy, cleanable).world, callee)
  {
    hide Uncalled, Apply, ValidChildren;
    UncalledSame(w, AdoptLegacy(env, w, role, a, root, legacy, cleanable).world, callee);
  }

  lemma TryConfirmAvoids(env: Env, w: World, role: Role, a: Hash, h: Hash, name: string, args: seq<Argument>, callee: Callee)
    ensures Uncalled(w, TryConfirm(env, w, role, a, h, name, args).0.world, callee)
  {
    hide Uncalled, Apply;
    UncalledSame(w, TryConfirm(env, w, role, a, h, name, args).0.world, callee);
  }

  lemma {:induction false} CallModuleAvoids(env: Env, who: Caller, w: World, call: Call, callee: Callee)
    requires call.CallModule? && Avoids(call.body, callee)
    ensures Uncalled(w, DoCallModule(env, who, w, call).world, callee)
    decreases call, 7
  {
    hide Uncalled, Apply, TryConfirm, Within, AdoptLegacy;
    var (role, a) := (call.role, call.a);
    UncalledSame(w, w, callee);
    if call.name in AllowedMethods(role) && Configurable(w, who, a) && Pointer(w.book.accounts[a], role) != 0 {
      var root := Pointer(w.book.accounts[a], role);
      var o1 := if call.name == (if role.Verifier? then "setConfig" else "setHooks")
                then AdoptLegacy(env, w, role, a, root, call.legacy, call.cleanable) else Finish(w);
      AdoptAvoids(env, w, role, a, root, call.legacy, call.cleanable, callee);
      var (o, confirmed) := TryConfirm(env, o1.world, role, a, root, call.name, call.args);
      TryConfirmAvoids(env, o1.world, role, a, root, call.name, call.args, callee);
      UncalledThen(w, o1.world, o.world, callee);
      WithinAvoids(env, o.world, role, a, root, call.body, callee);
      UncalledThen(w, o.world, Within(env, o.world, Config(role), a, root, call.body).world, callee);
    }
  }

  lemma {:induction false} CallChildAvoids(env: Env, who: Caller, w: World, call: Call, callee: Callee)
    requires call.CallChild? && Avoids(call.body, callee)
    ensures Uncalled(w, DoCallChild(env, who, w, call).world, callee)
    decreases call, 7
  {
    hide Uncalled, Apply, TryConfirm, Within, ChildArguments, ValidTopology, ValidChildCall;
    var (role, a, child) := (call.role, call.a, call.child);
    UncalledSame(w, w, callee);
    if Configurable(w, who, a) && Pointer(w.book.accounts[a], role) != 0 && call.topology.Answer? {
      var root, t := Pointer(w.book.accounts[a], role), call.topology.value;
      var (name, args) := (ChildCallName(role), ChildArguments(role, child, call.name, call.args, t));
      var (o, confirmed) := TryConfirm(env, w, role, a, root, name, args);
      TryConfirmAvoids(env, w, role, a, root, name, args, callee);
      WithinAvoids(env, o.world, role, a, child, call.body, callee);
      UncalledThen(w, o.world, Within(env, o.world, Config(role), a, child, call.body).world, callee);
    }
  }

  lemma {:induction false} CleanAllAvoids(env: Env, w: World, role: Role, a: Hash, leaving: seq<Hash>, cleanups: seq<Behaviour>, callee: Callee)
    requires forall b | b in cleanups :: Avoids(b, callee)
    ensures Uncalled(w, CleanAll(env, w, role, a, leaving, cleanups).world, callee)
    decreases cleanups, 0
  {
    hide Uncalled, Cleanup;
    UncalledSame(w, w, callee);
    if leaving != [] && cleanups != [] {
      var first := Cleanup(env, w, role, a, leaving[0], cleanups[0]);
      CleanupAvoids(env, w, role, a, leaving[0], cleanups[0], callee);
      if first.exit.Done? {
        CleanAllAvoids(env, first.world, role, a, leaving[1..], cleanups[1..], callee);
        UncalledThen(w, first.world, CleanAll(env, first.world, role, a, leaving[1..], cleanups[1..]).world, callee);
      }
    }
  }

  lemma {:induction false} SetDependenciesAvoids(env: Env, who: Caller, w: World, call: Call, callee: Callee)
    requires call.SetDependencies? && forall b | b in call.cleanups :: Avoids(b, callee)
    ensures Uncalled(w, DoSetDependencies(env, who, w, call).world, callee)
    decreases call, 7
  {
    hide Uncalled, Apply, CleanAll, ValidChildren, ValidDependencyCall, Removed;
    var (role, a, v) := (call.role, call.a, Acquire(w, call.a));
    UncalledSame(w, w, callee);
    UncalledSame(w, v, callee);
    var leaving := Removed(Get(v.book.rosters, (role, a), []), call.children);
    CleanAllAvoids(env, v, role, a, leaving, call.cleanups, callee);
    var c := CleanAll(env, v, role, a, leaving, call.cleanups).world;
    UncalledThen(w, v, c, callee);
    UncalledSame(c, ReplaceRoster(env, v, role, a, call.children, call).world, callee);
    UncalledThen(w, c, ReplaceRoster(env, v, role, a, call.children, call).world, callee);
    ReleaseUncalled(w, ReplaceRoster(env, v, role, a, call.children, call), a, callee);
  }

  lemma ReleaseUncalled(w: World, o: Outcome, a: Hash, callee: Callee)
    requires Uncalled(w, o.world, callee)
    ensures Uncalled(w, Release(o, a).world, callee)
  {
  }

  lemma {:induction false} ClearDependenciesAvoids(env: Env, who: Caller, w: World, call: Call, callee: Callee)
    requires call.ClearDependencies? && forall b | b in call.cleanups :: Avoids(b, callee)
    ensures Uncalled(w, DoClearDependencies(env, who, w, call).world, callee)
    decreases call, 7
  {
    hide Uncalled, Apply, CleanAll, ValidChildren, Escrowed;
    var (role, a, v) := (call.role, call.a, Acquire(w, call.a));
    UncalledSame(w, w, callee);
    UncalledSame(w, v, callee);
    var reply := if (role, a) in v.book.rosters then Answer(v.book.rosters[(role, a)]) else call.legacy;
    if a in w.book.accounts {
      var root := Pointer(w.book.accounts[a], role);
      var r := ClearRoster(env, v, role, a, root, call);
      if reply.Answer? {
        CleanAllAvoids(env, v, role, a, reply.value, call.cleanups, callee);
        var c := CleanAll(env, v, role, a, reply.value, call.cleanups).world;
        UncalledThen(w, v, c, callee);
        if r.world != v {
          UncalledSame(c, r.world, callee);
          UncalledThen(w, c, r.world, callee);
        }
      }
      ReleaseUncalled(w, r, a, callee);
    }
  }

  lemma {:induction false} FinalizeAvoids(env: Env, who: Caller, w: World, call: Call, callee: Callee)
    requires call.FinalizeEscape? && Avoids(call.verifierCleanup, callee) && Avoids(call.hookCleanup, callee) && Avoids(call.setup, callee)
    ensures Uncalled(w, DoFinalizeEscape(env, who, w, call).world, callee)
    decreases call, 7
  {
    hide Uncalled, Apply, SetUp, CleanRoot, Idle, Escrowed, Emit;
    var a := call.a;
    UncalledSame(w, w, callee);
    if a in w.book.accounts {
      var record := w.book.accounts[a];
      BothAvoid(env, w, a, record, call.verifierCleanup, call.hookCleanup, call, callee);
      var c := CleanRoot(env, CleanRoot(env, w, Verifier, a, record.verifier, call.verifierCleanup).world, Hook, a, record.hook, call.hookCleanup).world;
      var e := EscapeFinalized(a, record, call.verifier, |w.log|, w.header.time);
      EmitUncalled(w, c, e, callee);
      SetUpAvoids(env, Emit(c, e), a, call.verifier, call.params, call.setup, callee);
      var s := SetUp(env, Emit(c, e), a, call.verifier, call.params, call.setup).world;
      UncalledThen(w, Emit(c, e), s, callee);
      EmitUncalled(w, s, EscapeSwept(a), callee);
    }
  }

  /** Both roots' cleanups in turn. */
  lemma {:induction false} BothAvoid(env: Env, w: World, a: Hash, record: Account, verifier: Behaviour, hook: Behaviour, call: Call, callee: Callee)
    requires Avoids(verifier, callee) && Avoids(hook, callee) && verifier < call && hook < call
    ensures var v := CleanRoot(env, w, Verifier, a, record.verifier, verifier).world;
            Uncalled(w, v, callee) && Uncalled(w, CleanRoot(env, v, Hook, a, record.hook, hook).world, callee)
    decreases call, 6
  {
    hide Uncalled, CleanRoot;
    var v := CleanRoot(env, w, Verifier, a, record.verifier, verifier).world;
    CleanRootAvoids(env, w, Verifier, a, record.verifier, verifier, callee);
    CleanRootAvoids(env, v, Hook, a, record.hook, hook, callee);
    UncalledThen(w, v, CleanRoot(env, v, Hook, a, record.hook, hook).world, callee);
  }

  lemma {:induction false} SettleAvoids(env: Env, who: Caller, w: World, call: Call, callee: Callee)
    requires call.SettleEscrow? && Avoids(call.verifierCleanup, callee) && Avoids(call.hookCleanup, callee)
    ensures Uncalled(w, DoSettleEscrow(env, who, w, call).world, callee)
    decreases call, 7
  {
    hide Uncalled, Apply, CleanRoot, Idle, Emit;
    var a := call.a;
    UncalledSame(w, w, callee);
    if a in w.book.accounts {
      var record := w.book.accounts[a];
      BothAvoid(env, w, a, record, call.verifierCleanup, call.hookCleanup, call, callee);
      var c := CleanRoot(env, CleanRoot(env, w, Verifier, a, record.verifier, call.verifierCleanup).world, Hook, a, record.hook, call.hookCleanup).world;
      EmitUncalled(w, c, EscrowSettled(a, record, call.owner, |w.log|), callee);
    }
  }

  lemma {:induction false} NotifyAvoids(env: Env, w: World, market: Hash, listing: int, notified: Option<Behaviour>, callee: Callee)
    requires notified.None? || Avoids(notified.value, callee)
    ensures Uncalled(w, Notify(env, w, market, listing, notified).world, callee)
    decreases notified, 5
  {
    hide Uncalled, External;
    UncalledSame(w, w, callee);
    if notified.Some? {
      ExternalAvoids(env, w, notified.value, callee);
    }
  }

  lemma {:induction false} EscrowExitAvoids(env: Env, who: Caller, w: World, call: Call, callee: Callee)
    requires (call.CancelEscrow? || call.Reclaim?) && (call.notified.None? || Avoids(call.notified.value, callee))
    ensures Uncalled(w, Dispatch(env, who, w, call).world, callee)
    decreases call, 7
  {
    hide Uncalled, Apply, Notify, Idle, Escrowed, Emit;
    var a := call.a;
    UncalledSame(w, w, callee);
    var e := if call.CancelEscrow? then EscrowCancelled(a) else EscrowReclaimed(a, w.header.time);
    var listing := if call.CancelEscrow? then call.listing else Get(w.book.listings, a, 0);
    EmitUncalled(w, w, e, callee);
    NotifyAvoids(env, Emit(w, e), Get(w.book.markets, a, 0), listing, call.notified, callee);
    UncalledThen(w, Emit(w, e), Notify(env, Emit(w, e), Get(w.book.markets, a, 0), listing, call.notified).world, callee);
  }

  lemma {:induction false} RunAvoids(env: Env, w: World, state: Account, plan: Plan, callee: Callee)
    requires AvoidsPlan(plan, callee)
    ensures Uncalled(w, Run(env, w, state, plan).world, callee)
    decreases plan, 4
  {
    hide Uncalled, External;
    ExternalAvoids(env, w, plan.body, callee);
    var o0 := External(env, w, plan.body);
    var u := Regain(o0.world, plan.op);
    RegainUncalled(o0.world, plan.op, callee);
    UncalledThen(w, o0.world, u, callee);
    ExternalAvoids(env, u, plan.postHook, callee);
    UncalledThen(w, u, External(env, u, plan.postHook).world, callee);
    var v := if state.hook != 0 then External(env, u, plan.postHook).world else u;
    ExternalAvoids(env, v, plan.postVerifier, callee);
    UncalledThen(w, v, External(env, v, plan.postVerifier).world, callee);
  }

  lemma {:induction false} InTargetAvoids(env: Env, w: World, a: Hash, state: Account, plan: Plan, callee: Callee)
    requires AvoidsPlan(plan, callee)
    ensures Uncalled(w, InTarget(env, w, a, state, plan).world, callee)
    decreases plan, 5
  {
    hide Uncalled, Run, Finally;
    var u := SetContext(w, Target, a, plan.op.target);
    UncalledSame(w, SetContext(w, Target, a, plan.op.target), callee);
    RunAvoids(env, u, state, plan, callee);
    UncalledThen(w, u, Run(env, u, state, plan).world, callee);
    FinallyUncalled(w, Run(env, u, state, plan), Target, a, callee);
  }

  lemma {:induction false} HookedAvoids(env: Env, w: World, a: Hash, state: Account, plan: Plan, callee: Callee)
    requires AvoidsPlan(plan, callee)
    ensures Uncalled(w, Hooked(env, w, a, state, plan).world, callee)
    decreases plan, 6
  {
    hide Uncalled, External, InTarget, Finally;
    var u := SetContext(w, Executing(Hook), a, state.hook);
    UncalledSame(w, SetContext(w, Executing(Hook), a, state.hook), callee);
    var pre := External(env, u, plan.pre);
    ExternalAvoids(env, u, plan.pre, callee);
    UncalledThen(w, u, pre.world, callee);
    FinallyUncalled(w, pre, Executing(Hook), a, callee);
    var o := InTarget(env, pre.world, a, state, plan);
    InTargetAvoids(env, pre.world, a, state, plan, callee);
    UncalledThen(w, pre.world, o.world, callee);
    FinallyUncalled(w, o, Executing(Hook), a, callee);
  }

  lemma AdmitAvoids(env: Env, who: Caller, w: World, a: Hash, state: Account, plan: Plan, callee: Callee)
    requires ValidOperation(plan.op)
    ensures Uncalled(w, Admit(env, who, w, a, state, plan).world, callee)
  {
    hide Uncalled, Apply;
    UncalledSame(w, Admit(env, who, w, a, state, plan).world, callee);
  }

  lemma {:induction false} ValidateAvoids(env: Env, who: Caller, w: World, a: Hash, state: Account, plan: Plan, callee: Callee)
    requires ValidOperation(plan.op) && AvoidsPlan(plan, callee)
    ensures Uncalled(w, Validate(env, who, w, a, state, plan).world, callee)
    decreases plan, 7
  {
    hide Uncalled, Admit, InTarget, Hooked, ValidOperation, AvoidsPlan;
    var v := Admit(env, who, w, a, state, plan).world;
    AdmitAvoids(env, who, w, a, state, plan, callee);
    InTargetAvoids(env, v, a, state, plan, callee);
    HookedAvoids(env, v, a, state, plan, callee);
    UncalledThen(w, v, InTarget(env, v, a, state, plan).world, callee);
    UncalledThen(w, v, Hooked(env, v, a, state, plan).world, callee);
  }

  lemma {:induction false} ExecuteAvoids(env: Env, who: Caller, w: World, a: Hash, plan: Plan, callee: Callee)
    requires AvoidsPlan(plan, callee)
    ensures Uncalled(w, ExecuteUserOp(env, who, w, a, plan).world, callee)
    decreases plan, 8
  {
    hide Uncalled, Validate, Finally, Escrowed, ValidOperation, AvoidsPlan;
    UncalledSame(w, w, callee);
    if a in w.book.accounts && ValidOperation(plan.op) {
      var state := w.book.accounts[a];
      var w1 := SetContext(w, Lock, a, a);
      var w2 := if state.verifier == 0 then w1 else SetContext(w1, Executing(Verifier), a, state.verifier);
      UncalledSame(w, SetContext(w, Lock, a, a), callee);
      UncalledSame(w1, SetContext(w1, Executing(Verifier), a, state.verifier), callee);
      UncalledSame(w1, w1, callee);
      UncalledThen(w, w1, w2, callee);
      ValidateAvoids(env, who, w2, a, state, plan, callee);
      var o := Validate(env, who, w2, a, state, plan);
      UncalledThen(w, w2, o.world, callee);
      FinallyUncalled(w, o, Executing(Verifier), a, callee);
      FinallyUncalled(w, o, Lock, a, callee);
      FinallyUncalled(w, Finally(o, Executing(Verifier), a), Lock, a, callee);
    }
  }

  lemma {:induction false} BatchAvoids(env: Env, who: Caller, w: World, a: Hash, plans: seq<Plan>, callee: Callee)
    requires forall p | p in plans :: AvoidsPlan(p, callee)
    ensures Uncalled(w, ExecuteUserOps(env, who, w, a, plans).world, callee)
    decreases plans, 2
  {
    hide Uncalled, ExecuteEach;
    UncalledSame(w, w, callee);
    EachAvoids(env, who, w, a, plans, callee);
  }

  lemma {:induction false} EachAvoids(env: Env, who: Caller, w: World, a: Hash, plans: seq<Plan>, callee: Callee)
    requires forall p | p in plans :: AvoidsPlan(p, callee)
    ensures Uncalled(w, ExecuteEach(env, who, w, a, plans).world, callee)
    decreases plans, 1
  {
    hide Uncalled, ExecuteUserOp, AvoidsPlan;
    UncalledSame(w, w, callee);
    if plans != [] {
      var first := ExecuteUserOp(env, who, w, a, plans[0]);
      ExecuteAvoids(env, who, w, a, plans[0], callee);
      if first.exit.Done? {
        EachAvoids(env, who, first.world, a, plans[1..], callee);
        UncalledThen(w, first.world, ExecuteEach(env, who, first.world, a, plans[1..]).world, callee);
      }
    }
  }

  lemma {:induction false} SponsorAvoids(env: Env, who: Caller, w: World, call: Call, callee: Callee)
    requires call.Sponsor? && (forall p | p in call.plans :: AvoidsPlan(p, callee)) && Avoids(call.settlement, callee)
    ensures Uncalled(w, DoSponsor(env, who, w, call).world, callee)
    decreases call, 7
  {
    hide Uncalled, Apply, ExecuteUserOps, ExecuteUserOp, External, AvoidsPlan, Avoids;
    UncalledSame(w, w, callee);
    if ValidSponsorship(call) {
      var w1 := Reserve(w, call.amount).world;
      UncalledSame(w, w1, callee);
      BatchAvoids(env, who, w1, call.a, call.plans, callee);
      ExecuteAvoids(env, who, w1, call.a, call.plans[0], callee);
      var o := if call.batch then ExecuteUserOps(env, who, w1, call.a, call.plans) else ExecuteUserOp(env, who, w1, call.a, call.plans[0]);
      UncalledThen(w, w1, o.world, callee);
      ExternalAvoids(env, o.world, call.settlement, callee);
      UncalledThen(w, o.world, External(env, o.world, call.settlement).world, callee);
    }
  }
}
