/**
 A pending update exists only while the module it would replace is installed.  This needs the
 platform's rule that a throw drops the writes of the contracts it leaves: the end of a rotation
 removes the pending record after a callback that may throw.
 */
module Pending {
  import opened Bytes
  import opened Values
  import opened Records
  import opened Machine
  import opened Guarantee
  import opened Soundness
  import opened Runs
  import opened Rotation

  // ---------------------------------------------------------------------------
  // On books
  // ---------------------------------------------------------------------------

  /** Every pending update outside `gone` replaces an installed module. */
  ghost predicate BackedBut(b: Book, gone: set<(Role, Hash)>) {
    forall k | k in b.updates && k !in gone :: k.1 in b.accounts && Pointer(b.accounts[k.1], k.0) != 0
  }

  ghost predicate Backed(b: Book) {
    BackedBut(b, {})
  }

  lemma FrozenKeepsBacked(b: Book, c: Book, gone: set<(Role, Hash)>)
    requires Frozen(b, c) && BackedBut(b, gone)
    ensures BackedBut(c, gone)
  {
  }

  lemma FrozenBacked(b: Book, c: Book)
    requires Frozen(b, c) && Backed(b)
    ensures Backed(c)
  {
    FrozenKeepsBacked(b, c, {});
  }

  /** The events that cannot leave a pending update without its module. */
  predicate Calm(b: Book, e: Event) {
    match e
    case Registered(a, _, _) => a !in b.accounts
    case Installed(role, a, _) => a in b.accounts && Pointer(b.accounts[a], role) == 0
    case UpdateRequested(role, a, _, _, _) => a in b.accounts && Pointer(b.accounts[a], role) != 0
    case UpdateConfirmed(_, _, _, _, _, _) => false
    case EscapeFinalized(_, _, _, _, _) => false
    case _ => true
  }

  lemma CalmKeepsBacked(b: Book, e: Event)
    requires Backed(b) && Calm(b, e)
    ensures Backed(Apply(b, e))
  {
    hide NoncesAfter, CallsAfter, RostersAfter, MarketsAfter, ListingsAfter, ReclaimsAfter, EscapesAfter, BindingsAfter, BudgetAfter;
  }

  /** A confirmation may unback the update it confirms; dropping that record repairs it. */
  lemma ConfirmationUnbacks(b: Book, e: Event)
    requires Backed(b) && e.UpdateConfirmed? && Current(b, e.a, e.record)
    ensures BackedBut(Apply(b, e), {(e.role, e.a)})
  {
  }

  lemma DropRepairs(b: Book, role: Role, a: Hash)
    requires BackedBut(b, {(role, a)})
    ensures Backed(Apply(b, UpdateDropped(role, a)))
  {
  }

  lemma RecoveryUnbacks(b: Book, e: Event)
    requires Backed(b) && e.EscapeFinalized?
    ensures BackedBut(Apply(b, e), {(Verifier, e.a), (Hook, e.a)})
  {
  }

  lemma SweepRepairs(b: Book, a: Hash)
    requires BackedBut(b, {(Verifier, a), (Hook, a)})
    ensures Backed(Apply(b, EscapeSwept(a)))
  {
  }

  lemma EmitKeepsBacked(w: World, e: Event)
    requires Backed(w.book) && Calm(w.book, e)
    ensures Backed(Emit(w, e).book)
  {
    CalmKeepsBacked(w.book, e);
  }

  // ---------------------------------------------------------------------------
  // On entry points at rest
  // ---------------------------------------------------------------------------

  ghost predicate DoneBacked(o: Outcome) {
    o.exit.Done? ==> Backed(o.world.book)
  }

  lemma SetUpBacked(env: Env, w: World, a: Hash, verifier: Hash, params: seq<Byte>, b: Behaviour, gone: set<(Role, Hash)>)
    requires Inv(w) && MayEnter(w, Config(Verifier), a) && BackedBut(w.book, gone)
    ensures var o := SetUp(env, w, a, verifier, params, b);
            o.exit.Done? ==> BackedBut(o.world.book, gone)
  {
    hide Inv, SetUp, Frozen, BackedBut;
    SetUpSound(env, w, a, verifier, params, b);
    var o := SetUp(env, w, a, verifier, params, b);
    if o.exit.Done? {
      FrozenKeepsBacked(w.book, o.world.book, gone);
    }
  }

  /** The entry points that make one write and no call. */
  lemma SingleBacked(env: Env, who: Caller, w: World, call: Call)
    requires Backed(w.book)
    requires || call.RegisterPlatform? || call.RotateOwner? || call.CancelModule? || call.InitiateEscape?
             || call.EnterEscrow? || call.InitiateReclaim?
    ensures DoneBacked(Dispatch(env, who, w, call))
  {
    hide Apply, Backed, Emit, Idle;
    var e :=
      if call.RegisterPlatform? then Registered(call.a, Account(0, 0, call.owner, call.timelock, 0), call.binding)
      else if call.RotateOwner? then OwnerRotated(call.a, call.owner)
      else if call.CancelModule? then UpdateDropped(call.role, call.a)
      else if call.InitiateEscape? then EscapeInitiated(call.a, w.header.time)
      else if call.EnterEscrow? then EscrowEntered(call.a, call.market, Max(call.listing, 0))
      else ReclaimInitiated(call.a, w.header.time);
    if Calm(w.book, e) {
      EmitKeepsBacked(w, e);
    }
  }

  lemma RegisterBacked(env: Env, who: Caller, w: World, call: Call)
    requires Inv(w) && w.depth == 0 && Backed(w.book) && call.Register?
    ensures DoneBacked(DoRegister(env, who, w, call))
  {
    hide Inv, Apply, BackedBut, Emit, SetUp, LegalLog, Replay, Sound, Step;
    var e := Registered(call.a, Account(call.verifier, call.hook, call.owner, call.timelock, 0), []);
    if ValidRegistration(w, call.a, call.owner, call.timelock, call.expected) && call.a !in w.book.accounts {
      EmitAtRest(w, e);
      EmitKeepsBacked(w, e);
      SetUpBacked(env, Emit(w, e), call.a, call.verifier, call.params, call.setup, {});
    }
  }

  lemma UpdateBacked(env: Env, who: Caller, w: World, call: Call)
    requires Inv(w) && w.depth == 0 && Backed(w.book) && call.UpdateModule?
    ensures DoneBacked(DoUpdateModule(env, who, w, call))
  {
    hide Inv, Apply, BackedBut, Emit, SetUp, LegalLog, Replay, Sound, Step;
    var (role, a, m) := (call.role, call.a, call.module_);
    if Configurable(w, who, a) {
      if Pointer(w.book.accounts[a], role) == 0 {
        EmitAtRest(w, Installed(role, a, m));
        EmitKeepsBacked(w, Installed(role, a, m));
        SetUpBacked(env, Emit(w, Installed(role, a, m)), a, m, call.params, call.setup, {});
      } else {
        EmitKeepsBacked(w, UpdateRequested(role, a, m, if role.Verifier? then call.params else [], w.header.time));
      }
    }
  }

  lemma InstalledBacked(env: Env, v: World, role: Role, a: Hash, pending: PendingUpdate, setup: Behaviour)
    requires Inv(v) && v.depth == 0 && BackedBut(v.book, {(role, a)})
    ensures var o := if role.Verifier? then SetUp(env, v, a, pending.module_, pending.params, setup) else Finish(v);
            o.exit.Done? ==> Backed(Emit(o.world, UpdateDropped(role, a)).book)
  {
    hide Inv, Apply, BackedBut, Emit, SetUp;
    RestIsEmpty(v);
    SetUpBacked(env, v, a, pending.module_, pending.params, setup, {(role, a)});
    var o := if role.Verifier? then SetUp(env, v, a, pending.module_, pending.params, setup) else Finish(v);
    if o.exit.Done? {
      DropRepairs(o.world.book, role, a);
      EmittedBook(o.world, UpdateDropped(role, a));
    }
  }

  lemma ConfirmBacked(env: Env, who: Caller, w: World, call: Call)
    requires Inv(w) && w.depth == 0 && Backed(w.book) && call.ConfirmModule?
    ensures DoneBacked(DoConfirmModule(env, who, w, call))
  {
    hide Inv, Apply, Backed, BackedBut, Emit, SetUp, CleanRoot, LegalLog, Replay, CleanedSince, Frozen, Escrowed, QuietFrom, DoConfirmModule;
    ConfirmationUnfolds(env, who, w, call);
    if MayConfirm(env, who, w, call) && OldCleanup(env, w, call).exit.Done? {
      var (role, a, pending) := (call.role, call.a, w.book.updates[(call.role, call.a)]);
      ConfirmationStores(env, w, call);
      var c, e := OldCleanup(env, w, call).world, Confirmation(env, w, role, a);
      FrozenBacked(w.book, c.book);
      StillCurrentInFrozen(w.book, c.book, a);
      ConfirmationUnbacks(c.book, e);
      EmittedBook(c, e);
      InstalledBacked(env, Emit(c, e), role, a, pending, call.setup);
    }
  }

  lemma StillCurrentInFrozen(b: Book, c: Book, a: Hash)
    requires Frozen(b, c) && a in b.accounts
    ensures Current(c, a, b.accounts[a])
  {
  }

  lemma FinalizeBacked(env: Env, who: Caller, w: World, call: Call)
    requires Inv(w) && w.depth == 0 && Backed(w.book) && call.FinalizeEscape?
    ensures DoneBacked(DoFinalizeEscape(env, who, w, call))
  {
    hide Inv, Apply, Backed, BackedBut, Emit, SetUp, CleanRoot, LegalLog, Replay, Sound, Step, Frozen;
    var a := call.a;
    if a in w.book.accounts && Idle(w, a) && !Escrowed(w.book, a) && w.book.accounts[a].escapeAt > 0
       && w.header.time >= w.book.accounts[a].escapeAt + w.book.accounts[a].escapeTimelock * 1000 {
      var record := w.book.accounts[a];
      CleanBothSound(env, w, a, record, call.verifierCleanup, call.hookCleanup, call);
      var o2 := CleanRoot(env, w, Verifier, a, record.verifier, call.verifierCleanup);
      if o2.exit.Done? {
        var o3 := CleanRoot(env, o2.world, Hook, a, record.hook, call.hookCleanup);
        if o3.exit.Done? {
          var e := EscapeFinalized(a, record, call.verifier, |w.log|, w.header.time);
          Arrives(w, o3, 0);
          StillCurrent(w, o3.world, a);
          EmitAtRest(o3.world, e);
          FrozenBacked(w.book, o3.world.book);
          RecoveryUnbacks(o3.world.book, e);
          EmittedBook(o3.world, e);
          RecoveredBacked(env, Emit(o3.world, e), call);
        }
      }
    }
  }

  lemma RecoveredBacked(env: Env, v: World, call: Call)
    requires call.FinalizeEscape? && Inv(v) && v.depth == 0 && BackedBut(v.book, {(Verifier, call.a), (Hook, call.a)})
    ensures var o := SetUp(env, v, call.a, call.verifier, call.params, call.setup);
            o.exit.Done? ==> Backed(Emit(o.world, EscapeSwept(call.a)).book)
  {
    hide Inv, Apply, BackedBut, Emit, SetUp;
    RestIsEmpty(v);
    SetUpBacked(env, v, call.a, call.verifier, call.params, call.setup, {(Verifier, call.a), (Hook, call.a)});
    var o := SetUp(env, v, call.a, call.verifier, call.params, call.setup);
    if o.exit.Done? {
      SweepRepairs(o.world.book, call.a);
      EmittedBook(o.world, EscapeSwept(call.a));
    }
  }

  lemma SettleBacked(env: Env, who: Caller, w: World, call: Call)
    requires Inv(w) && w.depth == 0 && Backed(w.book) && call.SettleEscrow?
    ensures DoneBacked(DoSettleEscrow(env, who, w, call))
  {
    hide Inv, Apply, BackedBut, Emit, CleanRoot, Sound, Step, Frozen;
    var a := call.a;
    if ByMarket(w.book, who, a, call.listing) && Idle(w, a) && call.owner != 0 && a in w.book.accounts {
      var record := w.book.accounts[a];
      CleanBothSound(env, w, a, record, call.verifierCleanup, call.hookCleanup, call);
      var o2 := CleanRoot(env, w, Verifier, a, record.verifier, call.verifierCleanup);
      if o2.exit.Done? {
        var o3 := CleanRoot(env, o2.world, Hook, a, record.hook, call.hookCleanup);
        if o3.exit.Done? {
          FrozenKeepsBacked(w.book, o3.world.book, {});
          EmitKeepsBacked(o3.world, EscrowSettled(a, record, call.owner, |w.log|));
        }
      }
    }
  }

  lemma WithinBacked(env: Env, w: World, role: Role, a: Hash, m: Hash, b: Behaviour)
    requires Inv(w) && MayEnter(w, Config(role), a) && Backed(w.book)
    ensures DoneBacked(Within(env, w, Config(role), a, m, b))
  {
    hide Inv, BackedBut, Within, Frozen, Sound;
    WithinSound(env, w, role, a, m, b);
    var o := Within(env, w, Config(role), a, m, b);
    if o.exit.Done? {
      FrozenKeepsBacked(w.book, o.world.book, {});
    }
  }

  lemma TryConfirmBacked(env: Env, w: World, role: Role, a: Hash, m: Hash, name: string, args: seq<Argument>)
    requires Backed(w.book)
    ensures DoneBacked(TryConfirm(env, w, role, a, m, name, args).0)
  {
    hide Apply, BackedBut, Emit;
    EmitKeepsBacked(w, CallStaged(role, a, m, Sha256(name, args), w.header.time));
    EmitKeepsBacked(w, CallConfirmed(role, a, m, Sha256(name, args), w.header.time));
  }

  lemma AdoptBacked(env: Env, w: World, role: Role, a: Hash, root: Hash, legacy: Reply<seq<Hash>>, cleanable: set<Hash>)
    requires Backed(w.book)
    ensures DoneBacked(AdoptLegacy(env, w, role, a, root, legacy, cleanable))
  {
    hide Apply, BackedBut, Emit, ValidChildren;
    if legacy.Answer? {
      EmitKeepsBacked(w, RosterSet(role, a, legacy.value, |w.log|));
    }
  }

  lemma CallModuleBacked(env: Env, who: Caller, w: World, call: Call)
    requires Inv(w) && w.depth == 0 && Backed(w.book) && call.CallModule?
    ensures DoneBacked(DoCallModule(env, who, w, call))
  {
    hide Inv, Apply, BackedBut, Emit, AdoptLegacy, TryConfirm, Within, Sound, Step;
    var (role, a) := (call.role, call.a);
    if call.name in AllowedMethods(role) && Configurable(w, who, a) && Pointer(w.book.accounts[a], role) != 0 {
      var root := Pointer(w.book.accounts[a], role);
      var o1 := if call.name == (if role.Verifier? then "setConfig" else "setHooks")
                then AdoptLegacy(env, w, role, a, root, call.legacy, call.cleanable) else Finish(w);
      AdoptSound(env, w, role, a, root, call.legacy, call.cleanable);
      AdoptBacked(env, w, role, a, root, call.legacy, call.cleanable);
      StopSound(w, 0);
      if o1.exit.Done? {
        Arrives(w, o1, 0);
        ConfirmedCallBacked(env, o1.world, role, a, root, call.name, call.args, root, call.body);
      }
    }
  }

  /** Staging or confirming a call, and running it when it is confirmed. */
  lemma ConfirmedCallBacked(
      env: Env, w: World, role: Role, a: Hash, root: Hash, name: string, args: seq<Argument>, m: Hash, body: Behaviour)
    requires Inv(w) && w.depth == 0 && Backed(w.book) && !Escrowed(w.book, a)
    requires a in w.book.accounts && root != 0 && Pointer(w.book.accounts[a], role) == root
    ensures var (o, confirmed) := TryConfirm(env, w, role, a, root, name, args);
            DoneBacked(if confirmed then Within(env, o.world, Config(role), a, m, body) else o)
  {
    hide Inv, Apply, BackedBut, Emit, TryConfirm, Within, Sound, Step;
    TryConfirmSound(env, w, role, a, root, name, args);
    TryConfirmBacked(env, w, role, a, root, name, args);
    var (o, confirmed) := TryConfirm(env, w, role, a, root, name, args);
    if confirmed {
      Arrives(w, o, 0);
      RestMayConfigure(o.world, role, a);
      WithinBacked(env, o.world, role, a, m, body);
    }
  }

  lemma CallChildBacked(env: Env, who: Caller, w: World, call: Call)
    requires Inv(w) && w.depth == 0 && Backed(w.book) && call.CallChild?
    ensures DoneBacked(DoCallChild(env, who, w, call))
  {
    hide Inv, Apply, BackedBut, Emit, TryConfirm, Within, ChildArguments, ValidTopology, ValidChildCall;
    var (role, a, child) := (call.role, call.a, call.child);
    if Configurable(w, who, a) && Pointer(w.book.accounts[a], role) != 0 && call.topology.Answer? {
      var args := ChildArguments(role, child, call.name, call.args, call.topology.value);
      ConfirmedCallBacked(env, w, role, a, Pointer(w.book.accounts[a], role), ChildCallName(role), args, child, call.body);
    }
  }

  lemma CleanAllBacked(env: Env, w: World, role: Role, a: Hash, leaving: seq<Hash>, cleanups: seq<Behaviour>)
    requires Inv(w) && MayEnter(w, Config(role), a) && Backed(w.book)
    ensures DoneBacked(CleanAll(env, w, role, a, leaving, cleanups))
  {
    hide Inv, BackedBut, CleanAll, Frozen, Sound, CleanedSince;
    CleanAllSound(env, w, role, a, leaving, cleanups, |w.log|);
    var o := CleanAll(env, w, role, a, leaving, cleanups);
    if o.exit.Done? {
      FrozenKeepsBacked(w.book, o.world.book, {});
    }
  }

  lemma MaintenanceBacked(env: Env, who: Caller, w: World, call: Call)
    requires Inv(w) && Backed(w.book) && (call.SetDependencies? || call.ClearDependencies?)
    ensures DoneBacked(if call.SetDependencies? then DoSetDependencies(env, who, w, call) else DoClearDependencies(env, who, w, call))
  {
    hide Inv, Apply, BackedBut, CleanAll, ValidChildren, Escrowed, InRootContext;
    var (role, a) := (call.role, call.a);
    if ValidDependencyCall(w, who, role, a, call.ClearDependencies?) {
      var v := Acquire(w, a);
      AcquireKeepsInv(w, a);
      MaintenanceMayConfigure(w, who, role, a, call.ClearDependencies?);
      var leaving :=
        if call.SetDependencies? then Removed(Get(w.book.rosters, (role, a), []), call.children)
        else if (role, a) in w.book.rosters then w.book.rosters[(role, a)]
        else if call.legacy.Answer? then call.legacy.value
        else [];
      CleanAllBacked(env, v, role, a, leaving, call.cleanups);
      var o := CleanAll(env, v, role, a, leaving, call.cleanups);
      if o.exit.Done? {
        var e := if call.SetDependencies? then RosterSet(role, a, call.children, |w.log|) else RosterCleared(role, a, |w.log|);
        EmitKeepsBacked(o.world, e);
      }
    }
  }

  lemma {:induction false} BatchBacked(env: Env, who: Caller, w: World, a: Hash, plans: seq<Plan>)
    requires Inv(w) && Backed(w.book)
    ensures DoneBacked(ExecuteEach(env, who, w, a, plans))
    decreases |plans|
  {
    hide Inv, BackedBut, ExecuteUserOp, Frozen, OneOperation;
    if plans != [] {
      var first := ExecuteUserOp(env, who, w, a, plans[0]);
      OperationRunsOnce(env, who, w, a, plans[0]);
      if first.exit.Done? {
        ExecuteSound(env, who, w, a, plans[0]);
        FrozenKeepsBacked(w.book, first.world.book, {});
        BatchBacked(env, who, first.world, a, plans[1..]);
      }
    }
  }

  lemma ExecuteBacked(env: Env, who: Caller, w: World, a: Hash, plan: Plan)
    requires Inv(w) && Backed(w.book)
    ensures DoneBacked(ExecuteUserOp(env, who, w, a, plan))
  {
    hide Inv, BackedBut, ExecuteUserOp, Frozen, OneOperation;
    OperationRunsOnce(env, who, w, a, plan);
    var o := ExecuteUserOp(env, who, w, a, plan);
    if o.exit.Done? {
      FrozenKeepsBacked(w.book, o.world.book, {});
    }
  }

  // ---------------------------------------------------------------------------
  // Reentrant calls
  // ---------------------------------------------------------------------------

  lemma {:induction false} PerformBacked(env: Env, w: World, b: Behaviour)
    requires Inv(w) && Backed(w.book) && env.throwDropsWrites
    ensures DoneBacked(Perform(env, w, b))
    decreases b, 0
  {
    hide Inv, BackedBut, Sound, Enter;
    if b.Invoke? {
      LookSound(w, 0);
      EnterBacked(env, b.who, Look(w), b.call);
      EnterSound(env, b.who, Look(w), b.call);
      var o := Enter(env, b.who, Look(w), b.call);
      if !o.exit.Aborted? {
        Arrives(Look(w), o, 0);
        PerformBacked(env, o.world, b.rest);
      }
    }
  }

  lemma {:induction false} ExternalBacked(env: Env, w: World, b: Behaviour)
    requires Inv(w) && Backed(w.book) && env.throwDropsWrites
    ensures var o := External(env, w, b);
            !o.exit.Aborted? ==> Backed(o.world.book)
    decreases b, 1
  {
    PerformBacked(env, w, b);
  }

  lemma {:induction false} EnterBacked(env: Env, who: Caller, w: World, call: Call)
    requires Inv(w) && Backed(w.book) && env.throwDropsWrites
    ensures var o := Enter(env, who, w, call);
            !o.exit.Aborted? ==> Backed(o.world.book)
    decreases call, 9
  {
    hide Inv, BackedBut, Dispatch, Frozen;
    if w.depth > 0 {
      EnterSound(env, who, w, call);
      var o := Enter(env, who, w, call);
      if !o.exit.Aborted? {
        FrozenKeepsBacked(w.book, o.world.book, {});
      }
    } else {
      DispatchBacked(env, who, w, call);
    }
  }

  lemma {:induction false} DispatchBacked(env: Env, who: Caller, w: World, call: Call)
    requires Inv(w) && w.depth == 0 && Backed(w.book) && env.throwDropsWrites
    ensures DoneBacked(Dispatch(env, who, w, call))
    decreases call, 8
  {
    hide Inv, Backed, Apply, ExecuteUserOp, DoRegister, DoUpdateModule, DoConfirmModule, DoCallModule, DoCallChild,
         DoSetDependencies, DoClearDependencies, DoFinalizeEscape, DoSettleEscrow, DoCancelEscrow, DoReclaim, DoSponsor;
    match call
    case Register(_, _, _, _, _, _, _, _, _, _) => RegisterBacked(env, who, w, call);
    case RegisterPlatform(_, _, _, _, _) => SingleBacked(env, who, w, call);
    case RotateOwner(_, _, _) => SingleBacked(env, who, w, call);
    case UpdateModule(_, _, _, _, _, _) => UpdateBacked(env, who, w, call);
    case ConfirmModule(_, _, _, _, _) => ConfirmBacked(env, who, w, call);
    case CancelModule(_, _) => SingleBacked(env, who, w, call);
    case CallModule(_, _, _, _, _, _, _) => CallModuleBacked(env, who, w, call);
    case CallChild(_, _, _, _, _, _, _, _, _, _) => CallChildBacked(env, who, w, call);
    case SetDependencies(_, _, _, _, _) => MaintenanceBacked(env, who, w, call);
    case ClearDependencies(_, _, _, _, _) => MaintenanceBacked(env, who, w, call);
    case InitiateEscape(_) => SingleBacked(env, who, w, call);
    case FinalizeEscape(_, _, _, _, _, _, _) => FinalizeBacked(env, who, w, call);
    case EnterEscrow(_, _, _) => SingleBacked(env, who, w, call);
    case CancelEscrow(_, _, _) => EscrowExitBacked(env, who, w, call);
    case SettleEscrow(_, _, _, _, _) => SettleBacked(env, who, w, call);
    case InitiateReclaim(_) => SingleBacked(env, who, w, call);
    case Reclaim(_, _) => EscrowExitBacked(env, who, w, call);
    case Execute(a, plan) => ExecuteBacked(env, who, w, a, plan);
    case ExecuteBatch(a, plans) => BatchBacked(env, who, w, a, plans);
    case Sponsor(_, _, _, _, _, _, _, _) => SponsorBacked(env, who, w, call);
  }

  lemma {:induction false} NotifyBacked(env: Env, w: World, market: Hash, listing: int, notified: Option<Behaviour>)
    requires Inv(w) && Backed(w.book) && env.throwDropsWrites
    ensures DoneBacked(Notify(env, w, market, listing, notified))
    decreases notified, 5
  {
    hide Inv, BackedBut, External;
    if notified.Some? {
      ExternalBacked(env, w, notified.value);
    }
  }

  lemma {:induction false} EscrowExitBacked(env: Env, who: Caller, w: World, call: Call)
    requires Inv(w) && w.depth == 0 && Backed(w.book) && env.throwDropsWrites && (call.CancelEscrow? || call.Reclaim?)
    ensures DoneBacked(if call.CancelEscrow? then DoCancelEscrow(env, who, w, call) else DoReclaim(env, who, w, call))
    decreases call, 7
  {
    hide Inv, BackedBut, Apply, Emit, Notify, LegalLog, Replay, Step;
    var a := call.a;
    var e := if call.CancelEscrow? then EscrowCancelled(a) else EscrowReclaimed(a, w.header.time);
    var listing := if call.CancelEscrow? then call.listing else Get(w.book.listings, a, 0);
    if Legal(w.book, w.log, e) {
      EmitAtRest(w, e);
      EmitKeepsBacked(w, e);
      NotifyBacked(env, Emit(w, e), Get(w.book.markets, a, 0), listing, call.notified);
    }
  }

  lemma {:induction false} SponsorBacked(env: Env, who: Caller, w: World, call: Call)
    requires Inv(w) && Backed(w.book) && env.throwDropsWrites && call.Sponsor?
    ensures DoneBacked(DoSponsor(env, who, w, call))
    decreases call, 7
  {
    hide Inv, BackedBut, Apply, Emit, Reserve, ExecuteUserOp, ExecuteEach, External, Sound, Step;
    if ValidSponsorship(call) {
      ReserveSound(w, call.amount);
      ReserveBacked(w, call.amount);
      var o1 := Reserve(w, call.amount);
      if o1.exit.Done? {
        Arrives(w, o1, 0);
        var w1 := o1.world;
        ExecuteAllSound(env, who, w1, call.a, call.plans);
        ExecuteSound(env, who, w1, call.a, call.plans[0]);
        BatchBacked(env, who, w1, call.a, call.plans);
        ExecuteBacked(env, who, w1, call.a, call.plans[0]);
        var o3 := if call.batch then ExecuteUserOps(env, who, w1, call.a, call.plans)
                  else ExecuteUserOp(env, who, w1, call.a, call.plans[0]);
        if o3.exit.Done? {
          Arrives(w1, o3, 0);
          ExternalBacked(env, o3.world, call.settlement);
        }
      }
    }
  }

  lemma ReserveBacked(w: World, requested: nat)
    requires Backed(w.book)
    ensures DoneBacked(Reserve(w, requested))
  {
    hide Apply, BackedBut, Emit, SettledAmount;
    var settled := SettledAmount(w.header.cost, ReservedBy(w.book, w.header.tx), requested);
    if settled > 0 {
      EmitKeepsBacked(w, Reserved(w.header.tx, w.header.cost, requested, settled));
    }
  }

  // ---------------------------------------------------------------------------
  // Histories
  // ---------------------------------------------------------------------------

  /** After every history, a pending update exists only while the pointer it would replace is non-zero. */
  lemma {:induction false} PendingUpdatesAreBacked(txs: seq<Transaction>)
    requires forall i | 0 <= i < |txs| :: txs[i].env.throwDropsWrites
    ensures Backed(History(txs).book)
  {
    if txs != [] {
      var before, t := txs[..|txs| - 1], txs[|txs| - 1];
      assert forall i | 0 <= i < |before| :: before[i] == txs[i];
      PendingUpdatesAreBacked(before);
      HistoriesAreLegal(before);
      PerformBacked(t.env, History(before).(header := t.header), t.script);
    }
  }
}
