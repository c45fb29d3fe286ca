/**
 The wallet contract as it is written: storage prefixes that its entry points put and delete one by
 one, and `finally` blocks that clear what was set.  Every method is proved to end exactly as the
 corresponding function of module Machine says, for every callback tree; what modules Soundness,
 Runs, Journal, Authority, Reclaim and Reimbursement prove about those functions and their logs is
 therefore proved of these methods.
 */
module Wallet {
  import opened Bytes
  import opened Values
  import opened Records
  import opened Machine
  import Guarantee
  import Runs

  function WithoutPending(b: Book, a: Hash): Book {
    b.(updates := b.updates - {(Verifier, a), (Hook, a)}, calls := b.calls - {(Verifier, a), (Hook, a)}, escapes := b.escapes - {a})
  }

  function WithoutEscrow(b: Book, a: Hash): Book {
    b.(markets := b.markets - {a}, listings := b.listings - {a}, reclaims := b.reclaims - {a})
  }

  lemma SweptFields(b: Book, a: Hash)
    ensures Apply(b, EscapeSwept(a)) == WithoutPending(b, a)
  {
  }

  lemma ExitFields(b: Book, a: Hash, e: Event)
    requires e == EscrowCancelled(a) || (e.EscrowReclaimed? && e.a == a)
    ensures Apply(b, e) == WithoutEscrow(b, a)
  {
  }

  lemma SettledFields(b: Book, a: Hash, state: Account, owner: Hash, since: nat)
    ensures var sold := state.(owner := owner, verifier := 0, hook := 0, escapeAt := 0);
            Apply(b, EscrowSettled(a, state, owner, since)) == WithoutEscrow(WithoutPending(b.(accounts := b.accounts[a := sold]), a), a)
  {
  }

  lemma RegisteredFields(b: Book, a: Hash, state: Account, binding: seq<Byte>)
    ensures Apply(b, Registered(a, state, binding))
         == b.(accounts := b.accounts[a := state], bindings := if binding == [] then b.bindings else b.bindings[a := binding])
  {
  }

  lemma RotatedFields(b: Book, a: Hash, owner: Hash)
    requires a in b.accounts
    ensures Apply(b, OwnerRotated(a, owner)) == b.(accounts := b.accounts[a := b.accounts[a].(owner := owner)])
  {
  }

  lemma InstalledFields(b: Book, role: Role, a: Hash, m: Hash)
    requires a in b.accounts
    ensures Apply(b, Installed(role, a, m)) == b.(accounts := b.accounts[a := WithPointer(b.accounts[a], role, m)])
  {
  }

  lemma EscapeFields(b: Book, a: Hash, time: nat)
    requires a in b.accounts
    ensures Apply(b, EscapeInitiated(a, time))
         == b.(accounts := b.accounts[a := b.accounts[a].(escapeAt := time)], escapes := b.escapes[a := time])
  {
  }

  lemma ReclaimFields(b: Book, a: Hash, time: nat)
    ensures Apply(b, ReclaimInitiated(a, time)) == b.(reclaims := b.reclaims[a := time])
  {
  }

  lemma ReservedFields(b: Book, tx: nat, cost: nat, requested: nat, settled: int)
    requires settled >= 0
    ensures Apply(b, Reserved(tx, cost, requested, settled)) == b.(budget := Some(Budget(tx, ReservedBy(b, tx) + settled)))
  {
  }

  lemma EnteredFields(b: Book, a: Hash, market: Hash, listing: nat)
    ensures Apply(b, EscrowEntered(a, market, listing)) == b.(markets := b.markets[a := market], listings := b.listings[a := listing])
  {
  }

  class UnifiedSmartWallet {
    var accounts: map<Hash, Account>
    var nonces: map<(Hash, nat), nat>
    var updates: map<(Role, Hash), PendingUpdate>
    var calls: map<(Role, Hash), PendingCall>
    var rosters: map<(Role, Hash), seq<Hash>>
    var markets: map<Hash, Hash>
    var listings: map<Hash, nat>
    var reclaims: map<Hash, nat>
    var escapes: map<Hash, nat>
    var bindings: map<Hash, seq<Byte>>
    var budget: Option<Budget>
    var contexts: Contexts
    var depth: nat
    var maintenance: set<Hash>
    var log: seq<Event>
    var header: Header
    var views: seq<View>

    function Stored(): Book
      reads this`accounts, this`nonces, this`updates, this`calls, this`rosters, this`markets, this`listings, this`reclaims,
            this`escapes, this`bindings, this`budget
    {
      Book(accounts, nonces, updates, calls, rosters, markets, listings, reclaims, escapes, bindings, budget)
    }

    function State(): World
      reads this
    {
      World(Stored(), contexts, depth, maintenance, log, header, views)
    }

    /** The method has ended as `o` says; of an aborted transaction only what foreign code saw is left. */
    predicate Ends(o: Outcome, exit: Exit)
      reads this
    {
      exit == o.exit && views == o.world.views && (!exit.Aborted? ==> State() == o.world)
    }

    constructor ()
      ensures State() == GENESIS
    {
      accounts, nonces, updates, calls, rosters := map[], map[], map[], map[], map[];
      markets, listings, reclaims, escapes, bindings := map[], map[], map[], map[], map[];
      budget, contexts, depth, maintenance, log, header, views := None, map[], 0, {}, [], Header(0, 0, 0), [];
    }

    method RestoreBook(b: Book)
      modifies this`accounts, this`nonces, this`updates, this`calls, this`rosters, this`markets, this`listings,
               this`reclaims, this`escapes, this`bindings, this`budget
      ensures Stored() == b
    {
      accounts, nonces, updates, calls, rosters := b.accounts, b.nonces, b.updates, b.calls, b.rosters;
      markets, listings, reclaims, escapes := b.markets, b.listings, b.reclaims, b.escapes;
      bindings, budget := b.bindings, b.budget;
    }

    method StoreAccount(a: Hash, state: Account)
      modifies this`accounts
      ensures Stored() == old(Stored()).(accounts := old(Stored().accounts)[a := state])
    {
      accounts := accounts[a := state];
    }

    /** The platform's rollback: every write since `w` is dropped. */
    method Restore(w: World)
      modifies this
      ensures State() == Undo(w, old(State()))
    {
      hide Stored;
      contexts, depth, maintenance, log, header := w.contexts, w.depth, w.maintenance, w.log, w.header;
      views := Drop(views, |w.views|);
      RestoreBook(w.book);
    }

    // -------------------------------------------------------------------------
    // Writes: the keys that go together, with their notification
    // -------------------------------------------------------------------------

    method StoreRegistration(a: Hash, state: Account, binding: seq<Byte>)
      modifies this`accounts, this`bindings, this`log
      ensures State() == Emit(old(State()), Registered(a, state, binding))
    {
      hide Apply;
      RegisteredFields(Stored(), a, state, binding);
      accounts := accounts[a := state];
      if binding != [] { bindings := bindings[a := binding]; }
      log := log + [Registered(a, state, binding)];
    }

    method StoreConfirmed(role: Role, a: Hash, state: Account, m: Hash, since: nat, time: nat)
      modifies this`accounts, this`log
      ensures State() == Emit(old(State()), UpdateConfirmed(role, a, state, m, since, time))
    {
      accounts := accounts[a := WithPointer(state, role, m)];
      log := log + [UpdateConfirmed(role, a, state, m, since, time)];
    }

    method StoreUpdate(role: Role, a: Hash, m: Hash, params: seq<Byte>, time: nat)
      modifies this`updates, this`log
      ensures State() == Emit(old(State()), UpdateRequested(role, a, m, params, time))
    {
      updates := updates[(role, a) := PendingUpdate(m, params, time)];
      log := log + [UpdateRequested(role, a, m, params, time)];
    }

    method DeleteUpdate(role: Role, a: Hash)
      modifies this`updates, this`log
      ensures State() == Emit(old(State()), UpdateDropped(role, a))
    {
      updates := updates - {(role, a)};
      log := log + [UpdateDropped(role, a)];
    }

    method StorePendingModuleCall(role: Role, a: Hash, m: Hash, digest: Digest, time: nat)
      modifies this`calls, this`log
      ensures State() == Emit(old(State()), CallStaged(role, a, m, digest, time))
    {
      calls := calls[(role, a) := PendingCall(m, digest, time)];
      log := log + [CallStaged(role, a, m, digest, time)];
    }

    method SpendPendingModuleCall(role: Role, a: Hash, m: Hash, digest: Digest, time: nat)
      modifies this`calls, this`log
      ensures State() == Emit(old(State()), CallConfirmed(role, a, m, digest, time))
    {
      calls := calls - {(role, a)};
      log := log + [CallConfirmed(role, a, m, digest, time)];
    }

    method StoreRoster(role: Role, a: Hash, children: seq<Hash>, since: nat)
      modifies this`rosters, this`log
      ensures State() == Emit(old(State()), RosterSet(role, a, children, since))
    {
      rosters := rosters[(role, a) := children];
      log := log + [RosterSet(role, a, children, since)];
    }

    method DeleteRoster(role: Role, a: Hash, since: nat)
      modifies this`rosters, this`log
      ensures State() == Emit(old(State()), RosterCleared(role, a, since))
    {
      rosters := rosters - {(role, a)};
      log := log + [RosterCleared(role, a, since)];
    }

    method StoreRecovered(a: Hash, state: Account, verifier: Hash, since: nat, time: nat)
      modifies this`accounts, this`log
      ensures State() == Emit(old(State()), EscapeFinalized(a, state, verifier, since, time))
    {
      accounts := accounts[a := state.(verifier := verifier, hook := 0, escapeAt := 0)];
      log := log + [EscapeFinalized(a, state, verifier, since, time)];
    }

    method DeletePendingKeys(a: Hash)
      modifies this`escapes, this`updates, this`calls
      ensures Stored() == WithoutPending(old(Stored()), a)
    {
      escapes := escapes - {a};
      updates := updates - {(Verifier, a), (Hook, a)};
      calls := calls - {(Verifier, a), (Hook, a)};
    }

    method DeletePending(a: Hash)
      modifies this`escapes, this`updates, this`calls, this`log
      ensures State() == Emit(old(State()), EscapeSwept(a))
    {
      hide Apply, WithoutPending;
      SweptFields(Stored(), a);
      DeletePendingKeys(a);
      log := log + [EscapeSwept(a)];
    }

    method StoreNonce(a: Hash, channel: nat, current: nat)
      modifies this`nonces, this`log
      ensures State() == Emit(old(State()), NonceConsumed(a, channel, current))
    {
      nonces := nonces[(a, channel) := current + 1];
      log := log + [NonceConsumed(a, channel, current)];
    }

    method StoreEscrow(a: Hash, market: Hash, listing: nat)
      modifies this`markets, this`listings, this`log
      ensures State() == Emit(old(State()), EscrowEntered(a, market, listing))
    {
      hide Apply;
      EnteredFields(Stored(), a, market, listing);
      markets := markets[a := market];
      listings := listings[a := listing];
      log := log + [EscrowEntered(a, market, listing)];
    }

    method DeleteEscrowKeys(a: Hash)
      modifies this`markets, this`listings, this`reclaims
      ensures Stored() == WithoutEscrow(old(Stored()), a)
    {
      markets := markets - {a};
      listings := listings - {a};
      reclaims := reclaims - {a};
    }

    /** ClearMarketEscrow, for a cancellation or a reclaim. */
    method ClearMarketEscrow(a: Hash, e: Event)
      requires e == EscrowCancelled(a) || (e.EscrowReclaimed? && e.a == a)
      modifies this`markets, this`listings, this`reclaims, this`log
      ensures State() == Emit(old(State()), e)
    {
      hide Apply, WithoutEscrow;
      ExitFields(Stored(), a, e);
      DeleteEscrowKeys(a);
      log := log + [e];
    }

    /** A sold account: new owner, no modules, nothing pending, no escrow. */
    method StoreSettled(a: Hash, state: Account, owner: Hash, since: nat)
      modifies this`accounts, this`updates, this`calls, this`escapes, this`markets, this`listings, this`reclaims, this`log
      ensures State() == Emit(old(State()), EscrowSettled(a, state, owner, since))
    {
      hide Apply, Stored, WithoutPending, WithoutEscrow;
      SettledFields(Stored(), a, state, owner, since);
      StoreAccount(a, state.(owner := owner, verifier := 0, hook := 0, escapeAt := 0));
      DeletePendingKeys(a);
      DeleteEscrowKeys(a);
      log := log + [EscrowSettled(a, state, owner, since)];
    }

    method StoreEscapeCancelled(a: Hash, state: Account)
      requires a in accounts && accounts[a] == state
      modifies this`accounts, this`log
      ensures State() == Emit(old(State()), EscapeCancelled(a))
    {
      accounts := accounts[a := state.(escapeAt := 0)];
      log := log + [EscapeCancelled(a)];
    }

    method StoreEscape(a: Hash, time: nat)
      requires a in accounts
      modifies this`accounts, this`escapes, this`log
      ensures State() == Emit(old(State()), EscapeInitiated(a, time))
    {
      hide Apply;
      EscapeFields(Stored(), a, time);
      accounts := accounts[a := accounts[a].(escapeAt := time)];
      escapes := escapes[a := time];
      log := log + [EscapeInitiated(a, time)];
    }

    // -------------------------------------------------------------------------
    // Contexts
    // -------------------------------------------------------------------------

    method EnterConfigurationContext()
      modifies this`depth
      ensures depth == old(depth) + 1
    {
      depth := depth + 1;
    }

    /** Asserts that the counter does not underflow. */
    method ExitConfigurationContext() returns (exit: Exit)
      modifies this`depth
      ensures exit == if old(depth) > 0 then Done else Aborted(Underflow)
      ensures exit.Done? ==> depth == old(depth) - 1
    {
      if depth == 0 { return Aborted(Underflow); }
      depth := depth - 1;
      return Done;
    }

    method SetContext(slot: Slot, a: Hash, h: Hash)
      modifies this`contexts, this`depth
      ensures State() == Machine.SetContext(old(State()), slot, a, h)
    {
      contexts := contexts[(slot, a) := h];
      EnterConfigurationContext();
    }

    method ClearContext(slot: Slot, a: Hash) returns (exit: Exit)
      modifies this`contexts, this`depth
      ensures Ends(Machine.ClearContext(old(State()), slot, a), exit)
    {
      contexts := contexts - {(slot, a)};
      exit := ExitConfigurationContext();
    }

    /** A `finally` block: runs after a return and after a throw, not after an abort. */
    method Finally(slot: Slot, a: Hash, ended: Exit) returns (exit: Exit)
      modifies this`contexts, this`depth
      ensures ended.Aborted? ==> State() == old(State())
      ensures Ends(Machine.Finally(Outcome(old(State()), ended), slot, a), exit)
    {
      exit := ended;
      if !ended.Aborted? {
        var cleared := ClearContext(slot, a);
        if cleared.Aborted? { exit := cleared; }
      }
    }

    // -------------------------------------------------------------------------
    // External calls
    // -------------------------------------------------------------------------

    /** Foreign code takes or regains control. */
    method ShowWallet()
      modifies this`views
      ensures State() == Look(old(State()))
    {
      views := views + [View(Stored(), contexts, depth, |log|, true, None)];
    }

    /** The target of an operation has returned. */
    method ShowReturn(op: UserOperation)
      modifies this`views
      ensures State() == Regain(old(State()), op)
    {
      views := views + [View(Stored(), contexts, depth, |log|, true, Some(op))];
    }

    method Perform(env: Env, b: Behaviour) returns (exit: Exit)
      modifies this
      ensures Ends(Machine.Perform(env, old(State()), b), exit)
      decreases b, 0
    {
      hide Stored, Machine.Enter;
      ShowWallet();
      match b
      case Return => return Done;
      case Throw => return Thrown;
      case Abort => return Aborted(Foreign);
      case Invoke(who, call, caught, rest) =>
        exit := Enter(env, who, call);
        if exit.Done? || (exit.Thrown? && caught) {
          exit := Perform(env, rest);
        }
    }

    method CallContract(env: Env, b: Behaviour) returns (exit: Exit)
      modifies this
      ensures Ends(External(env, old(State()), b), exit)
      decreases b, 1
    {
      var before := State();
      exit := Perform(env, b);
      if exit.Thrown? && env.throwDropsWrites { Restore(before); }
    }

    method CallWithin(env: Env, slot: Slot, a: Hash, m: Hash, b: Behaviour) returns (exit: Exit)
      modifies this
      ensures Ends(Within(env, old(State()), slot, a, m, b), exit)
      decreases b, 2
    {
      SetContext(slot, a, m);
      exit := CallContract(env, b);
      exit := Finally(slot, a, exit);
    }

    method RecordCleanup(role: Role, a: Hash, m: Hash, view: nat)
      modifies this`log
      ensures State() == Emit(old(State()), Cleaned(role, a, m, view))
    {
      log := log + [Cleaned(role, a, m, view)];
    }

    /** CleanupDependency: `clearAccount` under the module's own configuration context. */
    method CleanupDependency(env: Env, role: Role, a: Hash, m: Hash, b: Behaviour) returns (exit: Exit)
      modifies this
      ensures Ends(Cleanup(env, old(State()), role, a, m, b), exit)
      decreases b, 3
    {
      hide Within, Apply;
      var view := |views|;
      exit := CallWithin(env, Config(role), a, m, b);
      if exit.Done? { RecordCleanup(role, a, m, view); }
    }

    method ClearRoot(env: Env, role: Role, a: Hash, m: Hash, b: Behaviour) returns (exit: Exit)
      modifies this
      ensures Ends(CleanRoot(env, old(State()), role, a, m, b), exit)
      decreases b, 4
    {
      exit := Done;
      if m != 0 { exit := CleanupDependency(env, role, a, m, b); }
    }

    method ConfigureVerifier(env: Env, a: Hash, verifier: Hash, params: seq<Byte>, b: Behaviour) returns (exit: Exit)
      modifies this
      ensures Ends(SetUp(env, old(State()), a, verifier, params, b), exit)
      decreases b, 4
    {
      exit := Done;
      if verifier != 0 && |params| > 0 { exit := CallWithin(env, Config(Verifier), a, verifier, b); }
    }

    method Enter(env: Env, who: Caller, call: Call) returns (exit: Exit)
      modifies this
      ensures Ends(Machine.Enter(env, who, old(State()), call), exit)
      decreases call, 9
    {
      var before := State();
      exit := Dispatch(env, who, call);
      if exit.Thrown? && env.throwDropsWrites { Restore(before); }
    }

    method Dispatch(env: Env, who: Caller, call: Call) returns (exit: Exit)
      modifies this
      ensures Ends(Machine.Dispatch(env, who, old(State()), call), exit)
      decreases call, 8
    {
      hide Ends, State, Stored, Machine.ExecuteUserOp, Machine.ExecuteUserOps,
           DoRegister, DoRegisterPlatform, DoRotateOwner, DoUpdateModule, DoConfirmModule, DoCancelModule, DoCallModule,
           DoCallChild, DoSetDependencies, DoClearDependencies, DoInitiateEscape, DoFinalizeEscape, DoEnterEscrow,
           DoCancelEscrow, DoSettleEscrow, DoInitiateReclaim, DoReclaim, DoSponsor;
      match call
      case Register(_, _, _, _, _, _, _, _, _, _) => exit := RegisterAccount(env, who, call);
      case RegisterPlatform(_, _, _, _, _) => exit := RegisterPlatformAccount(env, who, call);
      case RotateOwner(_, _, _) => exit := RotatePlatformAccountOwner(env, who, call);
      case UpdateModule(_, _, _, _, _, _) => exit := RequestUpdate(env, who, call);
      case ConfirmModule(_, _, _, _, _) => exit := ConfirmUpdate(env, who, call);
      case CancelModule(_, _) => exit := CancelUpdate(env, who, call);
      case CallModule(_, _, _, _, _, _, _) => exit := CallRoot(env, who, call);
      case CallChild(_, _, _, _, _, _, _, _, _, _) => exit := CallInstalledChild(env, who, call);
      case SetDependencies(_, _, _, _, _) => exit := EnrolDependencies(env, who, call);
      case ClearDependencies(_, _, _, _, _) => exit := DropDependencies(env, who, call);
      case InitiateEscape(_) => exit := BeginEscape(env, who, call);
      case FinalizeEscape(_, _, _, _, _, _, _) => exit := CompleteEscape(env, who, call);
      case EnterEscrow(_, _, _) => exit := EnterMarketEscrow(env, who, call);
      case CancelEscrow(_, _, _) => exit := CancelMarketEscrow(env, who, call);
      case SettleEscrow(_, _, _, _, _) => exit := SettleMarketEscrow(env, who, call);
      case InitiateReclaim(_) => exit := InitiateMarketEscrowCancel(env, who, call);
      case Reclaim(_, _) => exit := ForceCancelMarketEscrow(env, who, call);
      case Execute(a, plan) => exit := ExecuteUserOp(env, who, a, plan);
      case ExecuteBatch(a, plans) => exit := ExecuteUserOps(env, who, a, plans);
      case Sponsor(_, _, _, _, _, _, _, _) => exit := ExecuteSponsored(env, who, call);
    }

    // -------------------------------------------------------------------------
    // Registration and ownership
    // -------------------------------------------------------------------------

    method RegisterAccount(env: Env, who: Caller, call: Call) returns (exit: Exit)
      requires call.Register?
      modifies this
      ensures Ends(DoRegister(env, who, old(State()), call), exit)
      decreases call, 7
    {
      hide SetUp, Apply, Emit;
      var a := call.a;
      if !ValidRegistration(State(), a, call.owner, call.timelock, call.expected) || call.owner !in who.witnesses {
        return Aborted(Refused);
      }
      if call.verifier != 0 {
        exit := Answered(call.verifierProbe);
        if !exit.Done? { return; }
      }
      if call.hook != 0 {
        exit := Answered(call.hookProbe);
        if !exit.Done? { return; }
      }
      if a in accounts { return Aborted(Refused); }
      var state := Account(call.verifier, call.hook, call.owner, call.timelock, 0);
      StoreRegistration(a, state, []);
      exit := ConfigureVerifier(env, a, call.verifier, call.params, call.setup);
    }

    /** A query that asserts a true answer. */
    function Answered(reply: Reply<bool>): Exit {
      match reply
      case Answer(ok) => if ok then Done else Aborted(Refused)
      case Raises => Thrown
      case Aborts => Aborted(Foreign)
    }

    method RegisterPlatformAccount(env: Env, who: Caller, call: Call) returns (exit: Exit)
      requires call.RegisterPlatform?
      modifies this
      ensures Ends(DoRegisterPlatform(env, who, old(State()), call), exit)
    {
      hide Apply, Emit;
      var a := call.a;
      if env.registrar == 0 || who.script != env.registrar || !ValidBinding(call.binding) { return Aborted(Refused); }
      if !ValidRegistration(State(), a, call.owner, call.timelock, call.expected) || a in accounts {
        return Aborted(Refused);
      }
      var state := Account(0, 0, call.owner, call.timelock, 0);
      StoreRegistration(a, state, call.binding);
      return Done;
    }

    method RotatePlatformAccountOwner(env: Env, who: Caller, call: Call) returns (exit: Exit)
      requires call.RotateOwner?
      modifies this
      ensures Ends(DoRotateOwner(env, who, old(State()), call), exit)
    {
      hide Apply;
      var a := call.a;
      if env.registrar == 0 || who.script != env.registrar || !ValidBinding(call.binding) { return Aborted(Refused); }
      if call.owner == 0 || !Idle(State(), a) { return Aborted(Refused); }
      if a !in bindings || bindings[a] != call.binding || Escrowed(Stored(), a) { return Aborted(Refused); }
      if a !in accounts { return Aborted(Refused); }
      var state := accounts[a];
      if state.escapeAt != 0 || state.owner == call.owner { return Aborted(Refused); }
      RotatedFields(Stored(), a, call.owner);
      state := state.(owner := call.owner);
      accounts := accounts[a := state];
      log := log + [OwnerRotated(a, call.owner)];
      return Done;
    }

    // -------------------------------------------------------------------------
    // Module rotation
    // -------------------------------------------------------------------------

    /** UpdateVerifier and UpdateHook. */
    method RequestUpdate(env: Env, who: Caller, call: Call) returns (exit: Exit)
      requires call.UpdateModule?
      modifies this
      ensures Ends(DoUpdateModule(env, who, old(State()), call), exit)
      decreases call, 7
    {
      hide SetUp, Apply;
      var (role, a, m) := (call.role, call.a, call.module_);
      if !Configurable(State(), who, a) { return Aborted(Refused); }
      if role.Hook? && m != 0 {
        exit := Answered(call.probe);
        if !exit.Done? { return; }
      }
      var state := accounts[a];
      if Pointer(state, role) == 0 {
        if role.Verifier? && m != 0 {
          exit := Answered(call.probe);
          if !exit.Done? { return; }
        }
        InstalledFields(Stored(), role, a, m);
        state := WithPointer(state, role, m);
        accounts := accounts[a := state];
        log := log + [Installed(role, a, m)];
        exit := Done;
        if role.Verifier? { exit := ConfigureVerifier(env, a, m, call.params, call.setup); }
        return;
      }
      if (role, a) in updates { return Aborted(Refused); }
      var params := if role.Verifier? then call.params else [];
      StoreUpdate(role, a, m, params, header.time);
      return Done;
    }

    /** ConfirmVerifierUpdate and ConfirmHookUpdate. */
    method ConfirmUpdate(env: Env, who: Caller, call: Call) returns (exit: Exit)
      requires call.ConfirmModule?
      modifies this
      ensures Ends(DoConfirmModule(env, who, old(State()), call), exit)
      decreases call, 7
    {
      hide SetUp, CleanRoot, Apply, Emit;
      var (role, a, now) := (call.role, call.a, header.time);
      if !Configurable(State(), who, a) || (role, a) !in updates { return Aborted(Refused); }
      var pending := updates[(role, a)];
      if now < pending.since + CONFIG_TIMELOCK_MS { return Aborted(Refused); }
      if pending.module_ != 0 {
        exit := Answered(call.probe);
        if !exit.Done? { return; }
      }
      var state := accounts[a];
      var since := |log|;
      exit := ClearRoot(env, role, a, Pointer(state, role), call.cleanup);
      if !exit.Done? { return; }
      StoreConfirmed(role, a, state, pending.module_, since, now);
      if role.Verifier? {
        exit := ConfigureVerifier(env, a, pending.module_, pending.params, call.setup);
        if !exit.Done? { return; }
      }
      DeleteUpdate(role, a);
      return Done;
    }

    /** CancelVerifierUpdate and CancelHookUpdate. */
    method CancelUpdate(env: Env, who: Caller, call: Call) returns (exit: Exit)
      requires call.CancelModule?
      modifies this
      ensures Ends(DoCancelModule(env, who, old(State()), call), exit)
    {
      hide Apply, Emit;
      if !ByOwner(Stored(), who, call.a) || !Idle(State(), call.a) { return Aborted(Refused); }
      DeleteUpdate(call.role, call.a);
      return Done;
    }

    // -------------------------------------------------------------------------
    // Staged maintenance calls
    // -------------------------------------------------------------------------

    /** Stores a first or different request, refuses an early repetition, and spends a due one. */
    method TryConfirmPendingModuleCall(env: Env, role: Role, a: Hash, m: Hash, name: string, args: seq<Argument>)
      returns (exit: Exit, confirmed: bool)
      modifies this
      ensures var (o, c) := TryConfirm(env, old(State()), role, a, m, name, args);
              Ends(o, exit) && confirmed == c && (confirmed ==> exit.Done?)
    {
      hide Apply, Emit;
      var digest := Sha256(name, args);
      if (role, a) !in calls {
        StorePendingModuleCall(role, a, m, digest, header.time);
        return Done, false;
      }
      var pending := calls[(role, a)];
      if pending.module_ != m || pending.digest != digest {
        StorePendingModuleCall(role, a, m, digest, header.time);
        return Done, false;
      }
      if header.time < pending.since + CONFIG_TIMELOCK_MS { return Aborted(Refused), false; }
      SpendPendingModuleCall(role, a, m, digest, header.time);
      return Done, true;
    }

    /** Checks count, zero hashes, the root, this contract, duplicates and the cleanup ABI, child by child. */
    method ValidateDependencyChildren(env: Env, children: seq<Hash>, root: Hash, cleanable: set<Hash>) returns (ok: bool)
      ensures ok == ValidChildren(env, children, root, cleanable)
    {
      if |children| > MAX_DEPENDENCIES { return false; }
      for i := 0 to |children|
        invariant forall x, y | 0 <= x < y < |children| && x < i :: children[x] != children[y]
        invariant forall x | 0 <= x < i :: children[x] != 0 && children[x] != root && children[x] != env.self && children[x] in cleanable
      {
        var child := children[i];
        assert child in children;
        if child == 0 || child == root || child == env.self { return false; }
        for j := i + 1 to |children|
          invariant forall y | i < y < j :: children[y] != child
        {
          if child == children[j] { return false; }
        }
        if child !in cleanable { return false; }
      }
      return true;
    }

    /** EnsureLegacyDependencies, under the maintenance lock. */
    method EnsureLegacyDependencies(env: Env, role: Role, a: Hash, root: Hash, legacy: Reply<seq<Hash>>, cleanable: set<Hash>)
      returns (exit: Exit)
      modifies this
      ensures Ends(AdoptLegacy(env, old(State()), role, a, root, legacy, cleanable), exit)
    {
      hide Apply, ValidChildren;
      if (role, a) in rosters { return Done; }
      if a in maintenance { return Aborted(Refused); }
      maintenance := maintenance + {a};
      assert maintenance - {a} == old(maintenance);
      exit := Done;
      match legacy {
        case Raises => exit := Thrown;
        case Aborts => return Aborted(Foreign);
        case Answer(children) =>
          if |children| > 0 {
            var valid := ValidateDependencyChildren(env, children, root, cleanable);
            if !valid { return Aborted(Refused); }
            StoreRoster(role, a, children, |log|);
          }
      }
      maintenance := maintenance - {a};
    }

    /** CallVerifier and CallHook. */
    method CallRoot(env: Env, who: Caller, call: Call) returns (exit: Exit)
      requires call.CallModule?
      modifies this
      ensures Ends(DoCallModule(env, who, old(State()), call), exit)
      decreases call, 7
    {
      hide Within, AdoptLegacy, TryConfirm, Apply, Emit;
      var (role, a) := (call.role, call.a);
      if call.name !in AllowedMethods(role) || !Configurable(State(), who, a) { return Aborted(Refused); }
      var root := Pointer(accounts[a], role);
      if root == 0 { return Aborted(Refused); }
      if call.name == (if role.Verifier? then "setConfig" else "setHooks") {
        exit := EnsureLegacyDependencies(env, role, a, root, call.legacy, call.cleanable);
        if !exit.Done? { return; }
      }
      var confirmed;
      exit, confirmed := TryConfirmPendingModuleCall(env, role, a, root, call.name, call.args);
      if confirmed { exit := CallWithin(env, Config(role), a, root, call.body); }
    }

    /** Walks the reported roster once, rejecting bad children, and looks for the child on the way. */
    method ValidateTopology(role: Role, t: Topology, root: Hash, child: Hash) returns (ok: bool)
      ensures ok == ValidTopology(role, t, root, child)
    {
      if |t.children| == 0 || |t.children| > (if role.Verifier? then 10 else 8) { return false; }
      if role.Verifier? && (t.threshold <= 0 || t.threshold > |t.children|) { return false; }
      var installed := false;
      for i := 0 to |t.children|
        invariant installed == (child in t.children[..i])
        invariant forall x, y | 0 <= x < y < |t.children| && x < i :: t.children[x] != t.children[y]
        invariant forall x | 0 <= x < i :: t.children[x] != 0 && t.children[x] != root
      {
        var other := t.children[i];
        assert other in t.children;
        if other == 0 || other == root { return false; }
        for j := i + 1 to |t.children|
          invariant forall y | i < y < j :: t.children[y] != other
        {
          if other == t.children[j] { return false; }
        }
        if other == child { installed := true; }
        assert t.children[..i + 1] == t.children[..i] + [other];
      }
      assert t.children[..|t.children|] == t.children;
      return installed;
    }

    /** CallVerifierChild and CallHookChild. */
    method CallInstalledChild(env: Env, who: Caller, call: Call) returns (exit: Exit)
      requires call.CallChild?
      modifies this
      ensures Ends(DoCallChild(env, who, old(State()), call), exit)
      decreases call, 7
    {
      hide Within, TryConfirm, ValidTopology, ValidChildCall, ChildArguments, Apply, Emit;
      var (role, a, child) := (call.role, call.a, call.child);
      if !Configurable(State(), who, a) { return Aborted(Refused); }
      var root := Pointer(accounts[a], role);
      if root == 0 || child == 0 || child == root { return Aborted(Refused); }
      exit := Answered(call.rootProbe);
      if !exit.Done? { return; }
      match call.topology
      case Raises => return Thrown;
      case Aborts => return Aborted(Foreign);
      case Answer(t) =>
        var installed := ValidateTopology(role, t, root, child);
        if !installed { return Aborted(Refused); }
        exit := Answered(call.childProbe);
        if !exit.Done? { return; }
        if !ValidChildCall(role, a, call.name, call.args, call.abiOk) { return Aborted(Refused); }
        var confirmed;
        exit, confirmed := TryConfirmPendingModuleCall(
          env, role, a, root, ChildCallName(role), ChildArguments(role, child, call.name, call.args, t));
        if confirmed { exit := CallWithin(env, Config(role), a, child, call.body); }
    }

    // -------------------------------------------------------------------------
    // Dependency rosters
    // -------------------------------------------------------------------------

    /** SetDependencies: cleans up every child that is not retained, then stores the new roster. */
    method EnrolDependencies(env: Env, who: Caller, call: Call) returns (exit: Exit)
      requires call.SetDependencies?
      modifies this
      ensures Ends(DoSetDependencies(env, who, old(State()), call), exit)
      decreases call, 7
    {
      hide CleanAll, ValidChildren, Apply, Emit;
      var (role, a, children) := (call.role, call.a, call.children);
      if !ValidDependencyCall(State(), who, role, a, false) { return Aborted(Refused); }
      var valid := ValidateDependencyChildren(env, children, Pointer(accounts[a], role), call.cleanable);
      if !valid || a in maintenance { return Aborted(Refused); }
      maintenance := maintenance + {a};
      var since := |log|;
      exit := CleanupRemoved(env, role, a, Get(rosters, (role, a), []), children, call.cleanups);
      if exit.Aborted? { return; }
      if exit.Done? {
        StoreRoster(role, a, children, since);
      }
      maintenance := maintenance - {a};
    }

    /** The nested loops over the previous and the new roster. */
    method CleanupRemoved(env: Env, role: Role, a: Hash, previous: seq<Hash>, children: seq<Hash>, cleanups: seq<Behaviour>)
      returns (exit: Exit)
      modifies this
      ensures Ends(CleanAll(env, old(State()), role, a, Removed(previous, children), cleanups), exit)
      decreases cleanups, 1
    {
      hide Cleanup;
      var used := 0;
      for i := 0 to |previous|
        invariant used <= |cleanups|
        invariant CleanAll(env, old(State()), role, a, Removed(previous, children), cleanups)
               == CleanAll(env, State(), role, a, Removed(previous[i..], children), cleanups[used..])
      {
        var retained := false;
        for j := 0 to |children|
          invariant retained == (previous[i] in children[..j])
        {
          if previous[i] == children[j] {
            retained := true;
            assert children[j] in children;
            break;
          }
        }
        assert retained == (previous[i] in children);
        assert previous[i..][1..] == previous[i + 1..];
        if !retained {
          if used == |cleanups| { return Aborted(Foreign); }
          assert cleanups[used..][1..] == cleanups[used + 1..];
          exit := CleanupDependency(env, role, a, previous[i], cleanups[used]);
          if !exit.Done? { return; }
          used := used + 1;
        }
      }
      return Done;
    }

    method DropDependencies(env: Env, who: Caller, call: Call) returns (exit: Exit)
      requires call.ClearDependencies?
      modifies this
      ensures Ends(DoClearDependencies(env, who, old(State()), call), exit)
      decreases call, 7
    {
      hide CleanAll, ValidChildren, Apply, Emit;
      var (role, a) := (call.role, call.a);
      if !ValidDependencyCall(State(), who, role, a, true) || a in maintenance { return Aborted(Refused); }
      var root := Pointer(accounts[a], role);
      maintenance := maintenance + {a};
      var since := |log|;
      var reply := if (role, a) in rosters then Answer(rosters[(role, a)]) else call.legacy;
      match reply {
        case Raises => exit := Thrown;
        case Aborts => return Aborted(Foreign);
        case Answer(children) =>
          var valid := ValidateDependencyChildren(env, children, root, call.cleanable);
          if !valid { return Aborted(Refused); }
          exit := CleanupEach(env, role, a, children, call.cleanups);
          if exit.Aborted? { return; }
          if exit.Done? {
            DeleteRoster(role, a, since);
          }
      }
      maintenance := maintenance - {a};
    }

    method CleanupEach(env: Env, role: Role, a: Hash, children: seq<Hash>, cleanups: seq<Behaviour>) returns (exit: Exit)
      modifies this
      ensures Ends(CleanAll(env, old(State()), role, a, children, cleanups), exit)
      decreases cleanups, 1
    {
      hide Cleanup;
      for i := 0 to |children|
        invariant i <= |cleanups|
        invariant CleanAll(env, old(State()), role, a, children, cleanups)
               == CleanAll(env, State(), role, a, children[i..], cleanups[i..])
      {
        if i == |cleanups| { return Aborted(Foreign); }
        assert children[i..][1..] == children[i + 1..] && cleanups[i..][1..] == cleanups[i + 1..];
        exit := CleanupDependency(env, role, a, children[i], cleanups[i]);
        if !exit.Done? { return; }
      }
      return Done;
    }

    // -------------------------------------------------------------------------
    // Escape
    // -------------------------------------------------------------------------

    method BeginEscape(env: Env, who: Caller, call: Call) returns (exit: Exit)
      requires call.InitiateEscape?
      modifies this
      ensures Ends(DoInitiateEscape(env, who, old(State()), call), exit)
    {
      hide Apply, Emit;
      var a := call.a;
      if !Configurable(State(), who, a) { return Aborted(Refused); }
      if a in escapes && header.time < escapes[a] + ESCAPE_COOLDOWN_MS { return Aborted(Refused); }
      StoreEscape(a, header.time);
      return Done;
    }

    method CompleteEscape(env: Env, who: Caller, call: Call) returns (exit: Exit)
      requires call.FinalizeEscape?
      modifies this
      ensures Ends(DoFinalizeEscape(env, who, old(State()), call), exit)
      decreases call, 7
    {
      hide SetUp, CleanRoot, Apply, Emit;
      var (a, now) := (call.a, header.time);
      if a !in accounts || !Idle(State(), a) || Escrowed(Stored(), a) { return Aborted(Refused); }
      var state := accounts[a];
      if state.escapeAt == 0 || now < state.escapeAt + state.escapeTimelock * 1000 { return Aborted(Refused); }
      if state.owner !in who.witnesses { return Aborted(Refused); }
      if call.verifier != 0 {
        exit := Answered(call.probe);
        if !exit.Done? { return; }
      }
      var since := |log|;
      exit := ClearRoot(env, Verifier, a, state.verifier, call.verifierCleanup);
      if !exit.Done? { return; }
      exit := ClearRoot(env, Hook, a, state.hook, call.hookCleanup);
      if !exit.Done? { return; }
      StoreRecovered(a, state, call.verifier, since, now);
      exit := ConfigureVerifier(env, a, call.verifier, call.params, call.setup);
      if !exit.Done? { return; }
      DeletePending(a);
      return Done;
    }

    // -------------------------------------------------------------------------
    // Market escrow
    // -------------------------------------------------------------------------

    method EnterMarketEscrow(env: Env, who: Caller, call: Call) returns (exit: Exit)
      requires call.EnterEscrow?
      modifies this
      ensures Ends(DoEnterEscrow(env, who, old(State()), call), exit)
    {
      hide Apply, Emit;
      if !Configurable(State(), who, call.a) { return Aborted(Refused); }
      if call.market == 0 || call.listing <= 0 || who.script != call.market { return Aborted(Refused); }
      StoreEscrow(call.a, call.market, call.listing);
      return Done;
    }

    /** The only place where the wallet itself catches a throw. */
    method NotifyMarketListingAbandoned(env: Env, market: Hash, listing: int, notified: Option<Behaviour>) returns (exit: Exit)
      modifies this
      ensures Ends(Notify(env, old(State()), market, listing, notified), exit)
      decreases notified, 5
    {
      exit := Done;
      if market != 0 && listing > 0 && notified.Some? {
        exit := CallContract(env, notified.value);
        if exit.Thrown? { exit := Done; }
      }
    }

    method CancelMarketEscrow(env: Env, who: Caller, call: Call) returns (exit: Exit)
      requires call.CancelEscrow?
      modifies this
      ensures Ends(DoCancelEscrow(env, who, old(State()), call), exit)
      decreases call, 7
    {
      hide Notify, Apply, Emit;
      var a := call.a;
      if !ByMarket(Stored(), who, a, call.listing) || !Idle(State(), a) { return Aborted(Refused); }
      var market := Get(markets, a, 0);
      ClearMarketEscrow(a, EscrowCancelled(a));
      exit := NotifyMarketListingAbandoned(env, market, call.listing, call.notified);
    }

    method SettleMarketEscrow(env: Env, who: Caller, call: Call) returns (exit: Exit)
      requires call.SettleEscrow?
      modifies this
      ensures Ends(DoSettleEscrow(env, who, old(State()), call), exit)
      decreases call, 7
    {
      hide CleanRoot, Apply, Emit;
      var a := call.a;
      if !ByMarket(Stored(), who, a, call.listing) || !Idle(State(), a) || call.owner == 0 || a !in accounts {
        return Aborted(Refused);
      }
      var state := accounts[a];
      var since := |log|;
      exit := ClearRoot(env, Verifier, a, state.verifier, call.verifierCleanup);
      if !exit.Done? { return; }
      exit := ClearRoot(env, Hook, a, state.hook, call.hookCleanup);
      if !exit.Done? { return; }
      StoreSettled(a, state, call.owner, since);
      return Done;
    }

    method InitiateMarketEscrowCancel(env: Env, who: Caller, call: Call) returns (exit: Exit)
      requires call.InitiateReclaim?
      modifies this
      ensures Ends(DoInitiateReclaim(env, who, old(State()), call), exit)
    {
      hide Idle, Apply;
      ReclaimFields(Stored(), call.a, header.time);
      if !ByOwner(Stored(), who, call.a) || !Idle(State(), call.a) || !Escrowed(Stored(), call.a) { return Aborted(Refused); }
      reclaims := reclaims[call.a := header.time];
      log := log + [ReclaimInitiated(call.a, header.time)];
      return Done;
    }

    method ForceCancelMarketEscrow(env: Env, who: Caller, call: Call) returns (exit: Exit)
      requires call.Reclaim?
      modifies this
      ensures Ends(DoReclaim(env, who, old(State()), call), exit)
      decreases call, 7
    {
      hide Notify, Apply, Emit;
      var a := call.a;
      if !ByOwner(Stored(), who, a) || !Idle(State(), a) || !Escrowed(Stored(), a) { return Aborted(Refused); }
      if a !in reclaims || header.time < reclaims[a] + RECLAIM_TIMELOCK_MS { return Aborted(Refused); }
      var market, listing := Get(markets, a, 0), Get(listings, a, 0);
      ClearMarketEscrow(a, EscrowReclaimed(a, header.time));
      exit := NotifyMarketListingAbandoned(env, market, listing, call.notified);
    }

    // -------------------------------------------------------------------------
    // Execution
    // -------------------------------------------------------------------------

    method ConsumeNonce(a: Hash, nonce: nat) returns (exit: Exit)
      modifies this
      ensures var w := old(State());
              if NonceAcceptable(w.book, a, nonce)
              then exit == Done && State() == Emit(w, NonceConsumed(a, Channel(nonce), Sequence(nonce)))
              else exit == Aborted(Refused)
    {
      var (channel, sequence) := (Channel(nonce), Sequence(nonce));
      var current := Get(nonces, (a, channel), 0);
      if sequence != current { return Aborted(Refused); }
      StoreNonce(a, channel, current);
      return Done;
    }

    method ExecuteUserOp(env: Env, who: Caller, a: Hash, plan: Plan) returns (exit: Exit)
      modifies this
      ensures Ends(Machine.ExecuteUserOp(env, who, old(State()), a, plan), exit)
      decreases plan, 8
    {
      hide Validate, Apply, Emit;
      if a == 0 || Locked(State(), a) || !ValidOperation(plan.op) || a !in accounts || Escrowed(Stored(), a) {
        return Aborted(Refused);
      }
      var state := accounts[a];
      SetContext(Lock, a, a);
      if state.verifier != 0 { SetContext(Executing(Verifier), a, state.verifier); }
      exit := ValidateAndCall(env, who, a, state, plan);
      if state.verifier != 0 { exit := Finally(Executing(Verifier), a, exit); }
      exit := Finally(Lock, a, exit);
    }

    /** Steps 1 to 4: deadline, nonce, authorization, escape defence, and the nonce is consumed. */
    method AdmitOperation(env: Env, who: Caller, a: Hash, state: Account, plan: Plan) returns (exit: Exit)
      requires ValidOperation(plan.op) && a in accounts && accounts[a] == state
      modifies this
      ensures Ends(Admit(env, who, old(State()), a, state, plan), exit)
    {
      hide Apply, Emit;
      var nonce := plan.op.nonce;
      if header.time > plan.op.deadline || !NonceAcceptable(Stored(), a, nonce) { return Aborted(Refused); }
      if state.verifier != 0 {
        exit := Answered(plan.verdict);
        if !exit.Done? { return; }
      } else if state.owner == 0 || state.owner !in who.witnesses {
        return Aborted(Refused);
      }
      if state.escapeAt > 0 {
        if state.owner == 0 || state.owner !in who.witnesses { return Aborted(Refused); }
        StoreEscapeCancelled(a, state);
      }
      exit := ConsumeNonce(a, nonce);
    }

    /** The body of the outer `try`. */
    method ValidateAndCall(env: Env, who: Caller, a: Hash, state: Account, plan: Plan) returns (exit: Exit)
      requires ValidOperation(plan.op) && a in accounts && accounts[a] == state
      modifies this
      ensures Ends(Validate(env, who, old(State()), a, state, plan), exit)
      decreases plan, 7
    {
      hide Admit, InTarget, Hooked;
      exit := AdmitOperation(env, who, a, state, plan);
      if !exit.Done? { return; }
      if state.hook == 0 {
        exit := CallTarget(env, a, state, plan);
      } else {
        exit := CallWithHook(env, a, state, plan);
      }
    }

    /** The pre-execution hook: its key is cleared in the `catch`, or after the target phase. */
    method CallWithHook(env: Env, a: Hash, state: Account, plan: Plan) returns (exit: Exit)
      modifies this
      ensures Ends(Hooked(env, old(State()), a, state, plan), exit)
      decreases plan, 6
    {
      hide InTarget, External;
      SetContext(Executing(Hook), a, state.hook);
      exit := CallContract(env, plan.pre);
      if exit.Thrown? { exit := Finally(Executing(Hook), a, exit); return; }
      if exit.Aborted? { return; }
      exit := CallTarget(env, a, state, plan);
      exit := Finally(Executing(Hook), a, exit);
    }

    /** The body of the inner `try` and the first half of its `finally`. */
    method CallTarget(env: Env, a: Hash, state: Account, plan: Plan) returns (exit: Exit)
      modifies this
      ensures Ends(InTarget(env, old(State()), a, state, plan), exit)
      decreases plan, 5
    {
      hide External;
      SetContext(Target, a, plan.op.target);
      exit := CallContract(env, plan.body);
      if exit.Done? { ShowReturn(plan.op); }
      if exit.Done? && state.hook != 0 { exit := CallContract(env, plan.postHook); }
      if exit.Done? && state.verifier != 0 { exit := CallContract(env, plan.postVerifier); }
      exit := Finally(Target, a, exit);
    }

    method ExecuteUserOps(env: Env, who: Caller, a: Hash, plans: seq<Plan>) returns (exit: Exit)
      modifies this
      ensures Ends(Machine.ExecuteUserOps(env, who, old(State()), a, plans), exit)
      decreases plans, 2
    {
      hide Machine.ExecuteUserOp;
      if a == 0 || |plans| == 0 || |plans| > MAX_BATCH { return Aborted(Refused); }
      for i := 0 to |plans|
        invariant ExecuteEach(env, who, old(State()), a, plans) == ExecuteEach(env, who, State(), a, plans[i..])
      {
        assert plans[i..][1..] == plans[i + 1..];
        exit := ExecuteUserOp(env, who, a, plans[i]);
        if !exit.Done? { return; }
      }
      return Done;
    }

    // -------------------------------------------------------------------------
    // Sponsored execution
    // -------------------------------------------------------------------------

    method CapReimbursementToActualCost(requested: nat) returns (exit: Exit)
      modifies this
      ensures Ends(Reserve(old(State()), requested), exit)
    {
      hide Apply;
      var record := if budget.Some? then budget.value else Budget(0, 0);
      if budget.None? || record.tx != header.tx { record := Budget(header.tx, 0); }
      var estimationFlag := 1 - Min(header.cost, 1);
      var cap := Max(header.cost - record.reserved, 0) + estimationFlag * requested;
      var settled := Min(requested, cap);
      if settled <= 0 || record.reserved > VM_MAX - settled { return Aborted(Refused); }
      ReservedFields(Stored(), header.tx, header.cost, requested, settled);
      record := record.(reserved := record.reserved + settled);
      budget := Some(record);
      log := log + [Reserved(header.tx, header.cost, requested, settled)];
      return Done;
    }

    /** ExecuteSponsoredUserOp and ExecuteSponsoredUserOps. */
    method ExecuteSponsored(env: Env, who: Caller, call: Call) returns (exit: Exit)
      requires call.Sponsor?
      modifies this
      ensures Ends(DoSponsor(env, who, old(State()), call), exit)
      decreases call, 7
    {
      hide Reserve, Machine.ExecuteUserOps, Machine.ExecuteUserOp, External, Apply, Emit;
      if !ValidSponsorship(call) { return Aborted(Refused); }
      exit := CapReimbursementToActualCost(call.amount);
      if !exit.Done? { return; }
      match call.core
      case Raises => return Thrown;
      case Aborts => return Aborted(Foreign);
      case Answer(core) =>
        if core != env.self { return Aborted(Refused); }
        if call.batch {
          exit := ExecuteUserOps(env, who, call.a, call.plans);
        } else {
          exit := ExecuteUserOp(env, who, call.a, call.plans[0]);
        }
        if !exit.Done? { return; }
        exit := CallContract(env, call.settlement);
    }

    // -------------------------------------------------------------------------
    // Transactions
    // -------------------------------------------------------------------------

    /** A transaction that does not end normally is rolled back. */
    method Transact(t: Transaction)
      modifies this
      ensures State() == Machine.Transact(old(State()), t)
    {
      var before := State();
      header := t.header;
      var exit := Perform(t.env, t.script);
      if !exit.Done? { Restore(before); }
    }
  }

  /** Any sequence of transactions on a fresh wallet leaves it at rest and in the state its log replays to. */
  method Run(txs: seq<Transaction>) returns (wallet: UnifiedSmartWallet)
    ensures fresh(wallet) && wallet.State() == History(txs)
    ensures Guarantee.Inv(wallet.State()) && Runs.Resting(wallet.State())
  {
    wallet := new UnifiedSmartWallet();
    for i := 0 to |txs|
      invariant fresh(wallet) && wallet.State() == History(txs[..i])
    {
      assert txs[..i + 1][..i] == txs[..i] && txs[..i + 1][i] == txs[i];
      wallet.Transact(txs[i]);
    }
    assert txs[..|txs|] == txs;
    Runs.HistoriesAreLegal(txs);
  }
}
