/**
 The reentrant wallet as a function over finite callback trees.

 An external contract is a `Behaviour`: the wallet entry points it calls, in order, and how it
 ends.  Every entry point that calls out carries the behaviour of its callee, so a `Behaviour` is
 a finite tree of arbitrary depth, and a statement about all trees is a statement about every
 way untrusted code can reenter the wallet.

 An assertion failure aborts the transaction and needs no cleanup, because everything is rolled
 back.  A throw unwinds through the entry points' `finally` blocks; whether it also drops the
 writes of the contract it leaves is a parameter of the environment; the guarantee of module
 Soundness holds for both answers.  Read-only calls cannot write and are given by their reply.
 */
module Machine {
  import opened Bytes
  import opened Values
  import opened Records

  // ---------------------------------------------------------------------------
  // Execution state
  // ---------------------------------------------------------------------------

  /** The six kinds of per-account context key. */
  datatype Slot = Lock | Target | Config(role: Role) | Executing(role: Role)

  type Contexts = map<(Slot, Hash), Hash>

  /** Identity and total fee (system plus network) of the running transaction, and the time of its block. */
  datatype Header = Header(tx: nat, cost: nat, time: nat)

  /**
   What foreign code can see of the wallet while it is in control, how long the log was, and whether
   what it does then is kept or has been rolled back since.  `returned` is the operation whose target
   has just returned to the wallet, if this is such a moment.
   */
  datatype View = View(book: Book, contexts: Contexts, depth: nat, at: nat, kept: bool, returned: Option<UserOperation>)

  /**
   `maintenance` holds the accounts whose dependency-maintenance lock is taken.  `views` records the
   state at every moment at which foreign code takes or regains control; it is no storage, so a rollback
   only marks it.
   */
  datatype World = World(
    book: Book, contexts: Contexts, depth: nat, maintenance: set<Hash>, log: seq<Event>, header: Header, views: seq<View>)

  const GENESIS: World := World(EMPTY_BOOK, map[], 0, {}, [], Header(0, 0, 0), [])

  datatype Fault = Refused | Underflow | Foreign

  datatype Exit = Done | Thrown | Aborted(fault: Fault)

  datatype Outcome = Outcome(world: World, exit: Exit) {
    predicate IsFailure() { !exit.Done? }
    function PropagateFailure(): Outcome { this }
    function Extract(): World { world }
  }

  /** This contract and the platform registrar. */
  datatype Env = Env(self: Hash, registrar: Hash, throwDropsWrites: bool)

  /** The calling contract and the hashes whose witness check succeeds. */
  datatype Caller = Caller(script: Hash, witnesses: set<Hash>)

  datatype Reply<+T> = Answer(value: T) | Raises | Aborts

  /** `first` is the account or contract that the first argument names, if it names one. */
  datatype UserOperation = UserOperation(
    target: Hash, name: string, argCount: nat, argBytes: nat, nonce: int, deadline: int, signatureBytes: nat, first: Option<Hash>)

  /** An operation with what its callees do: the verdict is read-only, the others may reenter. */
  datatype Plan = Plan(
    op: UserOperation, verdict: Reply<bool>,
    pre: Behaviour, body: Behaviour, postHook: Behaviour, postVerifier: Behaviour)

  datatype Topology = Topology(children: seq<Hash>, threshold: int)

  datatype Behaviour =
    | Return
    | Throw
    | Abort
    | Invoke(who: Caller, call: Call, caught: bool, rest: Behaviour)

  /** The entry points with their arguments, the replies of the module queries they make, and their callees. */
  datatype Call =
    | Register(a: Hash, verifier: Hash, params: seq<Byte>, hook: Hash, owner: Hash, timelock: nat,
               expected: Hash, verifierProbe: Reply<bool>, hookProbe: Reply<bool>, setup: Behaviour)
    | RegisterPlatform(a: Hash, binding: seq<Byte>, owner: Hash, timelock: nat, expected: Hash)
    | RotateOwner(a: Hash, binding: seq<Byte>, owner: Hash)
    | UpdateModule(role: Role, a: Hash, module_: Hash, params: seq<Byte>, probe: Reply<bool>, setup: Behaviour)
    | ConfirmModule(role: Role, a: Hash, probe: Reply<bool>, cleanup: Behaviour, setup: Behaviour)
    | CancelModule(role: Role, a: Hash)
    | CallModule(role: Role, a: Hash, name: string, args: seq<Argument>,
                 legacy: Reply<seq<Hash>>, cleanable: set<Hash>, body: Behaviour)
    | CallChild(role: Role, a: Hash, child: Hash, name: string, args: seq<Argument>,
                rootProbe: Reply<bool>, topology: Reply<Topology>, childProbe: Reply<bool>, abiOk: bool, body: Behaviour)
    | SetDependencies(role: Role, a: Hash, children: seq<Hash>, cleanable: set<Hash>, cleanups: seq<Behaviour>)
    | ClearDependencies(role: Role, a: Hash, legacy: Reply<seq<Hash>>, cleanable: set<Hash>, cleanups: seq<Behaviour>)
    | InitiateEscape(a: Hash)
    | FinalizeEscape(a: Hash, verifier: Hash, params: seq<Byte>, probe: Reply<bool>,
                     verifierCleanup: Behaviour, hookCleanup: Behaviour, setup: Behaviour)
    | EnterEscrow(a: Hash, market: Hash, listing: int)
    | CancelEscrow(a: Hash, listing: int, notified: Option<Behaviour>)
    | SettleEscrow(a: Hash, listing: int, owner: Hash, verifierCleanup: Behaviour, hookCleanup: Behaviour)
    | InitiateReclaim(a: Hash)
    | Reclaim(a: Hash, notified: Option<Behaviour>)
    | Execute(a: Hash, plan: Plan)
    | ExecuteBatch(a: Hash, plans: seq<Plan>)
    | Sponsor(a: Hash, batch: bool, plans: seq<Plan>, paymaster: Hash, sponsor: Hash, amount: int,
              core: Reply<Hash>, settlement: Behaviour)

  // ---------------------------------------------------------------------------
  // Primitive steps
  // ---------------------------------------------------------------------------

  function Finish(w: World): Outcome {
    Outcome(w, Done)
  }

  function Refuse(w: World): Outcome {
    Outcome(w, Aborted(Refused))
  }

  function Need(w: World, condition: bool): Outcome {
    if condition then Finish(w) else Refuse(w)
  }

  /** A query whose true answer is asserted. */
  function Ask(w: World, reply: Reply<bool>): Outcome {
    match reply
    case Answer(ok) => Need(w, ok)
    case Raises => Outcome(w, Thrown)
    case Aborts => Outcome(w, Aborted(Foreign))
  }

  function Emit(w: World, e: Event): World {
    w.(book := Apply(w.book, e), log := w.log + [e])
  }

  /** Foreign code has control. */
  function Look(w: World): World {
    w.(views := w.views + [View(w.book, w.contexts, w.depth, |w.log|, true, None)])
  }

  /** The target of an operation has returned. */
  function Regain(w: World, op: UserOperation): World {
    w.(views := w.views + [View(w.book, w.contexts, w.depth, |w.log|, true, Some(op))])
  }

  /** The views from position `n` on, marked as rolled back. */
  function Drop(views: seq<View>, n: nat): (r: seq<View>)
    ensures |r| == |views|
    ensures forall k | 0 <= k < |r| :: r[k] == if k < n then views[k] else views[k].(kept := false)
  {
    seq(|views|, k requires 0 <= k < |views| => if k < n then views[k] else views[k].(kept := false))
  }

  /** The writes made between `w` and `v` are dropped. */
  function Undo(w: World, v: World): World {
    w.(views := Drop(v.views, |w.views|))
  }

  function SetContext(w: World, slot: Slot, a: Hash, h: Hash): World {
    w.(contexts := w.contexts[(slot, a) := h], depth := w.depth + 1)
  }

  function ClearContext(w: World, slot: Slot, a: Hash): Outcome {
    var cleared := w.(contexts := w.contexts - {(slot, a)});
    if w.depth == 0 then Outcome(cleared, Aborted(Underflow)) else Finish(cleared.(depth := w.depth - 1))
  }

  /** A `finally` block that clears one context. */
  function Finally(o: Outcome, slot: Slot, a: Hash): Outcome {
    if o.exit.Aborted? then o
    else
      var c := ClearContext(o.world, slot, a);
      if c.exit.Aborted? then c else Outcome(c.world, o.exit)
  }

  predicate Locked(w: World, a: Hash) {
    (Lock, a) in w.contexts
  }

  /** AssertAccountConfigurationIdle. */
  predicate Idle(w: World, a: Hash) {
    && w.depth == 0
    && !Locked(w, a)
    && (Target, a) !in w.contexts
    && (Config(Verifier), a) !in w.contexts
    && (Config(Hook), a) !in w.contexts
    && (Executing(Verifier), a) !in w.contexts
    && (Executing(Hook), a) !in w.contexts
  }

  /** AssertBackupOwner. */
  predicate ByOwner(b: Book, who: Caller, a: Hash) {
    a in b.accounts && b.accounts[a].owner != 0 && b.accounts[a].owner in who.witnesses
  }

  /** The three guards that open most configuration entry points. */
  predicate Configurable(w: World, who: Caller, a: Hash) {
    ByOwner(w.book, who, a) && Idle(w, a) && !Escrowed(w.book, a)
  }

  // ---------------------------------------------------------------------------
  // External calls
  // ---------------------------------------------------------------------------

  /** A contract's execution: its reentrant calls in order, each throw caught or passed on. */
  function Perform(env: Env, w: World, b: Behaviour): Outcome
    decreases b, 0
  {
    match b
    case Return => Finish(Look(w))
    case Throw => Outcome(Look(w), Thrown)
    case Abort => Outcome(Look(w), Aborted(Foreign))
    case Invoke(who, call, caught, rest) =>
      var o := Enter(env, who, Look(w), call);
      if o.exit.Done? || (o.exit.Thrown? && caught) then Perform(env, o.world, rest) else o
  }

  /** Contract.Call with all flags. */
  function External(env: Env, w: World, b: Behaviour): Outcome
    decreases b, 1
  {
    var o := Perform(env, w, b);
    if o.exit.Thrown? && env.throwDropsWrites then Outcome(Undo(w, o.world), Thrown) else o
  }

  /** A call made under a context key that a `finally` block clears. */
  function Within(env: Env, w: World, slot: Slot, a: Hash, m: Hash, b: Behaviour): Outcome
    decreases b, 2
  {
    Finally(External(env, SetContext(w, slot, a, m), b), slot, a)
  }

  /** `clearAccount` on a module under its own configuration context. */
  function Cleanup(env: Env, w: World, role: Role, a: Hash, m: Hash, b: Behaviour): Outcome
    decreases b, 3
  {
    var w1 :- Within(env, w, Config(role), a, m, b);
    Finish(Emit(w1, Cleaned(role, a, m, |w.views|)))
  }

  function CleanRoot(env: Env, w: World, role: Role, a: Hash, m: Hash, b: Behaviour): Outcome
    decreases b, 4
  {
    if m == 0 then Finish(w) else Cleanup(env, w, role, a, m, b)
  }

  /** `setPublicKey` on a newly installed verifier, when there are parameters. */
  function SetUp(env: Env, w: World, a: Hash, verifier: Hash, params: seq<Byte>, b: Behaviour): Outcome
    decreases b, 4
  {
    if verifier == 0 || params == [] then Finish(w) else Within(env, w, Config(Verifier), a, verifier, b)
  }

  /** A wallet entry point called by a contract. */
  function Enter(env: Env, who: Caller, w: World, call: Call): Outcome
    decreases call, 9
  {
    var o := Dispatch(env, who, w, call);
    if o.exit.Thrown? && env.throwDropsWrites then Outcome(Undo(w, o.world), Thrown) else o
  }

  function Dispatch(env: Env, who: Caller, w: World, call: Call): Outcome
    decreases call, 8
  {
    match call
    case Register(_, _, _, _, _, _, _, _, _, _) => DoRegister(env, who, w, call)
    case RegisterPlatform(_, _, _, _, _) => DoRegisterPlatform(env, who, w, call)
    case RotateOwner(_, _, _) => DoRotateOwner(env, who, w, call)
    case UpdateModule(_, _, _, _, _, _) => DoUpdateModule(env, who, w, call)
    case ConfirmModule(_, _, _, _, _) => DoConfirmModule(env, who, w, call)
    case CancelModule(_, _) => DoCancelModule(env, who, w, call)
    case CallModule(_, _, _, _, _, _, _) => DoCallModule(env, who, w, call)
    case CallChild(_, _, _, _, _, _, _, _, _, _) => DoCallChild(env, who, w, call)
    case SetDependencies(_, _, _, _, _) => DoSetDependencies(env, who, w, call)
    case ClearDependencies(_, _, _, _, _) => DoClearDependencies(env, who, w, call)
    case InitiateEscape(_) => DoInitiateEscape(env, who, w, call)
    case FinalizeEscape(_, _, _, _, _, _, _) => DoFinalizeEscape(env, who, w, call)
    case EnterEscrow(_, _, _) => DoEnterEscrow(env, who, w, call)
    case CancelEscrow(_, _, _) => DoCancelEscrow(env, who, w, call)
    case SettleEscrow(_, _, _, _, _) => DoSettleEscrow(env, who, w, call)
    case InitiateReclaim(_) => DoInitiateReclaim(env, who, w, call)
    case Reclaim(_, _) => DoReclaim(env, who, w, call)
    case Execute(a, plan) => ExecuteUserOp(env, who, w, a, plan)
    case ExecuteBatch(a, plans) => ExecuteUserOps(env, who, w, a, plans)
    case Sponsor(_, _, _, _, _, _, _, _) => DoSponsor(env, who, w, call)
  }

  // ---------------------------------------------------------------------------
  // Registration and ownership
  // ---------------------------------------------------------------------------

  predicate ValidRegistration(w: World, a: Hash, owner: Hash, timelock: nat, expected: Hash) {
    && a != 0 && owner != 0 && Idle(w, a)
    && MIN_ESCAPE_TIMELOCK_S <= timelock <= MAX_ESCAPE_TIMELOCK_S
    && a == expected
  }

  function DoRegister(env: Env, who: Caller, w: World, call: Call): Outcome
    requires call.Register?
    decreases call, 7
  {
    var a := call.a;
    var w0 :- Need(w, ValidRegistration(w, a, call.owner, call.timelock, call.expected) && call.owner in who.witnesses);
    var w1 :- if call.verifier != 0 then Ask(w0, call.verifierProbe) else Finish(w0);
    var w2 :- if call.hook != 0 then Ask(w1, call.hookProbe) else Finish(w1);
    var w3 :- Need(w2, a !in w2.book.accounts);
    var w4 := Emit(w3, Registered(a, Account(call.verifier, call.hook, call.owner, call.timelock, 0), []));
    SetUp(env, w4, a, call.verifier, call.params, call.setup)
  }

  predicate ValidBinding(binding: seq<Byte>) {
    0 < |binding| <= 128
  }

  function DoRegisterPlatform(env: Env, who: Caller, w: World, call: Call): Outcome
    requires call.RegisterPlatform?
  {
    var a := call.a;
    var w0 :- Need(w, env.registrar != 0 && who.script == env.registrar && ValidBinding(call.binding)
                     && ValidRegistration(w, a, call.owner, call.timelock, call.expected) && a !in w.book.accounts);
    Finish(Emit(w0, Registered(a, Account(0, 0, call.owner, call.timelock, 0), call.binding)))
  }

  function DoRotateOwner(env: Env, who: Caller, w: World, call: Call): Outcome
    requires call.RotateOwner?
  {
    var a := call.a;
    var w0 :- Need(w, env.registrar != 0 && who.script == env.registrar && ValidBinding(call.binding)
                     && call.owner != 0 && Idle(w, a)
                     && a in w.book.bindings && w.book.bindings[a] == call.binding && !Escrowed(w.book, a)
                     && a in w.book.accounts && w.book.accounts[a].escapeAt == 0 && w.book.accounts[a].owner != call.owner);
    Finish(Emit(w0, OwnerRotated(a, call.owner)))
  }

  // ---------------------------------------------------------------------------
  // Module rotation
  // ---------------------------------------------------------------------------

  /** UpdateVerifier and UpdateHook; the hook form probes the new module before it looks at the old one. */
  function DoUpdateModule(env: Env, who: Caller, w: World, call: Call): Outcome
    requires call.UpdateModule?
    decreases call, 7
  {
    var (role, a, m) := (call.role, call.a, call.module_);
    var w0 :- Need(w, Configurable(w, who, a));
    var w1 :- if role.Hook? && m != 0 then Ask(w0, call.probe) else Finish(w0);
    if Pointer(w1.book.accounts[a], role) == 0 then
      var w2 :- if role.Verifier? && m != 0 then Ask(w1, call.probe) else Finish(w1);
      var w3 := Emit(w2, Installed(role, a, m));
      if role.Verifier? then SetUp(env, w3, a, m, call.params, call.setup) else Finish(w3)
    else
      var w2 :- Need(w1, (role, a) !in w1.book.updates);
      Finish(Emit(w2, UpdateRequested(role, a, m, if role.Verifier? then call.params else [], w.header.time)))
  }

  /** ConfirmVerifierUpdate and ConfirmHookUpdate: the record is loaded before the cleanup and stored after it. */
  function DoConfirmModule(env: Env, who: Caller, w: World, call: Call): Outcome
    requires call.ConfirmModule?
    decreases call, 7
  {
    var (role, a) := (call.role, call.a);
    var w0 :- Need(w, Configurable(w, who, a) && (role, a) in w.book.updates
                     && w.header.time >= w.book.updates[(role, a)].since + CONFIG_TIMELOCK_MS);
    var pending := w0.book.updates[(role, a)];
    var w1 :- if pending.module_ != 0 then Ask(w0, call.probe) else Finish(w0);
    var record := w1.book.accounts[a];
    var w2 :- CleanRoot(env, w1, role, a, Pointer(record, role), call.cleanup);
    var w3 := Emit(w2, UpdateConfirmed(role, a, record, pending.module_, |w.log|, w.header.time));
    var w4 :- if role.Verifier? then SetUp(env, w3, a, pending.module_, pending.params, call.setup) else Finish(w3);
    Finish(Emit(w4, UpdateDropped(role, a)))
  }

  /** CancelVerifierUpdate and CancelHookUpdate. */
  function DoCancelModule(env: Env, who: Caller, w: World, call: Call): Outcome
    requires call.CancelModule?
  {
    var w0 :- Need(w, ByOwner(w.book, who, call.a) && Idle(w, call.a));
    Finish(Emit(w0, UpdateDropped(call.role, call.a)))
  }

  // ---------------------------------------------------------------------------
  // Staged maintenance calls
  // ---------------------------------------------------------------------------

  const VERIFIER_METHODS: set<string> :=
    {"clearAccount", "setSessionKey", "clearSessionKey", "setConfig", "createSubscription", "setDKIMRegistry"}
  const HOOK_METHODS: set<string> :=
    {"setDailyLimit", "setWhitelist", "setRestrictedToken", "requireCredentialCommitmentForContract",
     "setRegistry", "setHooks", "setConfig", "clearAccount"}

  function AllowedMethods(role: Role): set<string> {
    if role.Verifier? then VERIFIER_METHODS else HOOK_METHODS
  }

  /** TryConfirmPendingModuleCall: the flag says whether the call is confirmed rather than staged. */
  function TryConfirm(env: Env, w: World, role: Role, a: Hash, m: Hash, name: string, args: seq<Argument>): (Outcome, bool) {
    var digest := Sha256(name, args);
    if (role, a) !in w.book.calls || w.book.calls[(role, a)].module_ != m || w.book.calls[(role, a)].digest != digest then
      (Finish(Emit(w, CallStaged(role, a, m, digest, w.header.time))), false)
    else if w.header.time < w.book.calls[(role, a)].since + CONFIG_TIMELOCK_MS then
      (Refuse(w), false)
    else
      (Finish(Emit(w, CallConfirmed(role, a, m, digest, w.header.time))), true)
  }

  predicate ValidChildren(env: Env, children: seq<Hash>, root: Hash, cleanable: set<Hash>) {
    && |children| <= MAX_DEPENDENCIES
    && Distinct(children)
    && forall c | c in children :: c != 0 && c != root && c != env.self && c in cleanable
  }

  /** EnsureLegacyDependencies: adopts the roster that the root module reports when none is stored. */
  function AdoptLegacy(env: Env, w: World, role: Role, a: Hash, root: Hash, legacy: Reply<seq<Hash>>, cleanable: set<Hash>): Outcome {
    if (role, a) in w.book.rosters then Finish(w)
    else
      var w0 :- Need(w, a !in w.maintenance);
      match legacy
      case Raises => Outcome(w0, Thrown)
      case Aborts => Outcome(w0, Aborted(Foreign))
      case Answer(children) =>
        if children == [] then Finish(w0)
        else
          var w1 :- Need(w0, ValidChildren(env, children, root, cleanable));
          Finish(Emit(w1, RosterSet(role, a, children, |w.log|)))
  }

  /** CallVerifier and CallHook. */
  function DoCallModule(env: Env, who: Caller, w: World, call: Call): Outcome
    requires call.CallModule?
    decreases call, 7
  {
    var (role, a) := (call.role, call.a);
    var w0 :- Need(w, call.name in AllowedMethods(role) && Configurable(w, who, a) && Pointer(w.book.accounts[a], role) != 0);
    var root := Pointer(w0.book.accounts[a], role);
    var w1 :- if call.name == (if role.Verifier? then "setConfig" else "setHooks")
              then AdoptLegacy(env, w0, role, a, root, call.legacy, call.cleanable) else Finish(w0);
    var (o, confirmed) := TryConfirm(env, w1, role, a, root, call.name, call.args);
    if !confirmed then o else Within(env, o.world, Config(role), a, root, call.body)
  }

  function ChildCallName(role: Role): string {
    if role.Verifier? then "callVerifierChild" else "callHookChild"
  }

  /** Number of arguments of a child configuration method, 0 for a method that is not allowed. */
  function ChildArity(role: Role, name: string): nat {
    if role.Verifier? then
      (if name == "setPublicKey" then 2 else if name == "setConfig" then 3 else if name == "setSessionKey" then 7 else 0)
    else
      (if name == "setWhitelist" then 3 else if name == "setDailyLimit" then 4 else if name == "setRestrictedToken" then 3
       else if name == "requireCredentialCommitmentForContract" then 5 else 0)
  }

  predicate ValidTopology(role: Role, t: Topology, root: Hash, child: Hash) {
    && 0 < |t.children| <= (if role.Verifier? then 10 else 8)
    && (role.Verifier? ==> 0 < t.threshold <= |t.children|)
    && Distinct(t.children)
    && (forall c | c in t.children :: c != 0 && c != root)
    && child in t.children
  }

  predicate ValidChildCall(role: Role, a: Hash, name: string, args: seq<Argument>, abiOk: bool) {
    && ChildArity(role, name) > 0 && |args| == ChildArity(role, name)
    && args[0] == ScriptHash(a) && abiOk
  }

  /** The arguments under which a child call is staged: they bind the whole roster. */
  function ChildArguments(role: Role, child: Hash, name: string, args: seq<Argument>, t: Topology): seq<Argument> {
    [ScriptHash(child), Name(name), Arguments(args), TopologyHash(t.children, if role.Verifier? then t.threshold else 0)]
  }

  /** CallVerifierChild and CallHookChild. */
  function DoCallChild(env: Env, who: Caller, w: World, call: Call): Outcome
    requires call.CallChild?
    decreases call, 7
  {
    var (role, a, child) := (call.role, call.a, call.child);
    var w0 :- Need(w, Configurable(w, who, a) && Pointer(w.book.accounts[a], role) != 0
                     && child != 0 && child != Pointer(w.book.accounts[a], role));
    var root := Pointer(w0.book.accounts[a], role);
    var w1 :- Ask(w0, call.rootProbe);
    match call.topology
    case Raises => Outcome(w1, Thrown)
    case Aborts => Outcome(w1, Aborted(Foreign))
    case Answer(t) =>
      var w2 :- Need(w1, ValidTopology(role, t, root, child));
      var w3 :- Ask(w2, call.childProbe);
      var w4 :- Need(w3, ValidChildCall(role, a, call.name, call.args, call.abiOk));
      var (o, confirmed) := TryConfirm(env, w4, role, a, root, ChildCallName(role), ChildArguments(role, child, call.name, call.args, t));
      if !confirmed then o else Within(env, o.world, Config(role), a, child, call.body)
  }

  // ---------------------------------------------------------------------------
  // Dependency rosters
  // ---------------------------------------------------------------------------

  /** The root module maintains its roster either from outside or from within its own cleanup context. */
  predicate InRootContext(w: World, role: Role, a: Hash, root: Hash) {
    w.depth == 1 && (Config(role), a) in w.contexts && w.contexts[(Config(role), a)] == root
  }

  predicate ValidDependencyCall(w: World, who: Caller, role: Role, a: Hash, clearing: bool) {
    && a != 0 && !Locked(w, a) && (Target, a) !in w.contexts
    && a in w.book.accounts
    && var root := Pointer(w.book.accounts[a], role);
    && root != 0 && who.script == root
    && (w.depth == 0 || InRootContext(w, role, a, root))
    && (!clearing || !InRootContext(w, role, a, root) ==> !Escrowed(w.book, a))
  }

  function Removed(previous: seq<Hash>, children: seq<Hash>): seq<Hash> {
    if previous == [] then []
    else if previous[0] in children then Removed(previous[1..], children)
    else [previous[0]] + Removed(previous[1..], children)
  }

  /** `clearAccount` on each of `leaving` in turn; the behaviours must cover them. */
  function CleanAll(env: Env, w: World, role: Role, a: Hash, leaving: seq<Hash>, cleanups: seq<Behaviour>): Outcome
    decreases cleanups, 0
  {
    if leaving == [] then Finish(w)
    else if cleanups == [] then Outcome(w, Aborted(Foreign))
    else
      var w1 :- Cleanup(env, w, role, a, leaving[0], cleanups[0]);
      CleanAll(env, w1, role, a, leaving[1..], cleanups[1..])
  }

  function Acquire(w: World, a: Hash): World {
    w.(maintenance := w.maintenance + {a})
  }

  function Release(o: Outcome, a: Hash): Outcome {
    o.(world := o.world.(maintenance := o.world.maintenance - {a}))
  }

  function DoSetDependencies(env: Env, who: Caller, w: World, call: Call): Outcome
    requires call.SetDependencies?
    decreases call, 7
  {
    var (role, a, children) := (call.role, call.a, call.children);
    var w0 :- Need(w, ValidDependencyCall(w, who, role, a, false)
                     && ValidChildren(env, children, Pointer(w.book.accounts[a], role), call.cleanable)
                     && a !in w.maintenance);
    Release(ReplaceRoster(env, Acquire(w0, a), role, a, children, call), a)
  }

  function ReplaceRoster(env: Env, w: World, role: Role, a: Hash, children: seq<Hash>, call: Call): Outcome
    requires call.SetDependencies?
    decreases call, 6
  {
    var w1 :- CleanAll(env, w, role, a, Removed(Get(w.book.rosters, (role, a), []), children), call.cleanups);
    Finish(Emit(w1, RosterSet(role, a, children, |w.log|)))
  }

  function DoClearDependencies(env: Env, who: Caller, w: World, call: Call): Outcome
    requires call.ClearDependencies?
    decreases call, 7
  {
    var (role, a) := (call.role, call.a);
    var w0 :- Need(w, ValidDependencyCall(w, who, role, a, true) && a !in w.maintenance);
    Release(ClearRoster(env, Acquire(w0, a), role, a, Pointer(w0.book.accounts[a], role), call), a)
  }

  function ClearRoster(env: Env, w: World, role: Role, a: Hash, root: Hash, call: Call): Outcome
    requires call.ClearDependencies?
    decreases call, 6
  {
    var reply := if (role, a) in w.book.rosters then Answer(w.book.rosters[(role, a)]) else call.legacy;
    match reply
    case Raises => Outcome(w, Thrown)
    case Aborts => Outcome(w, Aborted(Foreign))
    case Answer(children) =>
      var w1 :- Need(w, ValidChildren(env, children, root, call.cleanable));
      var w2 :- CleanAll(env, w1, role, a, children, call.cleanups);
      Finish(Emit(w2, RosterCleared(role, a, |w.log|)))
  }

  // ---------------------------------------------------------------------------
  // Escape
  // ---------------------------------------------------------------------------

  function DoInitiateEscape(env: Env, who: Caller, w: World, call: Call): Outcome
    requires call.InitiateEscape?
  {
    var a := call.a;
    var w0 :- Need(w, Configurable(w, who, a)
                     && (a in w.book.escapes ==> w.header.time >= w.book.escapes[a] + ESCAPE_COOLDOWN_MS));
    Finish(Emit(w0, EscapeInitiated(a, w.header.time)))
  }

  function DoFinalizeEscape(env: Env, who: Caller, w: World, call: Call): Outcome
    requires call.FinalizeEscape?
    decreases call, 7
  {
    var a := call.a;
    var w0 :- Need(w, a in w.book.accounts && Idle(w, a) && !Escrowed(w.book, a)
                     && w.book.accounts[a].escapeAt > 0
                     && w.header.time >= w.book.accounts[a].escapeAt + w.book.accounts[a].escapeTimelock * 1000
                     && w.book.accounts[a].owner in who.witnesses);
    var w1 :- if call.verifier != 0 then Ask(w0, call.probe) else Finish(w0);
    var record := w1.book.accounts[a];
    var w2 :- CleanRoot(env, w1, Verifier, a, record.verifier, call.verifierCleanup);
    var w3 :- CleanRoot(env, w2, Hook, a, record.hook, call.hookCleanup);
    var w4 := Emit(w3, EscapeFinalized(a, record, call.verifier, |w.log|, w.header.time));
    var w5 :- SetUp(env, w4, a, call.verifier, call.params, call.setup);
    Finish(Emit(w5, EscapeSwept(a)))
  }

  // ---------------------------------------------------------------------------
  // Market escrow
  // ---------------------------------------------------------------------------

  function DoEnterEscrow(env: Env, who: Caller, w: World, call: Call): Outcome
    requires call.EnterEscrow?
  {
    var w0 :- Need(w, Configurable(w, who, call.a) && call.market != 0 && call.listing > 0 && who.script == call.market);
    Finish(Emit(w0, EscrowEntered(call.a, call.market, call.listing)))
  }

  /** AssertEscrowMarket. */
  predicate ByMarket(b: Book, who: Caller, a: Hash, listing: int) {
    && Get(b.markets, a, 0) != 0
    && who.script == Get(b.markets, a, 0)
    && Get(b.listings, a, 0) == listing
  }

  /** NotifyMarketListingAbandoned: a missing market is skipped and a throwing one is tolerated. */
  function Notify(env: Env, w: World, market: Hash, listing: int, notified: Option<Behaviour>): Outcome
    decreases notified, 5
  {
    if market == 0 || listing <= 0 || notified.None? then Finish(w)
    else
      var o := External(env, w, notified.value);
      if o.exit.Thrown? then Finish(o.world) else o
  }

  function DoCancelEscrow(env: Env, who: Caller, w: World, call: Call): Outcome
    requires call.CancelEscrow?
    decreases call, 7
  {
    var a := call.a;
    var w0 :- Need(w, ByMarket(w.book, who, a, call.listing) && Idle(w, a));
    Notify(env, Emit(w0, EscrowCancelled(a)), Get(w.book.markets, a, 0), call.listing, call.notified)
  }

  function DoSettleEscrow(env: Env, who: Caller, w: World, call: Call): Outcome
    requires call.SettleEscrow?
    decreases call, 7
  {
    var a := call.a;
    var w0 :- Need(w, ByMarket(w.book, who, a, call.listing) && Idle(w, a) && call.owner != 0 && a in w.book.accounts);
    var record := w0.book.accounts[a];
    var w1 :- CleanRoot(env, w0, Verifier, a, record.verifier, call.verifierCleanup);
    var w2 :- CleanRoot(env, w1, Hook, a, record.hook, call.hookCleanup);
    Finish(Emit(w2, EscrowSettled(a, record, call.owner, |w.log|)))
  }

  function DoInitiateReclaim(env: Env, who: Caller, w: World, call: Call): Outcome
    requires call.InitiateReclaim?
  {
    var w0 :- Need(w, ByOwner(w.book, who, call.a) && Idle(w, call.a) && Escrowed(w.book, call.a));
    Finish(Emit(w0, ReclaimInitiated(call.a, w.header.time)))
  }

  /** ForceCancelMarketEscrow. */
  function DoReclaim(env: Env, who: Caller, w: World, call: Call): Outcome
    requires call.Reclaim?
    decreases call, 7
  {
    var a := call.a;
    var w0 :- Need(w, ByOwner(w.book, who, a) && Idle(w, a) && Escrowed(w.book, a)
                     && a in w.book.reclaims && w.header.time >= w.book.reclaims[a] + RECLAIM_TIMELOCK_MS);
    Notify(env, Emit(w0, EscrowReclaimed(a, w.header.time)), Get(w.book.markets, a, 0), Get(w.book.listings, a, 0), call.notified)
  }

  // ---------------------------------------------------------------------------
  // Execution
  // ---------------------------------------------------------------------------

  const MAX_BATCH: nat := 32

  /** ValidateUserOperation. */
  predicate ValidOperation(op: UserOperation) {
    && op.target != 0
    && 0 < |op.name| <= 128
    && op.argCount <= 64 && op.argBytes <= 4096
    && 0 <= op.deadline < Pow256(32)
    && 0 <= op.nonce < Pow256(32)
    && op.signatureBytes <= 1024
  }

  function Channel(nonce: nat): nat {
    nonce / TWO_64
  }

  function Sequence(nonce: nat): nat {
    nonce % TWO_64
  }

  /** IsNonceAcceptable on a validated nonce. */
  predicate NonceAcceptable(b: Book, a: Hash, nonce: nat) {
    Sequence(nonce) == Get(b.nonces, (a, Channel(nonce)), 0)
  }

  function ExecuteUserOp(env: Env, who: Caller, w: World, a: Hash, plan: Plan): Outcome
    decreases plan, 8
  {
    var w0 :- Need(w, a != 0 && !Locked(w, a) && ValidOperation(plan.op) && a in w.book.accounts && !Escrowed(w.book, a));
    var state := w0.book.accounts[a];
    var w1 := SetContext(w0, Lock, a, a);
    var o :=
      if state.verifier == 0 then Validate(env, who, w1, a, state, plan)
      else Finally(Validate(env, who, SetContext(w1, Executing(Verifier), a, state.verifier), a, state, plan), Executing(Verifier), a);
    Finally(o, Lock, a)
  }

  /** The verdict of the verifier, or the backup owner's witness when there is none. */
  function Authorize(who: Caller, w: World, state: Account, verdict: Reply<bool>): Outcome {
    if state.verifier != 0 then Ask(w, verdict) else Need(w, state.owner != 0 && state.owner in who.witnesses)
  }

  /** Deadline, nonce, authorization, the escape defence; then the nonce is used. */
  function Admit(env: Env, who: Caller, w: World, a: Hash, state: Account, plan: Plan): Outcome
    requires ValidOperation(plan.op)
  {
    var nonce := plan.op.nonce;
    var w1 :- Need(w, w.header.time <= plan.op.deadline && NonceAcceptable(w.book, a, nonce));
    var w2 :- Authorize(who, w1, state, plan.verdict);
    var w3 :- Need(w2, state.escapeAt > 0 ==> state.owner != 0 && state.owner in who.witnesses);
    var w4 := if state.escapeAt > 0 then Emit(w3, EscapeCancelled(a)) else w3;
    var w5 :- Need(w4, NonceAcceptable(w4.book, a, nonce));
    Finish(Emit(w5, NonceConsumed(a, Channel(nonce), Sequence(nonce))))
  }

  function Validate(env: Env, who: Caller, w: World, a: Hash, state: Account, plan: Plan): Outcome
    requires ValidOperation(plan.op)
    decreases plan, 7
  {
    var w1 :- Admit(env, who, w, a, state, plan);
    if state.hook == 0 then InTarget(env, w1, a, state, plan) else Hooked(env, w1, a, state, plan)
  }

  /** The pre-execution hook and, under its execution key, the target phase. */
  function Hooked(env: Env, w: World, a: Hash, state: Account, plan: Plan): Outcome
    decreases plan, 6
  {
    var pre := External(env, SetContext(w, Executing(Hook), a, state.hook), plan.pre);
    if pre.exit.Aborted? then pre
    else if pre.exit.Thrown? then Finally(pre, Executing(Hook), a)
    else Finally(InTarget(env, pre.world, a, state, plan), Executing(Hook), a)
  }

  function InTarget(env: Env, w: World, a: Hash, state: Account, plan: Plan): Outcome
    decreases plan, 5
  {
    Finally(Run(env, SetContext(w, Target, a, plan.op.target), state, plan), Target, a)
  }

  /** The target call and the post-execution callbacks. */
  function Run(env: Env, w: World, state: Account, plan: Plan): Outcome
    decreases plan, 4
  {
    var w0 :- External(env, w, plan.body);
    var w1 := Regain(w0, plan.op);
    var w2 :- if state.hook != 0 then External(env, w1, plan.postHook) else Finish(w1);
    if state.verifier != 0 then External(env, w2, plan.postVerifier) else Finish(w2)
  }

  function ExecuteUserOps(env: Env, who: Caller, w: World, a: Hash, plans: seq<Plan>): Outcome
    decreases plans, 2
  {
    var w0 :- Need(w, a != 0 && 0 < |plans| <= MAX_BATCH);
    ExecuteEach(env, who, w0, a, plans)
  }

  function ExecuteEach(env: Env, who: Caller, w: World, a: Hash, plans: seq<Plan>): Outcome
    decreases plans, 1
  {
    if plans == [] then Finish(w)
    else
      var w1 :- ExecuteUserOp(env, who, w, a, plans[0]);
      ExecuteEach(env, who, w1, a, plans[1..])
  }

  // ---------------------------------------------------------------------------
  // Sponsored execution
  // ---------------------------------------------------------------------------

  /** CapReimbursementToActualCost: what is settled for a request when `reserved` has been reserved. */
  function SettledAmount(cost: nat, reserved: nat, requested: int): int {
    var estimation := 1 - Min(cost, 1);
    var cap := Max(cost - reserved, 0) + estimation * requested;
    Min(requested, cap)
  }

  function Reserve(w: World, requested: nat): Outcome {
    var reserved := ReservedBy(w.book, w.header.tx);
    var settled := SettledAmount(w.header.cost, reserved, requested);
    var w0 :- Need(w, settled > 0 && reserved <= VM_MAX - settled);
    Finish(Emit(w0, Reserved(w.header.tx, w.header.cost, requested, settled)))
  }

  predicate ValidSponsorship(call: Call)
    requires call.Sponsor?
  {
    && call.a != 0 && call.paymaster != 0 && call.sponsor != 0 && call.amount > 0
    && (if call.batch then 0 < |call.plans| <= MAX_BATCH else |call.plans| == 1)
    && (forall p | p in call.plans :: ValidOperation(p.op))
    && forall p | p in call.plans :: p.op.target == call.plans[0].op.target && p.op.name == call.plans[0].op.name
  }

  /** ExecuteSponsoredUserOp and ExecuteSponsoredUserOps. */
  function DoSponsor(env: Env, who: Caller, w: World, call: Call): Outcome
    requires call.Sponsor?
    decreases call, 7
  {
    var w0 :- Need(w, ValidSponsorship(call));
    var w1 :- Reserve(w0, call.amount);
    match call.core
    case Raises => Outcome(w1, Thrown)
    case Aborts => Outcome(w1, Aborted(Foreign))
    case Answer(core) =>
      var w2 :- Need(w1, core == env.self);
      var w3 :- if call.batch then ExecuteUserOps(env, who, w2, call.a, call.plans)
                else ExecuteUserOp(env, who, w2, call.a, call.plans[0]);
      External(env, w3, call.settlement)
  }

  // ---------------------------------------------------------------------------
  // Transactions and histories
  // ---------------------------------------------------------------------------

  /** A transaction: its environment, its header, and its script, which is itself a behaviour. */
  datatype Transaction = Transaction(env: Env, header: Header, script: Behaviour)

  /** A transaction that does not end normally writes nothing. */
  function Transact(w: World, t: Transaction): World {
    var o := Perform(t.env, w.(header := t.header), t.script);
    if o.exit.Done? then o.world else Undo(w, o.world)
  }

  function History(txs: seq<Transaction>): World {
    if txs == [] then GENESIS else Transact(History(txs[..|txs| - 1]), txs[|txs| - 1])
  }
}
