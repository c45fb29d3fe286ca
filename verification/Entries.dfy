/**
 What the configuration entry points store, on the book and in terms of the arguments only: when each
 of them returns, and the whole book it then leaves.  The guards are written out here once more,
 independently of the ones the wallet uses.
 */
module Entries {
  import opened Bytes
  import opened Values
  import opened Records
  import opened Machine
  import opened Authority
  import opened Guarantee
  import opened Soundness
  import opened Rotation
  import opened Effects
  import opened Pending

  /** The account's owner asks, and no execution or configuration is going on. */
  predicate OwnerAsks(w: World, who: Caller, a: Hash) {
    && w.depth == 0 && a in w.book.accounts
    && w.book.accounts[a].owner != 0 && w.book.accounts[a].owner in who.witnesses
  }

  /** The account is in a market's escrow. */
  predicate OnSale(b: Book, a: Hash) {
    a in b.markets && b.markets[a] != 0 && a in b.listings && b.listings[a] > 0
  }

  /** The owner may change the account. */
  predicate OwnerMay(w: World, who: Caller, a: Hash) {
    OwnerAsks(w, who, a) && !OnSale(w.book, a)
  }

  function With(w: World, b: Book, e: Event): World {
    w.(book := b, log := w.log + [e])
  }

  /** At rest nothing is configured or executed. */
  lemma IdleExactly(w: World, a: Hash)
    requires Inv(w)
    ensures Idle(w, a) <==> w.depth == 0
    ensures w.depth == 0 ==> w.contexts == map[]
  {
    hide LegalLog, Replay, LocksCover;
    if w.depth == 0 {
      assert |w.contexts| == 0;
    }
  }

  lemma GuardsExactly(w: World, who: Caller, a: Hash)
    requires Inv(w)
    ensures Configurable(w, who, a) <==> OwnerMay(w, who, a)
    ensures ByOwner(w.book, who, a) && Idle(w, a) <==> OwnerAsks(w, who, a)
    ensures Escrowed(w.book, a) <==> OnSale(w.book, a)
  {
    hide Inv, Idle;
    IdleExactly(w, a);
  }

  // ---------------------------------------------------------------------------
  // Set-up calls
  // ---------------------------------------------------------------------------

  /** `b` is left as `c` by a call under the module's own context: nonces move, and escapes can only stop. */
  ghost predicate LeftBy(w: World, v: World) {
    Frozen(w.book, v.book) && Extends(w.log, v.log)
  }

  lemma SetUpLeaves(env: Env, w: World, a: Hash, verifier: Hash, params: seq<Byte>, b: Behaviour)
    requires Inv(w) && w.depth == 0
    ensures var o := SetUp(env, w, a, verifier, params, b);
            && o.exit == SetUpExit(env, w, a, verifier, params, b)
            && (o.exit.Done? ==> LeftBy(w, o.world))
            && (verifier == 0 || params == [] ==> o.world == w)
  {
    hide Inv, SetUp, SetUpExit, Sound, Step, Frozen;
    RestMayConfigure(w, Verifier, a);
    SetUpIsQuiet(env, w, a, verifier, params, b);
    SetUpSound(env, w, a, verifier, params, b);
    var o := SetUp(env, w, a, verifier, params, b);
    if o.exit.Done? {
      Arrives(w, o, 0);
    }
    NoSetUp(env, w, a, verifier, params, b);
  }

  lemma NoSetUp(env: Env, w: World, a: Hash, verifier: Hash, params: seq<Byte>, b: Behaviour)
    ensures verifier == 0 || params == [] ==> SetUp(env, w, a, verifier, params, b) == Finish(w)
  {
  }

  // ---------------------------------------------------------------------------
  // Registration and ownership
  // ---------------------------------------------------------------------------

  /** The wallet with a new account. */
  function Registering(w: World, a: Hash, record: Account, binding: seq<Byte>): World {
    With(w, w.book.(accounts := w.book.accounts[a := record],
                    bindings := if binding == [] then w.book.bindings else w.book.bindings[a := binding]),
         Registered(a, record, binding))
  }

  lemma RegisteringWrites(w: World, a: Hash, record: Account, binding: seq<Byte>)
    ensures Emit(w, Registered(a, record, binding)) == Registering(w, a, record, binding)
  {
  }

  /** A registration stores exactly the record that was asked for, with no escape running, before the verifier is set up. */
  lemma RegistrationExactly(env: Env, who: Caller, w: World, call: Call)
    requires Inv(w) && call.Register?
    ensures var (a, o) := (call.a, DoRegister(env, who, w, call));
            var v := Registering(w, a, Account(call.verifier, call.hook, call.owner, call.timelock, 0), []);
            && (o.exit.Done? <==>
                  && w.depth == 0 && a != 0 && a == call.expected && a !in w.book.accounts
                  && call.owner != 0 && call.owner in who.witnesses && 604_800 <= call.timelock <= 7_776_000
                  && (call.verifier != 0 ==> call.verifierProbe == Answer(true)) && (call.hook != 0 ==> call.hookProbe == Answer(true))
                  && SetUpExit(env, v, a, call.verifier, call.params, call.setup).Done?)
            && (o.exit.Done? ==> LeftBy(v, o.world) && (call.verifier == 0 || call.params == [] ==> o.world == v))
  {
    hide Inv, Idle, SetUp, SetUpExit, Emit, Apply, LeftBy, Registering;
    var (a, record) := (call.a, Account(call.verifier, call.hook, call.owner, call.timelock, 0));
    IdleExactly(w, a);
    RegisteringWrites(w, a, record, []);
    if ValidRegistration(w, a, call.owner, call.timelock, call.expected) && call.owner in who.witnesses && a !in w.book.accounts {
      EmitAtRest(w, Registered(a, record, []));
      SetUpLeaves(env, Registering(w, a, record, []), a, call.verifier, call.params, call.setup);
    }
  }

  lemma PlatformRegistrationExactly(env: Env, who: Caller, w: World, call: Call)
    requires Inv(w) && call.RegisterPlatform?
    ensures var (a, o) := (call.a, DoRegisterPlatform(env, who, w, call));
            && (o.exit.Done? <==>
                  && w.depth == 0 && a != 0 && a == call.expected && a !in w.book.accounts
                  && env.registrar != 0 && who.script == env.registrar && 1 <= |call.binding| <= 128
                  && call.owner != 0 && 604_800 <= call.timelock <= 7_776_000)
            && (o.exit.Done? ==> o.world == Registering(w, a, Account(0, 0, call.owner, call.timelock, 0), call.binding))
  {
    hide Inv, Idle, Emit, Apply, Registering;
    IdleExactly(w, call.a);
    RegisteringWrites(w, call.a, Account(0, 0, call.owner, call.timelock, 0), call.binding);
  }

  /** The registrar's rotation sets exactly the owner, of an account bound to it with these bytes and without an escape. */
  lemma OwnerRotationExactly(env: Env, who: Caller, w: World, call: Call)
    requires Inv(w) && call.RotateOwner?
    ensures var (a, o) := (call.a, DoRotateOwner(env, who, w, call));
            && (o.exit.Done? <==>
                  && w.depth == 0 && env.registrar != 0 && who.script == env.registrar && 1 <= |call.binding| <= 128
                  && a in w.book.bindings && w.book.bindings[a] == call.binding && !OnSale(w.book, a)
                  && a in w.book.accounts && w.book.accounts[a].escapeAt == 0
                  && call.owner != 0 && w.book.accounts[a].owner != call.owner)
            && (o.exit.Done? ==>
                  o.world == With(w, w.book.(accounts := w.book.accounts[a := w.book.accounts[a].(owner := call.owner)]),
                                  OwnerRotated(a, call.owner)))
  {
    hide Inv, Idle, Emit, Apply;
    IdleExactly(w, call.a);
    GuardsExactly(w, who, call.a);
    OwnerWrites(w, call.a, call.owner);
  }

  lemma OwnerWrites(w: World, a: Hash, owner: Hash)
    ensures a in w.book.accounts ==>
              Emit(w, OwnerRotated(a, owner))
              == With(w, w.book.(accounts := w.book.accounts[a := w.book.accounts[a].(owner := owner)]), OwnerRotated(a, owner))
  {
  }

  // ---------------------------------------------------------------------------
  // Modules
  // ---------------------------------------------------------------------------

  /** The wallet with the module installed. */
  function Installing(w: World, role: Role, a: Hash, m: Hash): World
    requires a in w.book.accounts
  {
    var old_ := w.book.accounts[a];
    With(w, w.book.(accounts := w.book.accounts[a := if role == Verifier then old_.(verifier := m) else old_.(hook := m)]),
         Installed(role, a, m))
  }

  lemma InstallingWrites(w: World, role: Role, a: Hash, m: Hash)
    ensures a in w.book.accounts ==> Emit(w, Installed(role, a, m)) == Installing(w, role, a, m)
  {
  }

  /** The module that the account has in a role. */
  function ModuleOf(acc: Account, role: Role): Hash {
    match role
    case Verifier => acc.verifier
    case Hook => acc.hook
  }

  /** An update's answer from the module's probe; a replaced verifier is not asked. */
  predicate Supported(w: World, call: Call)
    requires call.UpdateModule? && call.a in w.book.accounts
  {
    call.module_ != 0 && (call.role == Hook || w.book.accounts[call.a].verifier == 0) ==> call.probe == Answer(true)
  }

  /**
   An update of a missing module installs exactly the given one at once, and a verifier with parameters is
   set up after that; an update of an installed module only records the request, with the parameters of a
   verifier and the block time.
   */
  lemma ModuleUpdateExactly(env: Env, who: Caller, w: World, call: Call)
    requires Inv(w) && call.UpdateModule?
    ensures var (role, a, m, o) := (call.role, call.a, call.module_, DoUpdateModule(env, who, w, call));
            && (o.exit.Done? <==>
                  && OwnerMay(w, who, a) && Supported(w, call)
                  && if ModuleOf(w.book.accounts[a], role) == 0
                     then role == Verifier ==> SetUpExit(env, Installing(w, role, a, m), a, m, call.params, call.setup).Done?
                     else (role, a) !in w.book.updates)
            && (o.exit.Done? && ModuleOf(w.book.accounts[a], role) == 0 ==>
                  && var v := Installing(w, role, a, m);
                  && LeftBy(v, o.world) && o.world.book.updates == w.book.updates
                  && (role == Hook || m == 0 || call.params == [] ==> o.world == v)
                  && a in o.world.book.accounts && ModuleOf(o.world.book.accounts[a], role) == m
                  && (Backed(w.book) ==> (role, a) !in o.world.book.updates))
            && (o.exit.Done? && ModuleOf(w.book.accounts[a], role) != 0 ==>
                  && var params := if role == Verifier then call.params else [];
                  o.world == With(w, w.book.(updates := w.book.updates[(role, a) := PendingUpdate(m, params, w.header.time)]),
                                  UpdateRequested(role, a, m, params, w.header.time)))
  {
    hide Inv, Configurable, SetUp, SetUpExit, Emit, Apply, Frozen;
    var (role, a, m) := (call.role, call.a, call.module_);
    GuardsExactly(w, who, a);
    if Configurable(w, who, a) {
      InstallingWrites(w, role, a, m);
      RequestWritten(w, role, a, m, if role == Verifier then call.params else []);
      var v := Installing(w, role, a, m);
      if Pointer(w.book.accounts[a], role) == 0 {
        InstallingRests(w, who, role, a, m);
        SetUpLeaves(env, v, a, m, call.params, call.setup);
        StillInstalled(v, DoUpdateModule(env, who, w, call).world, role, a);
      }
    }
  }

  lemma RequestWritten(w: World, role: Role, a: Hash, m: Hash, params: seq<Byte>)
    ensures var e := UpdateRequested(role, a, m, params, w.header.time);
            Emit(w, e) == With(w, w.book.(updates := w.book.updates[(role, a) := PendingUpdate(m, params, w.header.time)]), e)
  {
  }

  lemma InstallingRests(w: World, who: Caller, role: Role, a: Hash, m: Hash)
    requires Inv(w) && OwnerMay(w, who, a) && Pointer(w.book.accounts[a], role) == 0
    ensures Inv(Installing(w, role, a, m)) && Installing(w, role, a, m).depth == 0
  {
    hide Inv, Emit, Apply;
    GuardsExactly(w, who, a);
    InstallingWrites(w, role, a, m);
    EmitAtRest(w, Installed(role, a, m));
  }

  /** A set-up changes no module, and no pending update. */
  lemma StillInstalled(w: World, v: World, role: Role, a: Hash)
    requires a in w.book.accounts
    ensures LeftBy(w, v) ==>
              && v.book.updates == w.book.updates && a in v.book.accounts
              && ModuleOf(v.book.accounts[a], role) == ModuleOf(w.book.accounts[a], role)
    ensures Backed(w.book) && (role, a) in w.book.updates ==> ModuleOf(w.book.accounts[a], role) != 0
    ensures LeftBy(w, w)
  {
  }

  /** A cancellation removes exactly the pending update of the given role. */
  lemma UpdateCancellationExactly(env: Env, who: Caller, w: World, call: Call)
    requires Inv(w) && call.CancelModule?
    ensures var o := DoCancelModule(env, who, w, call);
            && (o.exit.Done? <==> OwnerAsks(w, who, call.a))
            && (o.exit.Done? ==>
                  o.world == With(w, w.book.(updates := w.book.updates - {(call.role, call.a)}), UpdateDropped(call.role, call.a)))
  {
    hide Inv, Emit, Apply, Idle, ByOwner;
    GuardsExactly(w, who, call.a);
    DropWritten(w, call.role, call.a);
  }

  lemma DropWritten(w: World, role: Role, a: Hash)
    ensures Emit(w, UpdateDropped(role, a)) == With(w, w.book.(updates := w.book.updates - {(role, a)}), UpdateDropped(role, a))
  {
  }

  // ---------------------------------------------------------------------------
  // Escape
  // ---------------------------------------------------------------------------

  /** An initiation starts the timer at the block time, at most once an hour. */
  lemma EscapeInitiationExactly(env: Env, who: Caller, w: World, call: Call)
    requires Inv(w) && call.InitiateEscape?
    ensures var (a, now, o) := (call.a, w.header.time, DoInitiateEscape(env, who, w, call));
            && (o.exit.Done? <==>
                  OwnerMay(w, who, a) && (a in w.book.escapes ==> now >= w.book.escapes[a] + 3_600_000))
            && (o.exit.Done? ==>
                  o.world == With(w, w.book.(accounts := w.book.accounts[a := w.book.accounts[a].(escapeAt := now)],
                                             escapes := w.book.escapes[a := now]), EscapeInitiated(a, now)))
  {
    hide Inv, Emit, Apply, Configurable;
    GuardsExactly(w, who, call.a);
    InitiationWritten(w, call.a);
  }

  lemma InitiationWritten(w: World, a: Hash)
    ensures var now := w.header.time;
            a in w.book.accounts ==>
              Emit(w, EscapeInitiated(a, now))
              == With(w, w.book.(accounts := w.book.accounts[a := w.book.accounts[a].(escapeAt := now)], escapes := w.book.escapes[a := now]),
                      EscapeInitiated(a, now))
  {
  }

  // ---------------------------------------------------------------------------
  // Market escrow
  // ---------------------------------------------------------------------------

  /** An entry records exactly the calling market and the given listing. */
  lemma EscrowEntryExactly(env: Env, who: Caller, w: World, call: Call)
    requires Inv(w) && call.EnterEscrow?
    ensures var (a, o) := (call.a, DoEnterEscrow(env, who, w, call));
            && (o.exit.Done? <==>
                  OwnerMay(w, who, a) && call.market != 0 && who.script == call.market && call.listing > 0)
            && (o.exit.Done? ==>
                  o.world == With(w, w.book.(markets := w.book.markets[a := call.market], listings := w.book.listings[a := call.listing]),
                                  EscrowEntered(a, call.market, call.listing)))
  {
    hide Inv, Emit, Apply, Configurable;
    GuardsExactly(w, who, call.a);
    if call.listing > 0 {
      EntryWritten(w, call.a, call.market, call.listing);
    }
  }

  lemma EntryWritten(w: World, a: Hash, market: Hash, listing: nat)
    ensures Emit(w, EscrowEntered(a, market, listing))
         == With(w, w.book.(markets := w.book.markets[a := market], listings := w.book.listings[a := listing]), EscrowEntered(a, market, listing))
  {
  }

  /** The wallet without the account's escrow. */
  function Unescrowed(w: World, a: Hash, e: Event): World {
    With(w, w.book.(markets := w.book.markets - {a}, listings := w.book.listings - {a}, reclaims := w.book.reclaims - {a}), e)
  }

  lemma ExitWritten(w: World, a: Hash, e: Event)
    requires e == EscrowCancelled(a) || e == EscrowReclaimed(a, w.header.time)
    ensures Emit(w, e) == Unescrowed(w, a, e)
  {
  }

  /** A market that is told ends the call unless it throws, and then the call goes on. */
  lemma NotifyExactly(env: Env, w: World, market: Hash, listing: int, notified: Option<Behaviour>)
    requires market != 0 && listing > 0
    ensures var o := Notify(env, w, market, listing, notified);
            && (o.exit.Done? <==> notified.Some? ==> !External(env, w, notified.value).exit.Aborted?)
            && (notified.None? ==> o.world == w)
            && (notified.Some? ==> o.world == External(env, w, notified.value).world)
  {
    hide External;
  }

  /** An account with a market has a listing. */
  lemma MarketHasListing(w: World, a: Hash)
    requires Inv(w)
    ensures a in w.book.markets ==> OnSale(w.book, a)
  {
    hide LegalLog, Replay, LocksCover;
    EscrowMarkersAgree(w.log);
  }

  /** A cancellation by the recorded market of the recorded listing clears the escrow, and then tells the market. */
  lemma EscrowCancellationExactly(env: Env, who: Caller, w: World, call: Call)
    requires Inv(w) && call.CancelEscrow?
    ensures var (a, o) := (call.a, DoCancelEscrow(env, who, w, call));
            var v := Unescrowed(w, a, EscrowCancelled(a));
            && (o.exit.Done? <==>
                  && w.depth == 0 && OnSale(w.book, a) && who.script == w.book.markets[a] && call.listing == w.book.listings[a]
                  && (call.notified.Some? ==> !External(env, v, call.notified.value).exit.Aborted?))
            && (o.exit.Done? ==> o.world == if call.notified.None? then v else External(env, v, call.notified.value).world)
  {
    hide Inv, Emit, Apply, Idle, Notify, External;
    IdleExactly(w, call.a);
    MarketHasListing(w, call.a);
    ExitWritten(w, call.a, EscrowCancelled(call.a));
    if OnSale(w.book, call.a) {
      NotifyExactly(env, Unescrowed(w, call.a, EscrowCancelled(call.a)), w.book.markets[call.a], w.book.listings[call.a], call.notified);
    }
  }

  /** The owner's reclaim starts at the block time. */
  lemma ReclaimInitiationExactly(env: Env, who: Caller, w: World, call: Call)
    requires Inv(w) && call.InitiateReclaim?
    ensures var (a, now, o) := (call.a, w.header.time, DoInitiateReclaim(env, who, w, call));
            && (o.exit.Done? <==> OwnerAsks(w, who, a) && OnSale(w.book, a))
            && (o.exit.Done? ==> o.world == With(w, w.book.(reclaims := w.book.reclaims[a := now]), ReclaimInitiated(a, now)))
  {
    hide Inv, Emit, Apply, Idle, ByOwner, Escrowed;
    GuardsExactly(w, who, call.a);
    ReclaimWritten(w, call.a);
  }

  lemma ReclaimWritten(w: World, a: Hash)
    ensures var now := w.header.time;
            Emit(w, ReclaimInitiated(a, now)) == With(w, w.book.(reclaims := w.book.reclaims[a := now]), ReclaimInitiated(a, now))
  {
  }

  /** A week later the owner's exit clears the escrow, and then tells the market. */
  lemma ReclaimExactly(env: Env, who: Caller, w: World, call: Call)
    requires Inv(w) && call.Reclaim?
    ensures var (a, o) := (call.a, DoReclaim(env, who, w, call));
            var v := Unescrowed(w, a, EscrowReclaimed(a, w.header.time));
            && (o.exit.Done? <==>
                  && OwnerAsks(w, who, a) && OnSale(w.book, a)
                  && a in w.book.reclaims && w.header.time >= w.book.reclaims[a] + 604_800_000
                  && (call.notified.Some? ==> !External(env, v, call.notified.value).exit.Aborted?))
            && (o.exit.Done? ==> o.world == if call.notified.None? then v else External(env, v, call.notified.value).world)
  {
    hide Inv, Emit, Apply, Idle, ByOwner, Escrowed, Notify, External;
    GuardsExactly(w, who, call.a);
    ExitWritten(w, call.a, EscrowReclaimed(call.a, w.header.time));
    if OnSale(w.book, call.a) {
      NotifyExactly(env, Unescrowed(w, call.a, EscrowReclaimed(call.a, w.header.time)), w.book.markets[call.a], w.book.listings[call.a], call.notified);
    }
  }

  // ---------------------------------------------------------------------------
  // Staged maintenance calls
  // ---------------------------------------------------------------------------

  /** A roster that a root may have. */
  predicate Enrollable(env: Env, children: seq<Hash>, root: Hash, cleanable: set<Hash>) {
    && |children| <= 10 && (forall i, j | 0 <= i < j < |children| :: children[i] != children[j])
    && forall c | c in children :: c != 0 && c != root && c != env.self && c in cleanable
  }

  predicate Adopts(w: World, role: Role, a: Hash, legacy: Reply<seq<Hash>>) {
    (role, a) !in w.book.rosters && legacy.Answer? && legacy.value != []
  }

  /** The wallet with the roster that the root reports, where none is stored. */
  function Adopting(w: World, role: Role, a: Hash, legacy: Reply<seq<Hash>>): World {
    if Adopts(w, role, a, legacy) then
      With(w, w.book.(rosters := w.book.rosters[(role, a) := legacy.value]), RosterSet(role, a, legacy.value, |w.log|))
    else w
  }

  /** A reported roster is adopted exactly as it is, where none is stored and no maintenance is going on. */
  lemma AdoptionExactly(env: Env, w: World, role: Role, a: Hash, root: Hash, legacy: Reply<seq<Hash>>, cleanable: set<Hash>)
    ensures var o := AdoptLegacy(env, w, role, a, root, legacy, cleanable);
            && (o.exit.Done? <==>
                  || (role, a) in w.book.rosters
                  || (a !in w.maintenance && legacy.Answer? && (legacy.value != [] ==> Enrollable(env, legacy.value, root, cleanable))))
            && (o.exit.Done? ==> o.world == Adopting(w, role, a, legacy))
  {
    hide Emit, Apply;
    if legacy.Answer? {
      RosterWritten(w, role, a, legacy.value);
      EnrollableExactly(env, legacy.value, root, cleanable);
    }
  }

  lemma EnrollableExactly(env: Env, children: seq<Hash>, root: Hash, cleanable: set<Hash>)
    ensures ValidChildren(env, children, root, cleanable) <==> Enrollable(env, children, root, cleanable)
  {
  }

  lemma RosterWritten(w: World, role: Role, a: Hash, children: seq<Hash>)
    ensures var e := RosterSet(role, a, children, |w.log|);
            Emit(w, e) == With(w, w.book.(rosters := w.book.rosters[(role, a) := children]), e)
  {
  }

  /** The slot holds exactly this call. */
  predicate Staged(b: Book, role: Role, a: Hash, m: Hash, digest: Digest) {
    (role, a) in b.calls && b.calls[(role, a)].module_ == m && b.calls[(role, a)].digest == digest
  }

  /** The wallet with the call staged at the block time. */
  function Staging(w: World, role: Role, a: Hash, m: Hash, digest: Digest): World {
    With(w, w.book.(calls := w.book.calls[(role, a) := PendingCall(m, digest, w.header.time)]), CallStaged(role, a, m, digest, w.header.time))
  }

  /** The wallet with the staged call spent. */
  function Spending(w: World, role: Role, a: Hash, m: Hash, digest: Digest): World {
    With(w, w.book.(calls := w.book.calls - {(role, a)}), CallConfirmed(role, a, m, digest, w.header.time))
  }

  /** A call that is not staged is staged now; one that is, is spent if 24 hours are over, and refused otherwise. */
  lemma SlotExactly(env: Env, w: World, role: Role, a: Hash, m: Hash, name: string, args: seq<Argument>)
    ensures var ((o, confirmed), digest) := (TryConfirm(env, w, role, a, m, name, args), Sha256(name, args));
            if !Staged(w.book, role, a, m, digest) then o == Finish(Staging(w, role, a, m, digest)) && !confirmed
            else if w.header.time >= w.book.calls[(role, a)].since + 86_400_000 then o == Finish(Spending(w, role, a, m, digest)) && confirmed
            else !o.exit.Done? && !confirmed
  {
    hide Emit, Apply;
    StagingWritten(w, role, a, m, Sha256(name, args));
  }

  lemma StagingWritten(w: World, role: Role, a: Hash, m: Hash, digest: Digest)
    ensures Emit(w, CallStaged(role, a, m, digest, w.header.time)) == Staging(w, role, a, m, digest)
    ensures Emit(w, CallConfirmed(role, a, m, digest, w.header.time)) == Spending(w, role, a, m, digest)
  {
  }

  /** The maintenance methods of a module in a role. */
  predicate Maintains(role: Role, name: string) {
    match role
    case Verifier =>
      || name == "clearAccount" || name == "setSessionKey" || name == "clearSessionKey" || name == "setConfig"
      || name == "createSubscription" || name == "setDKIMRegistry"
    case Hook =>
      || name == "setDailyLimit" || name == "setWhitelist" || name == "setRestrictedToken"
      || name == "requireCredentialCommitmentForContract" || name == "setRegistry" || name == "setHooks" || name == "setConfig"
      || name == "clearAccount"
  }

  lemma MaintainsExactly(role: Role, name: string)
    ensures name in AllowedMethods(role) <==> Maintains(role, name)
  {
  }

  /** The owner asks for maintenance of an installed module. */
  predicate MayMaintain(w: World, who: Caller, role: Role, a: Hash) {
    OwnerMay(w, who, a) && ModuleOf(w.book.accounts[a], role) != 0
  }

  /** The call's own condition when it is due: the module returns, run under its own configuration key. */
  predicate Runs(env: Env, w: World, role: Role, a: Hash, root: Hash, m: Hash, digest: Digest, body: Behaviour) {
    Staged(w.book, role, a, root, digest) ==>
      && w.header.time >= w.book.calls[(role, a)].since + 86_400_000
      && External(env, SetContext(Spending(w, role, a, root, digest), Config(role), a, m), body).exit.Done?
  }

  /** What a call that returns leaves: it is staged now, or it is spent and the module has run. */
  ghost predicate Ran(w: World, v: World, role: Role, a: Hash, root: Hash, digest: Digest) {
    if Staged(w.book, role, a, root, digest) then LeftBy(Spending(w, role, a, root, digest), v)
    else v == Staging(w, role, a, root, digest)
  }

  /** The module's run under its own key. */
  lemma RunExactly(env: Env, w: World, role: Role, a: Hash, root: Hash, m: Hash, digest: Digest, body: Behaviour)
    requires Inv(w) && w.depth == 0 && a in w.book.accounts && root != 0 && Pointer(w.book.accounts[a], role) == root && !Escrowed(w.book, a)
    requires Staged(w.book, role, a, root, digest) && w.header.time >= w.book.calls[(role, a)].since + 86_400_000
    ensures var v := Spending(w, role, a, root, digest);
            var o := Within(env, v, Config(role), a, m, body);
            && o.exit == External(env, SetContext(v, Config(role), a, m), body).exit
            && (o.exit.Done? ==> LeftBy(v, o.world))
  {
    hide Inv, Within, External, Sound, Step, Frozen, Emit, Apply, Escrowed, CleanedSince;
    var (v, e) := (Spending(w, role, a, root, digest), CallConfirmed(role, a, root, digest, w.header.time));
    StagingWritten(w, role, a, root, digest);
    EmitAtRest(w, e);
    RestMayConfigure(v, role, a);
    WithinIsQuiet(env, v, role, a, m, body);
    WithinSound(env, v, role, a, m, body);
    var o := Within(env, v, Config(role), a, m, body);
    if o.exit.Done? {
      Arrives(v, o, 0);
    }
  }

  predicate AdoptsFirst(role: Role, name: string) {
    name == (match role case Verifier => "setConfig" case Hook => "setHooks")
  }

  /** The wallet as a root call finds it after adopting a reported roster. */
  function Prepared(w: World, call: Call): World
    requires call.CallModule?
  {
    if AdoptsFirst(call.role, call.name) then Adopting(w, call.role, call.a, call.legacy) else w
  }

  predicate MayPrepare(env: Env, w: World, call: Call, root: Hash)
    requires call.CallModule?
  {
    AdoptsFirst(call.role, call.name) ==>
      || (call.role, call.a) in w.book.rosters
      || (call.a !in w.maintenance && call.legacy.Answer? && (call.legacy.value != [] ==> Enrollable(env, call.legacy.value, root, call.cleanable)))
  }

  lemma PreparedStill(env: Env, w: World, call: Call, root: Hash)
    requires Inv(w) && w.depth == 0 && call.CallModule? && MayPrepare(env, w, call, root)
    ensures var v := Prepared(w, call);
            Inv(v) && v.depth == 0 && v.book == w.book.(rosters := v.book.rosters) && v.header == w.header
  {
    hide Inv, Apply;
    if AdoptsFirst(call.role, call.name) && Adopts(w, call.role, call.a, call.legacy) {
      EnrollableExactly(env, call.legacy.value, root, call.cleanable);
      var e := RosterSet(call.role, call.a, call.legacy.value, |w.log|);
      RosterWritten(w, call.role, call.a, call.legacy.value);
      AdoptionIsLegal(env, w, e, root, call.cleanable);
      EmitKeepsInv(w, e);
    }
  }

  lemma AdoptionIsLegal(env: Env, w: World, e: Event, root: Hash, cleanable: set<Hash>)
    requires e.RosterSet? && (e.role, e.a) !in w.book.rosters && ValidChildren(env, e.children, root, cleanable)
    ensures Legal(w.book, w.log, e)
  {
    hide CleanedSince;
  }

  /**
   A root's maintenance call returns exactly when the owner asks for an allowed method of the installed
   module, a roster to be adopted is valid, and the call is new or both due and returning.  It stages
   the call at the block time, or spends it and runs the module under its own key.
   */
  lemma RootCallExactly(env: Env, who: Caller, w: World, call: Call)
    requires Inv(w) && call.CallModule?
    ensures var (role, a, digest, o) := (call.role, call.a, Sha256(call.name, call.args), DoCallModule(env, who, w, call));
            && (o.exit.Done? <==>
                  && MayMaintain(w, who, role, a) && Maintains(role, call.name)
                  && var root := ModuleOf(w.book.accounts[a], role);
                  && MayPrepare(env, w, call, root) && Runs(env, Prepared(w, call), role, a, root, root, digest, call.body))
            && (o.exit.Done? ==> Ran(Prepared(w, call), o.world, role, a, ModuleOf(w.book.accounts[a], role), digest))
  {
    hide Inv, Configurable, AdoptLegacy, TryConfirm, Within, External, Emit, Apply, LeftBy, Escrowed, Enrollable, Staging, Spending, Maintains;
    var (role, a) := (call.role, call.a);
    GuardsExactly(w, who, a);
    MaintainsExactly(role, call.name);
    if Configurable(w, who, a) && Pointer(w.book.accounts[a], role) != 0 && Maintains(role, call.name) {
      var root := Pointer(w.book.accounts[a], role);
      AdoptionExactly(env, w, role, a, root, call.legacy, call.cleanable);
      if MayPrepare(env, w, call, root) {
        PreparedStill(env, w, call, root);
        var u := Prepared(w, call);
        SlotExactly(env, u, role, a, root, call.name, call.args);
        if Staged(u.book, role, a, root, Sha256(call.name, call.args)) && u.header.time >= u.book.calls[(role, a)].since + 86_400_000 {
          SameEscrow(w.book, u.book, a);
          RunExactly(env, u, role, a, root, root, Sha256(call.name, call.args), call.body);
        }
      }
    }
  }

  lemma SameEscrow(b: Book, c: Book, a: Hash)
    requires c == b.(rosters := c.rosters)
    ensures Escrowed(c, a) == Escrowed(b, a)
  {
  }

  /** A roster that a root reports, with the threshold of a verifier. */
  predicate Reported(role: Role, t: Topology, root: Hash, child: Hash) {
    && 1 <= |t.children| <= (match role case Verifier => 10 case Hook => 8)
    && (role == Verifier ==> 1 <= t.threshold <= |t.children|)
    && (forall i, j | 0 <= i < j < |t.children| :: t.children[i] != t.children[j])
    && child in t.children && 0 !in t.children && root !in t.children
  }

  /** The configuration methods of children, with as many arguments, the account first. */
  predicate Configures(role: Role, a: Hash, name: string, args: seq<Argument>) {
    && (match role
        case Verifier => (name == "setPublicKey" && |args| == 2) || (name == "setConfig" && |args| == 3) || (name == "setSessionKey" && |args| == 7)
        case Hook =>
          || (name == "setWhitelist" && |args| == 3) || (name == "setDailyLimit" && |args| == 4)
          || (name == "setRestrictedToken" && |args| == 3) || (name == "requireCredentialCommitmentForContract" && |args| == 5))
    && args[0] == ScriptHash(a)
  }

  /** What a child call is staged under. */
  function ChildCall(call: Call): Digest
    requires call.CallChild? && call.topology.Answer?
  {
    var t := call.topology.value;
    Sha256(
      match call.role case Verifier => "callVerifierChild" case Hook => "callHookChild",
      [ScriptHash(call.child), Name(call.name), Arguments(call.args),
       TopologyHash(t.children, match call.role case Verifier => t.threshold case Hook => 0)])
  }

  lemma ChildGuardsExactly(call: Call, root: Hash)
    requires call.CallChild? && call.topology.Answer?
    ensures ValidTopology(call.role, call.topology.value, root, call.child) <==> Reported(call.role, call.topology.value, root, call.child)
    ensures ValidChildCall(call.role, call.a, call.name, call.args, call.abiOk) <==>
              Configures(call.role, call.a, call.name, call.args) && call.abiOk
    ensures Sha256(ChildCallName(call.role), ChildArguments(call.role, call.child, call.name, call.args, call.topology.value)) == ChildCall(call)
  {
  }

  /** The same for a child under the roster that its root reports: the child runs, under its own key. */
  lemma ChildCallExactly(env: Env, who: Caller, w: World, call: Call)
    requires Inv(w) && call.CallChild?
    ensures var (role, a, o) := (call.role, call.a, DoCallChild(env, who, w, call));
            && (o.exit.Done? <==>
                  && MayMaintain(w, who, role, a)
                  && var root := ModuleOf(w.book.accounts[a], role);
                  && call.child != 0 && call.child != root
                  && call.rootProbe == Answer(true) && call.topology.Answer? && Reported(role, call.topology.value, root, call.child)
                  && call.childProbe == Answer(true) && Configures(role, a, call.name, call.args) && call.abiOk
                  && Runs(env, w, role, a, root, call.child, ChildCall(call), call.body))
            && (o.exit.Done? && call.topology.Answer? ==> Ran(w, o.world, role, a, ModuleOf(w.book.accounts[a], role), ChildCall(call)))
  {
    hide Inv, Configurable, TryConfirm, Within, External, Emit, Apply, LeftBy, Escrowed, Staging, Spending, ChildCall,
         Reported, Configures, ValidTopology, ValidChildCall, ChildCallName, ChildArguments;
    var (role, a) := (call.role, call.a);
    GuardsExactly(w, who, a);
    if Configurable(w, who, a) && Pointer(w.book.accounts[a], role) != 0 && call.topology.Answer? {
      var root := Pointer(w.book.accounts[a], role);
      ChildGuardsExactly(call, root);
      SlotExactly(env, w, role, a, root, ChildCallName(role), ChildArguments(role, call.child, call.name, call.args, call.topology.value));
      if Staged(w.book, role, a, root, ChildCall(call)) && w.header.time >= w.book.calls[(role, a)].since + 86_400_000 {
        RunExactly(env, w, role, a, root, call.child, ChildCall(call), call.body);
      }
    }
  }

  // ---------------------------------------------------------------------------
  // The guards of rotations and operations
  // ---------------------------------------------------------------------------

  /** A confirmation needs the owner, a request 24 hours old, and a module that answers its probe. */
  lemma ConfirmationGuards(env: Env, who: Caller, w: World, call: Call)
    requires Inv(w) && call.ConfirmModule?
    ensures MayConfirm(env, who, w, call) <==>
              && OwnerMay(w, who, call.a) && (call.role, call.a) in w.book.updates
              && var pending := w.book.updates[(call.role, call.a)];
              && w.header.time >= pending.since + 86_400_000 && (pending.module_ != 0 ==> call.probe == Answer(true))
  {
    hide Inv, Configurable;
    GuardsExactly(w, who, call.a);
  }

  /** A recovery needs a running escape as old as the account's timelock says, and the owner. */
  lemma RecoveryGuards(env: Env, who: Caller, w: World, call: Call)
    requires Inv(w) && call.FinalizeEscape?
    ensures MayRecover(env, who, w, call) <==>
              && w.depth == 0 && call.a in w.book.accounts && !OnSale(w.book, call.a)
              && var state := w.book.accounts[call.a];
              && state.escapeAt > 0 && w.header.time >= state.escapeAt + 1000 * state.escapeTimelock
              && state.owner in who.witnesses && (call.verifier != 0 ==> call.probe == Answer(true))
  {
    hide Inv, Idle, Escrowed;
    IdleExactly(w, call.a);
    GuardsExactly(w, who, call.a);
  }

  /** An operation needs an account that is neither executing nor on sale, and fields within their limits. */
  lemma ExecutionGuards(w: World, who: Caller, a: Hash, plan: Plan)
    requires Inv(w)
    ensures MayExecute(w, a, plan) <==>
              && a != 0 && (Lock, a) !in w.contexts && a in w.book.accounts && !OnSale(w.book, a)
              && var op := plan.op;
              && op.target != 0 && 1 <= |op.name| <= 128 && op.argCount <= 64 && op.argBytes <= 4096 && op.signatureBytes <= 1024
              && 0 <= op.deadline < Pow256(32) && 0 <= op.nonce < Pow256(32)
  {
    hide Inv, Pow256, Escrowed;
    GuardsExactly(w, who, a);
  }

  /** It is admitted in time, under the next sequence of its channel, by the verifier or else the owner, and by the owner during an escape. */
  lemma AdmissionGuards(now: nat, who: Caller, b: Book, a: Hash, state: Account, plan: Plan)
    requires ValidOperation(plan.op)
    ensures Admissible(now, who, b, a, state, plan) <==>
              && now <= plan.op.deadline
              && plan.op.nonce % 0x1_0000_0000_0000_0000 == Get(b.nonces, (a, plan.op.nonce / 0x1_0000_0000_0000_0000), 0)
              && (state.verifier != 0 ==> plan.verdict == Answer(true))
              && (state.verifier == 0 || state.escapeAt > 0 ==> state.owner != 0 && state.owner in who.witnesses)
  {
    hide ValidOperation;
  }

  /** The wallet with the account's escape stopped. */
  function Stopping(w: World, a: Hash): World
    requires a in w.book.accounts
  {
    With(w, w.book.(accounts := w.book.accounts[a := w.book.accounts[a].(escapeAt := 0)]), EscapeCancelled(a))
  }

  /** The wallet with a sequence used. */
  function Using(w: World, a: Hash, channel: nat, sequence: nat): World {
    With(w, w.book.(nonces := w.book.nonces[(a, channel) := sequence + 1]), NonceConsumed(a, channel, sequence))
  }

  /** An admission stops a running escape, and then uses the operation's sequence: the upper 192 bits of its nonce are the channel. */
  lemma AdmissionWrites(env: Env, who: Caller, w: World, a: Hash, plan: Plan)
    requires ValidOperation(plan.op) && a in w.book.accounts
    ensures var o := Admit(env, who, w, a, w.book.accounts[a], plan);
            var stopped := if w.book.accounts[a].escapeAt == 0 then w else Stopping(w, a);
            o.exit.Done? ==> o.world == Using(stopped, a, plan.op.nonce / 0x1_0000_0000_0000_0000, plan.op.nonce % 0x1_0000_0000_0000_0000)
  {
    AdmissionEmits(env, who, w, a, plan);
    assert plan.op.nonce >= 0;
    hide ValidOperation, Emit, Admit, Stopping, Using;
    CancellationWritten(w, a);
    var stopped := if w.book.accounts[a].escapeAt == 0 then w else Stopping(w, a);
    UseWritten(stopped, a, plan.op.nonce / 0x1_0000_0000_0000_0000, plan.op.nonce % 0x1_0000_0000_0000_0000);
  }

  lemma AdmissionEmits(env: Env, who: Caller, w: World, a: Hash, plan: Plan)
    requires ValidOperation(plan.op) && a in w.book.accounts
    ensures var o := Admit(env, who, w, a, w.book.accounts[a], plan);
            var u := if w.book.accounts[a].escapeAt > 0 then Emit(w, EscapeCancelled(a)) else w;
            o.exit.Done? ==> o.world == Emit(u, NonceConsumed(a, Channel(plan.op.nonce), Sequence(plan.op.nonce)))
  {
    hide ValidOperation, Emit, NonceAcceptable, Authorize;
    WhatAuthorizes(who, w, w.book.accounts[a], plan.verdict);
  }

  lemma WhatAuthorizes(who: Caller, w: World, state: Account, verdict: Reply<bool>)
    ensures Authorize(who, w, state, verdict).exit.Done? ==> Authorize(who, w, state, verdict).world == w
  {
  }

  lemma CancellationWritten(w: World, a: Hash)
    requires a in w.book.accounts
    ensures Emit(w, EscapeCancelled(a)) == Stopping(w, a)
  {
  }

  lemma UseWritten(w: World, a: Hash, channel: nat, sequence: nat)
    ensures Emit(w, NonceConsumed(a, channel, sequence)) == Using(w, a, channel, sequence)
  {
  }

  /** A settlement needs the recorded market, naming the recorded listing and a buyer. */
  lemma SettlementGuards(who: Caller, w: World, call: Call)
    requires Inv(w) && call.SettleEscrow?
    ensures MaySettle(who, w, call) <==>
              && w.depth == 0 && call.a in w.book.accounts && OnSale(w.book, call.a)
              && who.script == w.book.markets[call.a] && call.listing == w.book.listings[call.a] && call.owner != 0
  {
    hide Inv, Idle;
    IdleExactly(w, call.a);
    MarketHasListing(w, call.a);
  }

  // ---------------------------------------------------------------------------
  // Rosters
  // ---------------------------------------------------------------------------

  /** The cleanups of `leaving`, first to last, each in the wallet that the one before it left. */
  predicate Cleanups(env: Env, role: Role, a: Hash, leaving: seq<Hash>, cleanups: seq<Behaviour>, ws: seq<World>) {
    && |cleanups| >= |leaving| && |ws| == |leaving| + 1
    && forall i | 0 <= i < |leaving| :: Cleanup(env, ws[i], role, a, leaving[i], cleanups[i]) == Finish(ws[i + 1])
  }

  ghost predicate CleanedInTurn(env: Env, w: World, role: Role, a: Hash, leaving: seq<Hash>, cleanups: seq<Behaviour>, v: World) {
    exists ws :: Cleanups(env, role, a, leaving, cleanups, ws) && ws[0] == w && ws[|leaving|] == v
  }

  lemma {:induction false} CleanAllIsInTurn(env: Env, w: World, role: Role, a: Hash, leaving: seq<Hash>, cleanups: seq<Behaviour>, v: World)
    requires CleanAll(env, w, role, a, leaving, cleanups) == Finish(v)
    ensures CleanedInTurn(env, w, role, a, leaving, cleanups, v)
    decreases |leaving|
  {
    hide Cleanup;
    if leaving == [] {
      assert Cleanups(env, role, a, leaving, cleanups, [w]);
    } else {
      var u := Cleanup(env, w, role, a, leaving[0], cleanups[0]).world;
      CleanAllIsInTurn(env, u, role, a, leaving[1..], cleanups[1..], v);
      var rest :| Cleanups(env, role, a, leaving[1..], cleanups[1..], rest) && rest[0] == u && rest[|leaving| - 1] == v;
      var ws := [w] + rest;
      forall i | 0 <= i < |leaving| ensures Cleanup(env, ws[i], role, a, leaving[i], cleanups[i]) == Finish(ws[i + 1]) {
        if i > 0 {
          assert ws[i] == rest[i - 1] && leaving[i] == leaving[1..][i - 1] && cleanups[i] == cleanups[1..][i - 1];
        }
      }
      assert Cleanups(env, role, a, leaving, cleanups, ws);
    }
  }

  lemma {:induction false} InTurnIsCleanAll(env: Env, role: Role, a: Hash, leaving: seq<Hash>, cleanups: seq<Behaviour>, ws: seq<World>)
    requires Cleanups(env, role, a, leaving, cleanups, ws)
    ensures CleanAll(env, ws[0], role, a, leaving, cleanups) == Finish(ws[|leaving|])
    decreases |leaving|
  {
    hide Cleanup;
    if leaving != [] {
      assert Cleanup(env, ws[0], role, a, leaving[0], cleanups[0]) == Finish(ws[1]);
      forall i | 0 <= i < |leaving[1..]|
        ensures Cleanup(env, ws[1..][i], role, a, leaving[1..][i], cleanups[1..][i]) == Finish(ws[1..][i + 1])
      {
        assert Cleanup(env, ws[i + 1], role, a, leaving[i + 1], cleanups[i + 1]) == Finish(ws[i + 2]);
      }
      InTurnIsCleanAll(env, role, a, leaving[1..], cleanups[1..], ws[1..]);
    }
  }

  lemma CleanAllExactly(env: Env, w: World, role: Role, a: Hash, leaving: seq<Hash>, cleanups: seq<Behaviour>, v: World)
    ensures CleanAll(env, w, role, a, leaving, cleanups) == Finish(v) <==> CleanedInTurn(env, w, role, a, leaving, cleanups, v)
  {
    hide CleanAll, Cleanup;
    if CleanAll(env, w, role, a, leaving, cleanups) == Finish(v) {
      CleanAllIsInTurn(env, w, role, a, leaving, cleanups, v);
    }
    if CleanedInTurn(env, w, role, a, leaving, cleanups, v) {
      var ws :| Cleanups(env, role, a, leaving, cleanups, ws) && ws[0] == w && ws[|leaving|] == v;
      InTurnIsCleanAll(env, role, a, leaving, cleanups, ws);
    }
  }

  /** The installed root asks, at rest or from its own configuration, while the account is not executing. */
  predicate RootAsks(w: World, who: Caller, role: Role, a: Hash) {
    && a != 0 && a in w.book.accounts && a !in w.maintenance && (Lock, a) !in w.contexts && (Target, a) !in w.contexts
    && ModuleOf(w.book.accounts[a], role) != 0 && who.script == ModuleOf(w.book.accounts[a], role)
    && (w.depth == 0 || FromItself(w, who, role, a))
  }

  predicate FromItself(w: World, who: Caller, role: Role, a: Hash) {
    w.depth == 1 && (Config(role), a) in w.contexts && w.contexts[(Config(role), a)] == who.script
  }

  /** The wallet with the account's maintenance lock taken, and with it given back. */
  function Taken(w: World, a: Hash): World {
    w.(maintenance := w.maintenance + {a})
  }

  function GivenBack(w: World, a: Hash): World {
    w.(maintenance := w.maintenance - {a})
  }

  /** The children of `previous` that are not in `children`, in the order of `previous`. */
  function Leaving(previous: seq<Hash>, children: seq<Hash>): seq<Hash> {
    if previous == [] then []
    else
      var (earlier, last) := (Leaving(previous[..|previous| - 1], children), previous[|previous| - 1]);
      if last in children then earlier else earlier + [last]
  }

  lemma {:induction false} RemovedAppend(previous: seq<Hash>, last: Hash, children: seq<Hash>)
    ensures Removed(previous + [last], children) == Removed(previous, children) + (if last in children then [] else [last])
  {
    if previous == [] {
      assert previous + [last] == [last] && [last][1..] == [];
    } else {
      assert (previous + [last])[1..] == previous[1..] + [last] && (previous + [last])[0] == previous[0];
      RemovedAppend(previous[1..], last, children);
    }
  }

  lemma {:induction false} RemovedExactly(previous: seq<Hash>, children: seq<Hash>)
    ensures Removed(previous, children) == Leaving(previous, children)
  {
    if previous != [] {
      var init, last := previous[..|previous| - 1], previous[|previous| - 1];
      assert previous == init + [last];
      RemovedExactly(init, children);
      RemovedAppend(init, last, children);
      assert Removed(init, children) + [] == Removed(init, children);
    }
  }

  /** An enrolment stores exactly the given roster, after the children that leave have been cleaned up in their stored order. */
  lemma EnrolmentExactly(env: Env, who: Caller, w: World, call: Call, v: World)
    requires call.SetDependencies?
    ensures var (role, a, children) := (call.role, call.a, call.children);
            var e := RosterSet(role, a, children, |w.log|);
            DoSetDependencies(env, who, w, call) == Finish(v) <==>
              && RootAsks(w, who, role, a) && !OnSale(w.book, a)
              && Enrollable(env, children, ModuleOf(w.book.accounts[a], role), call.cleanable)
              && exists u ::
                   && var stored := if (role, a) in w.book.rosters then w.book.rosters[(role, a)] else [];
                   && CleanedInTurn(env, Taken(w, a), role, a, Leaving(stored, children), call.cleanups, u)
                   && v == GivenBack(With(u, u.book.(rosters := u.book.rosters[(role, a) := children]), e), a)
  {
    hide CleanAll, CleanedInTurn, Emit, Apply, Removed, Leaving, Enrollable, Escrowed;
    var (role, a, children) := (call.role, call.a, call.children);
    if a in w.book.accounts {
      EnrollableExactly(env, children, ModuleOf(w.book.accounts[a], role), call.cleanable);
      EscrowExactly(w.book, a);
    }
    RemovedExactly(Get(w.book.rosters, (role, a), []), children);
    var leaving := Leaving(Get(w.book.rosters, (role, a), []), children);
    var o := CleanAll(env, Taken(w, a), role, a, leaving, call.cleanups);
    CleanAllExactly(env, Taken(w, a), role, a, leaving, call.cleanups, o.world);
    RosterSince(o.world, role, a, children, |w.log|);
    forall u ensures CleanedInTurn(env, Taken(w, a), role, a, leaving, call.cleanups, u) <==> o == Finish(u) {
      CleanAllExactly(env, Taken(w, a), role, a, leaving, call.cleanups, u);
    }
  }

  /** A clearing deletes the roster, the stored or else the reported one, after all of its children have been cleaned up in order. */
  lemma ClearingExactly(env: Env, who: Caller, w: World, call: Call, v: World)
    requires call.ClearDependencies?
    ensures var (role, a) := (call.role, call.a);
            DoClearDependencies(env, who, w, call) == Finish(v) <==>
              && RootAsks(w, who, role, a) && (OnSale(w.book, a) ==> FromItself(w, who, role, a))
              && ((role, a) in w.book.rosters || call.legacy.Answer?)
              && var children := if (role, a) in w.book.rosters then w.book.rosters[(role, a)] else call.legacy.value;
              && Enrollable(env, children, ModuleOf(w.book.accounts[a], role), call.cleanable)
              && exists u ::
                   && CleanedInTurn(env, Taken(w, a), role, a, children, call.cleanups, u)
                   && v == GivenBack(With(u, u.book.(rosters := u.book.rosters - {(role, a)}), RosterCleared(role, a, |w.log|)), a)
  {
    hide CleanAll, CleanedInTurn, Emit, Apply, Enrollable, Escrowed;
    var (role, a) := (call.role, call.a);
    EscrowExactly(w.book, a);
    if a in w.book.accounts && ((role, a) in w.book.rosters || call.legacy.Answer?) {
      var children := if (role, a) in w.book.rosters then w.book.rosters[(role, a)] else call.legacy.value;
      EnrollableExactly(env, children, ModuleOf(w.book.accounts[a], role), call.cleanable);
      var o := CleanAll(env, Taken(w, a), role, a, children, call.cleanups);
      RosterSince(o.world, role, a, children, |w.log|);
      forall u ensures CleanedInTurn(env, Taken(w, a), role, a, children, call.cleanups, u) <==> o == Finish(u) {
        CleanAllExactly(env, Taken(w, a), role, a, children, call.cleanups, u);
      }
    }
  }

  lemma EscrowExactly(b: Book, a: Hash)
    ensures Escrowed(b, a) <==> OnSale(b, a)
  {
  }

  lemma RosterSince(w: World, role: Role, a: Hash, children: seq<Hash>, since: nat)
    ensures Emit(w, RosterSet(role, a, children, since))
         == With(w, w.book.(rosters := w.book.rosters[(role, a) := children]), RosterSet(role, a, children, since))
    ensures Emit(w, RosterCleared(role, a, since))
         == With(w, w.book.(rosters := w.book.rosters - {(role, a)}), RosterCleared(role, a, since))
  {
  }
}
