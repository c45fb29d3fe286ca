/**
 The durable records of the wallet, the events that change them, and the guard under which each
 event is legal.

 `Book` is the wallet's per-account storage without its transient execution markers.  The reentrant
 machine (module Machine) writes the book only by applying an event and appending it to its log, so
 a log replays to the book.  `Legal` is a sequential protocol in which there is no nesting and no
 callback: that every log of the reentrant machine obeys it is the main theorem of module Soundness,
 and what the protocol implies over whole runs is proved in module Journal.
 */
module Records {
  import opened Bytes
  import opened Values

  /** A script hash; 0 is UInt160.Zero. */
  type Hash = nat

  /** The two kinds of module an account has. */
  datatype Role = Verifier | Hook

  const DAY_MS: nat := 24 * 60 * 60 * 1000
  const CONFIG_TIMELOCK_MS: nat := DAY_MS
  const ESCAPE_COOLDOWN_MS: nat := 60 * 60 * 1000
  const RECLAIM_TIMELOCK_MS: nat := 7 * DAY_MS
  const MIN_ESCAPE_TIMELOCK_S: nat := 604800
  const MAX_ESCAPE_TIMELOCK_S: nat := 7776000
  const MAX_DEPENDENCIES: nat := 10
  const TWO_64: nat := 0x1_0000_0000_0000_0000
  const VM_MAX: nat := 0x7FFF_FFFF_FFFF_FFFF_FFFF_FFFF_FFFF_FFFF_FFFF_FFFF_FFFF_FFFF_FFFF_FFFF_FFFF_FFFF

  datatype Account = Account(verifier: Hash, hook: Hash, owner: Hash, escapeTimelock: nat, escapeAt: nat)

  function Pointer(acc: Account, role: Role): Hash {
    if role.Verifier? then acc.verifier else acc.hook
  }

  function WithPointer(acc: Account, role: Role, module_: Hash): Account {
    if role.Verifier? then acc.(verifier := module_) else acc.(hook := module_)
  }

  /** Everything but the escape timer. */
  predicate SameAuthority(a: Account, b: Account) {
    a.(escapeAt := 0) == b.(escapeAt := 0)
  }

  datatype PendingUpdate = PendingUpdate(module_: Hash, params: seq<Byte>, since: nat)

  /** An argument of a maintenance call; `TopologyHash` is the hash of an ordered roster and its threshold. */
  datatype Argument =
    | Raw(value: Value)
    | ScriptHash(hash: Hash)
    | Name(name: string)
    | Arguments(args: seq<Argument>)
    | TopologyHash(children: seq<Hash>, threshold: int)

  /** The hash of a method and its arguments; SHA-256 is taken to be collision-free. */
  datatype Digest = Sha256(name: string, args: seq<Argument>)

  datatype PendingCall = PendingCall(module_: Hash, digest: Digest, since: nat)

  /** The reimbursement reservation shared by one transaction. */
  datatype Budget = Budget(tx: nat, reserved: nat)

  datatype Book = Book(
    accounts: map<Hash, Account>,
    nonces: map<(Hash, nat), nat>,
    updates: map<(Role, Hash), PendingUpdate>,
    calls: map<(Role, Hash), PendingCall>,
    rosters: map<(Role, Hash), seq<Hash>>,
    markets: map<Hash, Hash>,
    listings: map<Hash, nat>,
    reclaims: map<Hash, nat>,
    escapes: map<Hash, nat>,
    bindings: map<Hash, seq<Byte>>,
    budget: Option<Budget>)

  const EMPTY_BOOK: Book :=
    Book(map[], map[], map[], map[], map[], map[], map[], map[], map[], map[], None)

  function Get<K, V>(m: map<K, V>, k: K, default: V): V {
    if k in m then m[k] else default
  }

  function Min(x: int, y: int): int {
    if x <= y then x else y
  }

  function Max(x: int, y: int): int {
    if x >= y then x else y
  }

  predicate Escrowed(b: Book, a: Hash) {
    Get(b.markets, a, 0) != 0 && Get(b.listings, a, 0) > 0
  }

  /**
   The notifications.  `record` is the account record as the operation had loaded it, `since` the
   length of the log when the operation began, `time` the block time, and `view` the position of the
   module's first view of the wallet during its cleanup.
   */
  datatype Event =
    | Registered(a: Hash, record: Account, binding: seq<Byte>)
    | OwnerRotated(a: Hash, owner: Hash)
    | Installed(role: Role, a: Hash, module_: Hash)
    | UpdateRequested(role: Role, a: Hash, module_: Hash, params: seq<Byte>, time: nat)
    | UpdateDropped(role: Role, a: Hash)
    | UpdateConfirmed(role: Role, a: Hash, record: Account, module_: Hash, since: nat, time: nat)
    | CallStaged(role: Role, a: Hash, module_: Hash, digest: Digest, time: nat)
    | CallConfirmed(role: Role, a: Hash, module_: Hash, digest: Digest, time: nat)
    | RosterSet(role: Role, a: Hash, children: seq<Hash>, since: nat)
    | RosterCleared(role: Role, a: Hash, since: nat)
    | Cleaned(role: Role, a: Hash, module_: Hash, view: nat)
    | EscapeInitiated(a: Hash, time: nat)
    | EscapeCancelled(a: Hash)
    | EscapeFinalized(a: Hash, record: Account, verifier: Hash, since: nat, time: nat)
    | EscapeSwept(a: Hash)
    | EscrowEntered(a: Hash, market: Hash, listing: nat)
    | ReclaimInitiated(a: Hash, time: nat)
    | EscrowCancelled(a: Hash)
    | EscrowReclaimed(a: Hash, time: nat)
    | EscrowSettled(a: Hash, record: Account, owner: Hash, since: nat)
    | NonceConsumed(a: Hash, channel: nat, sequence: nat)
    | Reserved(tx: nat, cost: nat, requested: nat, settled: nat)

  /** What transaction `tx` has reserved; another transaction's reservation does not count. */
  function ReservedBy(b: Book, tx: nat): nat {
    if b.budget.Some? && b.budget.value.tx == tx then b.budget.value.reserved else 0
  }

  // What each event writes, storage prefix by storage prefix.

  function AccountsAfter(m: map<Hash, Account>, e: Event): map<Hash, Account> {
    match e
    case Registered(a, record, _) => m[a := record]
    case OwnerRotated(a, owner) => if a in m then m[a := m[a].(owner := owner)] else m
    case Installed(role, a, module_) => if a in m then m[a := WithPointer(m[a], role, module_)] else m
    case UpdateConfirmed(role, a, record, module_, _, _) => m[a := WithPointer(record, role, module_)]
    case EscapeInitiated(a, time) => if a in m then m[a := m[a].(escapeAt := time)] else m
    case EscapeCancelled(a) => if a in m then m[a := m[a].(escapeAt := 0)] else m
    case EscapeFinalized(a, record, verifier, _, _) => m[a := record.(verifier := verifier, hook := 0, escapeAt := 0)]
    case EscrowSettled(a, record, owner, _) => m[a := record.(owner := owner, verifier := 0, hook := 0, escapeAt := 0)]
    case _ => m
  }

  function NoncesAfter(m: map<(Hash, nat), nat>, e: Event): map<(Hash, nat), nat> {
    match e
    case NonceConsumed(a, channel, sequence) => m[(a, channel) := sequence + 1]
    case _ => m
  }

  function UpdatesAfter(m: map<(Role, Hash), PendingUpdate>, e: Event): map<(Role, Hash), PendingUpdate> {
    match e
    case UpdateRequested(role, a, module_, params, time) => m[(role, a) := PendingUpdate(module_, params, time)]
    case UpdateDropped(role, a) => m - {(role, a)}
    case EscapeSwept(a) => m - {(Verifier, a), (Hook, a)}
    case EscrowSettled(a, _, _, _) => m - {(Verifier, a), (Hook, a)}
    case _ => m
  }

  function CallsAfter(m: map<(Role, Hash), PendingCall>, e: Event): map<(Role, Hash), PendingCall> {
    match e
    case CallStaged(role, a, module_, digest, time) => m[(role, a) := PendingCall(module_, digest, time)]
    case CallConfirmed(role, a, _, _, _) => m - {(role, a)}
    case EscapeSwept(a) => m - {(Verifier, a), (Hook, a)}
    case EscrowSettled(a, _, _, _) => m - {(Verifier, a), (Hook, a)}
    case _ => m
  }

  function RostersAfter(m: map<(Role, Hash), seq<Hash>>, e: Event): map<(Role, Hash), seq<Hash>> {
    match e
    case RosterSet(role, a, children, _) => m[(role, a) := children]
    case RosterCleared(role, a, _) => m - {(role, a)}
    case _ => m
  }

  /** The events that end an account's escrow. */
  predicate EndsEscrow(e: Event) {
    e.EscrowCancelled? || e.EscrowReclaimed? || e.EscrowSettled?
  }

  function MarketsAfter(m: map<Hash, Hash>, e: Event): map<Hash, Hash> {
    if e.EscrowEntered? then m[e.a := e.market] else if EndsEscrow(e) then m - {e.a} else m
  }

  function ListingsAfter(m: map<Hash, nat>, e: Event): map<Hash, nat> {
    if e.EscrowEntered? then m[e.a := e.listing] else if EndsEscrow(e) then m - {e.a} else m
  }

  function ReclaimsAfter(m: map<Hash, nat>, e: Event): map<Hash, nat> {
    if e.ReclaimInitiated? then m[e.a := e.time] else if EndsEscrow(e) then m - {e.a} else m
  }

  function EscapesAfter(m: map<Hash, nat>, e: Event): map<Hash, nat> {
    if e.EscapeInitiated? then m[e.a := e.time] else if e.EscapeSwept? || e.EscrowSettled? then m - {e.a} else m
  }

  function BindingsAfter(m: map<Hash, seq<Byte>>, e: Event): map<Hash, seq<Byte>> {
    if e.Registered? && e.binding != [] then m[e.a := e.binding] else m
  }

  function BudgetAfter(b: Book, e: Event): Option<Budget> {
    if e.Reserved? then Some(Budget(e.tx, ReservedBy(b, e.tx) + e.settled)) else b.budget
  }

  /** The effect of an event on the book. */
  function Apply(b: Book, e: Event): Book {
    Book(AccountsAfter(b.accounts, e), NoncesAfter(b.nonces, e), UpdatesAfter(b.updates, e), CallsAfter(b.calls, e),
         RostersAfter(b.rosters, e), MarketsAfter(b.markets, e), ListingsAfter(b.listings, e), ReclaimsAfter(b.reclaims, e),
         EscapesAfter(b.escapes, e), BindingsAfter(b.bindings, e), BudgetAfter(b, e))
  }

  function Replay(log: seq<Event>): Book {
    if log == [] then EMPTY_BOOK else Apply(Replay(log[..|log| - 1]), log[|log| - 1])
  }

  // ---------------------------------------------------------------------------
  // The sequential protocol
  // ---------------------------------------------------------------------------

  /** The wallet itself completed `clearAccount` on `m` for (role, a) after position `since`. */
  ghost predicate CleanedSince(past: seq<Event>, since: nat, role: Role, a: Hash, m: Hash) {
    exists i :: since <= i < |past| && IsCleanup(past[i], role, a, m)
  }

  predicate IsCleanup(e: Event, role: Role, a: Hash, m: Hash) {
    e.Cleaned? && e.role == role && e.a == a && e.module_ == m
  }

  /** A root pointer that is about to change was zero or has been cleaned up. */
  ghost predicate RootCleaned(past: seq<Event>, since: nat, role: Role, a: Hash, record: Account) {
    Pointer(record, role) == 0 || CleanedSince(past, since, role, a, Pointer(record, role))
  }

  /** The loaded record still carries the account's authority. */
  predicate Current(b: Book, a: Hash, record: Account) {
    a in b.accounts && SameAuthority(b.accounts[a], record)
  }

  predicate Distinct(s: seq<Hash>) {
    forall i, j | 0 <= i < j < |s| :: s[i] != s[j]
  }

  /** Under which guard an event may follow `past`, whose replay is `b`. */
  ghost predicate Legal(b: Book, past: seq<Event>, e: Event) {
    match e
    case Registered(a, record, _) =>
      && a != 0 && a !in b.accounts && record.owner != 0 && record.escapeAt == 0
      && MIN_ESCAPE_TIMELOCK_S <= record.escapeTimelock <= MAX_ESCAPE_TIMELOCK_S
    case OwnerRotated(a, owner) =>
      a in b.accounts && a in b.bindings && owner != 0 && !Escrowed(b, a) && b.accounts[a].escapeAt == 0
    case Installed(role, a, _) => a in b.accounts && Pointer(b.accounts[a], role) == 0 && !Escrowed(b, a)
    case UpdateRequested(role, a, _, _, _) =>
      && a in b.accounts && Pointer(b.accounts[a], role) != 0 && !Escrowed(b, a)
      && (role, a) !in b.updates
    case UpdateDropped(_, _) => true
    case UpdateConfirmed(role, a, record, m, since, time) =>
      && Current(b, a, record) && !Escrowed(b, a)
      && (record.escapeAt == 0 || EscapeStartedAt(past, a, record.escapeAt))
      && (role, a) in b.updates && b.updates[(role, a)].module_ == m
      && time >= b.updates[(role, a)].since + CONFIG_TIMELOCK_MS
      && RootCleaned(past, since, role, a, record)
    case CallStaged(role, a, m, _, _) =>
      && a in b.accounts && m != 0 && Pointer(b.accounts[a], role) == m && !Escrowed(b, a)
    case CallConfirmed(role, a, m, digest, time) =>
      && a in b.accounts && m != 0 && Pointer(b.accounts[a], role) == m && !Escrowed(b, a)
      && (role, a) in b.calls
      && b.calls[(role, a)].module_ == m && b.calls[(role, a)].digest == digest
      && time >= b.calls[(role, a)].since + CONFIG_TIMELOCK_MS
    case RosterSet(role, a, children, since) =>
      && Distinct(children) && |children| <= MAX_DEPENDENCIES && 0 !in children
      && forall c | c in Get(b.rosters, (role, a), []) && c !in children :: CleanedSince(past, since, role, a, c)
    case RosterCleared(role, a, since) =>
      forall c | c in Get(b.rosters, (role, a), []) :: CleanedSince(past, since, role, a, c)
    case Cleaned(_, _, _, _) => true
    case EscapeInitiated(a, time) =>
      && a in b.accounts && b.accounts[a].owner != 0 && !Escrowed(b, a)
      && (a in b.escapes ==> time >= b.escapes[a] + ESCAPE_COOLDOWN_MS)
    case EscapeCancelled(a) => a in b.accounts && b.accounts[a].escapeAt > 0 && !Escrowed(b, a)
    case EscapeFinalized(a, record, _, since, time) =>
      && Current(b, a, record) && !Escrowed(b, a)
      && record.escapeAt > 0 && EscapeStartedAt(past, a, record.escapeAt)
      && time >= record.escapeAt + record.escapeTimelock * 1000
      && RootCleaned(past, since, Verifier, a, record) && RootCleaned(past, since, Hook, a, record)
    case EscapeSwept(_) => true
    case EscrowEntered(a, market, listing) =>
      a in b.accounts && !Escrowed(b, a) && market != 0 && listing > 0
    case ReclaimInitiated(a, _) => a in b.accounts && Escrowed(b, a)
    case EscrowCancelled(a) => Get(b.markets, a, 0) != 0
    case EscrowReclaimed(a, time) =>
      a in b.accounts && Escrowed(b, a) && a in b.reclaims && time >= b.reclaims[a] + RECLAIM_TIMELOCK_MS
    case EscrowSettled(a, record, owner, since) =>
      && Current(b, a, record) && Get(b.markets, a, 0) != 0 && owner != 0
      && RootCleaned(past, since, Verifier, a, record) && RootCleaned(past, since, Hook, a, record)
    case NonceConsumed(a, channel, sequence) =>
      && a in b.accounts && !Escrowed(b, a)
      && sequence == Get(b.nonces, (a, channel), 0) && sequence < TWO_64
    case Reserved(tx, cost, requested, settled) =>
      var sofar := ReservedBy(b, tx);
      && settled > 0 && sofar + settled <= VM_MAX
      && settled == if cost == 0 then requested else Min(requested, cost - sofar)
  }

  /** The account's escape was initiated at `time`. */
  ghost predicate EscapeStartedAt(past: seq<Event>, a: Hash, time: nat) {
    exists i :: 0 <= i < |past| && past[i] == EscapeInitiated(a, time)
  }

  ghost predicate LegalLog(log: seq<Event>) {
    log != [] ==>
      var past := log[..|log| - 1];
      LegalLog(past) && Legal(Replay(past), past, log[|log| - 1])
  }
}
