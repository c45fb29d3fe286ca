/**
 Two short histories.  In the first a confirmed rotation starts an escape again that an operation had just
 cancelled, so the exception in module Cancellation is reachable.  In the second, on a platform where a
 throw keeps the writes made before it, a pending hook update survives the hook, so the assumption of
 module Pending is needed.
 */
module Scenarios {
  import opened Values
  import opened Records
  import opened Machine
  import opened Guarantee
  import opened Soundness
  import opened Runs
  import opened Rotation
  import opened Cancellation
  import opened Callbacks
  import DailyLedger
  import opened DailyLimit
  import opened Sessions
  import opened Metering
  import opened Nesting

  const START: nat := 1000
  const OWNER: Caller := Caller(7, {7})
  const STATE: Account := Account(11, 12, 7, MIN_ESCAPE_TIMELOCK_S, 0)

  /** A platform whose throws drop writes or not. */
  function On(drops: bool): Env {
    Env(100, 200, drops)
  }

  // ---------------------------------------------------------------------------
  // An account with both modules, a requested rotation, and an escape running
  // ---------------------------------------------------------------------------

  const REGISTRATION: Call :=
    Register(1, 11, [], 12, 7, MIN_ESCAPE_TIMELOCK_S, 1, Answer(true), Answer(true), Return)

  function Request(role: Role): Call {
    UpdateModule(role, 1, 13, [], Answer(true), Return)
  }

  function Opening(role: Role): Transaction {
    Transaction(On(true), Header(1, 0, START),
      Invoke(OWNER, REGISTRATION, false, Invoke(OWNER, Request(role), false, Invoke(OWNER, InitiateEscape(1), false, Return))))
  }

  predicate AtRest(w: World) {
    w.depth == 0 && w.contexts == map[]
  }

  lemma Registers(w: World)
    requires AtRest(w) && w.book == EMPTY_BOOK
    ensures Enter(On(true), OWNER, w, REGISTRATION) == Finish(Emit(w, Registered(1, STATE, [])))
  {
    hide Apply;
    assert DoRegister(On(true), OWNER, w, REGISTRATION) == Finish(Emit(w, Registered(1, STATE, [])));
  }

  lemma Requests(role: Role, w: World)
    requires AtRest(w) && w.header.time == START && 1 in w.book.accounts && w.book.accounts[1] == STATE && 1 !in w.book.markets && (role, 1) !in w.book.updates
    ensures Enter(On(true), OWNER, w, Request(role)) == Finish(Emit(w, UpdateRequested(role, 1, 13, [], START)))
  {
    hide Apply;
    assert DoUpdateModule(On(true), OWNER, w, Request(role)) == Finish(Emit(w, UpdateRequested(role, 1, 13, [], START)));
  }

  lemma Initiates(w: World)
    requires AtRest(w) && w.header.time == START && 1 in w.book.accounts && w.book.accounts[1] == STATE && 1 !in w.book.markets && 1 !in w.book.escapes
    ensures Enter(On(true), OWNER, w, InitiateEscape(1)) == Finish(Emit(w, EscapeInitiated(1, START)))
  {
    hide Apply;
    assert DoInitiateEscape(On(true), OWNER, w, InitiateEscape(1)) == Finish(Emit(w, EscapeInitiated(1, START)));
  }

  /** A call that returned, and what follows it. */
  lemma Continues(env: Env, w: World, who: Caller, call: Call, rest: Behaviour, v: World)
    requires Enter(env, who, Look(w), call) == Finish(v)
    ensures Perform(env, w, Invoke(who, call, false, rest)) == Perform(env, v, rest)
  {
    hide Enter;
  }

  function OpenedBook(role: Role): Book {
    EMPTY_BOOK.(
      accounts := map[1 := STATE.(escapeAt := START)],
      updates := map[(role, 1) := PendingUpdate(13, [], START)],
      escapes := map[1 := START])
  }

  lemma BookAfterOpening(role: Role)
    ensures var b1 := Apply(EMPTY_BOOK, Registered(1, STATE, []));
            var b2 := Apply(b1, UpdateRequested(role, 1, 13, [], START));
            && b1 == EMPTY_BOOK.(accounts := map[1 := STATE])
            && b2 == EMPTY_BOOK.(accounts := map[1 := STATE], updates := map[(role, 1) := PendingUpdate(13, [], START)])
            && Apply(b2, EscapeInitiated(1, START)) == OpenedBook(role)
  {
  }

  lemma OpeningEnds(role: Role)
    ensures var v := Transact(GENESIS, Opening(role));
            v.book == OpenedBook(role) && AtRest(v) && v.maintenance == {}
  {
    hide Apply, Enter, Perform;
    var (env, w) := (On(true), GENESIS.(header := Header(1, 0, START)));
    BookAfterOpening(role);
    var u0 := Look(w);
    Registers(u0);
    var u1 := Look(Emit(u0, Registered(1, STATE, [])));
    Requests(role, u1);
    var u2 := Look(Emit(u1, UpdateRequested(role, 1, 13, [], START)));
    Initiates(u2);
    var v := Emit(u2, EscapeInitiated(1, START));
    var last := Invoke(OWNER, InitiateEscape(1), false, Return);
    Continues(env, Emit(u1, UpdateRequested(role, 1, 13, [], START)), OWNER, InitiateEscape(1), Return, v);
    Continues(env, Emit(u0, Registered(1, STATE, [])), OWNER, Request(role), last, Emit(u1, UpdateRequested(role, 1, 13, [], START)));
    Continues(env, w, OWNER, REGISTRATION, Invoke(OWNER, Request(role), false, last), Emit(u0, Registered(1, STATE, [])));
    Returns(env, v);
  }

  lemma Returns(env: Env, w: World)
    ensures Perform(env, w, Return) == Finish(Look(w))
  {
  }

  // ---------------------------------------------------------------------------
  // A cancelled escape that is running again
  // ---------------------------------------------------------------------------

  /** A day later the owner confirms the rotation; the old module, asked to clean up, has an operation executed. */
  function Confirmation(role: Role): Transaction {
    var now := START + CONFIG_TIMELOCK_MS;
    Transaction(On(true), Header(2, 0, now), Invoke(OWNER, Overwriting(now, OWNER, role, 1, 0), false, Return))
  }

  /** The operation cancelled the escape during the confirmation, and after it the escape is running as before. */
  lemma CancelledEscapeRestarts(role: Role)
    ensures var (before, after) := (History([Opening(role)]), History([Opening(role), Confirmation(role)]));
            && 1 in before.book.accounts && before.book.accounts[1].escapeAt == START
            && Stopped(after.log, |before.log|, 1)
            && 1 in after.book.accounts && after.book.accounts[1].escapeAt == START
  {
    hide Enter, Perform, Escrowed, Stopped, CanOperate, Inv, Idle;
    var t := Confirmation(role);
    var env := t.env;
    TwoTransactions(Opening(role), t);
    var before := History([Opening(role)]);
    OpeningEnds(role);
    HistoriesAreLegal([Opening(role)]);
    var w := before.(header := t.header);
    var u := Look(w);
    HeaderKeepsInv(before, t.header);
    LookSound(w, 0);
    ConfirmationIsDue(env, u, role);
    OverwritingRestarts(env, OWNER, u, role, 1, 0);
    var call := Overwriting(u.header.time, OWNER, role, 1, 0);
    var o := DoConfirmModule(env, OWNER, u, call);
    ConfirmationCalled(env, OWNER, u, call);
    Continues(env, w, OWNER, call, Return, o.world);
    Returns(env, o.world);
  }

  lemma TwoTransactions(s: Transaction, t: Transaction)
    ensures History([s]) == Transact(GENESIS, s) && History([s, t]) == Transact(History([s]), t)
  {
    hide Transact;
    assert [s][..0] == [] && [s, t][..1] == [s];
  }

  lemma ConfirmationIsDue(env: Env, w: World, role: Role)
    requires w.book == OpenedBook(role) && AtRest(w) && w.header.time == START + CONFIG_TIMELOCK_MS
    ensures Confirmable(env, OWNER, w, role, 1) && CanOperate(w.header.time, w.book, 1, 0)
  {
  }

  lemma ConfirmationCalled(env: Env, who: Caller, w: World, call: Call)
    requires call.ConfirmModule? && DoConfirmModule(env, who, w, call).exit.Done?
    ensures Enter(env, who, w, call) == DoConfirmModule(env, who, w, call)
  {
    hide DoConfirmModule;
  }

  // ---------------------------------------------------------------------------
  // A pending update behind a removed hook
  // ---------------------------------------------------------------------------

  const RECOVERY: Call := FinalizeEscape(1, 14, [1], Answer(true), Return, Return, Throw)

  /** After the timelock the owner finalizes the escape; the new verifier's set-up throws and the caller carries on. */
  function Recovery(drops: bool): Transaction {
    Transaction(On(drops), Header(2, 0, START + MIN_ESCAPE_TIMELOCK_S * 1000), Invoke(OWNER, RECOVERY, true, Return))
  }

  lemma CleaningChangesNoRecord(env: Env, w: World, role: Role, a: Hash, m: Hash)
    requires m != 0
    ensures var o := CleanRoot(env, w, role, a, m, Return);
            o.exit.Done? && o.world.book == w.book
  {
    var inside := SetContext(w, Config(role), a, m);
    QuietCallee(env, inside);
    assert Within(env, w, Config(role), a, m, Return) == Finally(Finish(Look(inside)), Config(role), a);
    assert CleanRoot(env, w, role, a, m, Return) == Cleanup(env, w, role, a, m, Return);
    CleanedChangesNothing(w.book, Cleaned(role, a, m, |w.views|));
  }

  lemma CleanedChangesNothing(b: Book, e: Event)
    requires e.Cleaned?
    ensures Apply(b, e) == b
  {
  }

  lemma ThrowingSetUp(env: Env, w: World)
    requires !env.throwDropsWrites
    ensures var o := SetUp(env, w, 1, 14, [1], Throw);
            o.exit.Thrown? && o.world.book == w.book
  {
    var inside := SetContext(w, Config(Verifier), 1, 14);
    assert Perform(env, inside, Throw) == Outcome(Look(inside), Thrown);
    assert External(env, inside, Throw) == Outcome(Look(inside), Thrown);
    assert Within(env, w, Config(Verifier), 1, 14, Throw) == Finally(Outcome(Look(inside), Thrown), Config(Verifier), 1);
  }

  lemma RecoveryThrows(env: Env, w: World)
    requires w.book == OpenedBook(Hook) && AtRest(w) && env == Recovery(false).env && w.header == Recovery(false).header
    ensures var o := Enter(env, OWNER, w, RECOVERY);
            o.exit.Thrown? && 1 in o.world.book.accounts && o.world.book.accounts[1].hook == 0 && (Hook, 1) in o.world.book.updates
  {
    hide Apply, CleanRoot, SetUp;
    var record := w.book.accounts[1];
    CleaningChangesNoRecord(env, w, Verifier, 1, 11);
    var w2 := CleanRoot(env, w, Verifier, 1, 11, Return).world;
    CleaningChangesNoRecord(env, w2, Hook, 1, 12);
    var w3 := CleanRoot(env, w2, Hook, 1, 12, Return).world;
    var e := EscapeFinalized(1, record, 14, |w.log|, w.header.time);
    RecoveredBook(w3.book, e);
    ThrowingSetUp(env, Emit(w3, e));
    assert DoFinalizeEscape(env, OWNER, w, RECOVERY) == SetUp(env, Emit(w3, e), 1, 14, [1], Throw);
  }

  lemma RecoveredBook(b: Book, e: Event)
    requires b == OpenedBook(Hook) && e.EscapeFinalized? && e.a == 1
    ensures var c := Apply(b, e);
            1 in c.accounts && c.accounts[1].hook == 0 && (Hook, 1) in c.updates
  {
  }

  /** If the throw keeps its writes, the hook is gone and its replacement is still pending. */
  lemma UnbackedWithoutDrops()
    ensures var b := History([Opening(Hook), Recovery(false)]).book;
            1 in b.accounts && b.accounts[1].hook == 0 && (Hook, 1) in b.updates
  {
    hide Enter, Perform, Apply, Transact;
    TwoTransactions(Opening(Hook), Recovery(false));
    OpeningEnds(Hook);
    var env, w := Recovery(false).env, History([Opening(Hook)]).(header := Recovery(false).header);
    RecoveryThrows(env, Look(w));
    var v := Enter(env, OWNER, Look(w), RECOVERY).world;
    Catches(env, w, v);
    Commits(History([Opening(Hook)]), Recovery(false), v);
  }

  lemma Catches(env: Env, w: World, v: World)
    requires Enter(env, OWNER, Look(w), RECOVERY) == Outcome(v, Thrown)
    ensures Perform(env, w, Invoke(OWNER, RECOVERY, true, Return)) == Finish(Look(v))
  {
    hide Enter;
    Returns(env, v);
  }

  lemma Commits(w: World, t: Transaction, v: World)
    requires Perform(t.env, w.(header := t.header), t.script) == Finish(Look(v))
    ensures Transact(w, t) == Look(v)
  {
    hide Perform;
  }

  // ---------------------------------------------------------------------------
  // Fewer context keys than the depth counter says
  // ---------------------------------------------------------------------------

  const ROOT: Caller := Caller(11, {})
  const ENROLS: Call := SetDependencies(Verifier, 1, [21], {21}, [])
  const DISMISSES: Call := SetDependencies(Verifier, 1, [], {}, [Return])
  const MAINTAINS: Behaviour := Invoke(ROOT, ENROLS, false, Invoke(ROOT, DISMISSES, false, Return))
  const INSTALLATION: Call := Register(1, 11, [1], 0, 7, MIN_ESCAPE_TIMELOCK_S, 1, Answer(true), Answer(true), MAINTAINS)

  /** A verifier that, while it is set up, enrols a child and lets it go again. */
  const INSTALLING: Transaction := Transaction(On(true), Header(1, 0, START), Invoke(OWNER, INSTALLATION, false, Return))

  /** The root is configuring itself, and nothing else is going on. */
  predicate InSetUp(w: World) {
    && w.depth == 1 && w.contexts == map[(Config(Verifier), 1) := 11] && w.maintenance == {} && 1 !in w.book.markets
    && w.book.accounts == map[1 := Account(11, 0, 7, MIN_ESCAPE_TIMELOCK_S, 0)]
  }

  lemma RosterAfter(b: Book, children: seq<Hash>, since: nat)
    ensures Apply(b, RosterSet(Verifier, 1, children, since)) == b.(rosters := b.rosters[(Verifier, 1) := children])
  {
  }

  /** The lock is given back. */
  lemma Releases(w: World, v: World)
    requires w.maintenance == {} && v.maintenance == Acquire(w, 1).maintenance
    ensures Release(Finish(v), 1) == Finish(v.(maintenance := w.maintenance))
  {
  }

  lemma Enrols(w: World)
    requires InSetUp(w) && w.book.rosters == map[]
    ensures var v := Emit(w, RosterSet(Verifier, 1, [21], |w.log|));
            Enter(On(true), ROOT, w, ENROLS) == Finish(v) && InSetUp(v) && v.book.rosters == map[(Verifier, 1) := [21]]
  {
    hide Apply, Acquire, Release;
    var env, v, e := On(true), Acquire(w, 1), RosterSet(Verifier, 1, [21], |w.log|);
    RosterAfter(w.book, [21], |w.log|);
    AcquireOnly(w);
    Releases(w, Emit(v, e));
    RootMayMaintain(w);
    assert CleanAll(env, v, Verifier, 1, [], []) == Finish(v);
    assert ReplaceRoster(env, v, Verifier, 1, [21], ENROLS) == Finish(Emit(v, e));
    assert DoSetDependencies(env, ROOT, w, ENROLS) == Finish(Emit(w, e));
  }

  lemma RootMayMaintain(w: World)
    requires InSetUp(w)
    ensures ValidDependencyCall(w, ROOT, Verifier, 1, false)
    ensures ValidChildren(On(true), [21], 11, {21}) && ValidChildren(On(true), [], 11, {})
  {
    assert Distinct([21]);
    assert InRootContext(w, Verifier, 1, 11);
  }

  lemma AcquireOnly(w: World)
    ensures Acquire(w, 1) == w.(maintenance := Acquire(w, 1).maintenance)
  {
  }

  lemma DismissalCleansUp(env: Env, w: World)
    requires w.depth == 1 && w.contexts == map[(Config(Verifier), 1) := 11]
    ensures var o := CleanAll(env, w, Verifier, 1, [21], [Return]);
            && o.exit.Done? && o.world.contexts == map[] && o.world.depth == 1 && o.world.maintenance == w.maintenance
            && o.world.views == w.views + [View(w.book, map[(Config(Verifier), 1) := 21], 2, |w.log|, true, None)]
  {
    hide Apply;
    var inside := SetContext(w, Config(Verifier), 1, 21);
    QuietCallee(env, inside);
    assert inside.contexts == map[(Config(Verifier), 1) := 21];
    assert inside.contexts - {(Config(Verifier), 1)} == map[];
    assert Within(env, w, Config(Verifier), 1, 21, Return) == Finally(Finish(Look(inside)), Config(Verifier), 1);
    var first := Cleanup(env, w, Verifier, 1, 21, Return);
    assert [21][1..] == [] && [Return][1..] == [];
    assert CleanAll(env, first.world, Verifier, 1, [], []) == first;
    assert CleanAll(env, w, Verifier, 1, [21], [Return]) == first;
  }

  /** The child sees its own key in place of the root's; when it is gone there is no key left, at depth one. */
  lemma Dismisses(w: World)
    requires InSetUp(w) && w.book.rosters == map[(Verifier, 1) := [21]]
    ensures var o := Enter(On(true), ROOT, w, DISMISSES);
            && o.exit.Done? && o.world.contexts == map[] && o.world.depth == 1
            && o.world.views == w.views + [View(w.book, map[(Config(Verifier), 1) := 21], 2, |w.log|, true, None)]
  {
    hide Apply, Acquire, Release, CleanAll;
    var env, v := On(true), Acquire(w, 1);
    AcquireOnly(w);
    DismissalCleansUp(env, v);
    var cleaned := CleanAll(env, v, Verifier, 1, [21], [Return]).world;
    var e := RosterSet(Verifier, 1, [], |w.log|);
    Releases(w, Emit(cleaned, e));
    RootMayMaintain(w);
    assert Removed([21], []) == [21] + Removed([21][1..], []);
    assert Removed([21], []) == [21];
    assert ReplaceRoster(env, v, Verifier, 1, [], DISMISSES) == Finish(Emit(cleaned, e));
    assert DoSetDependencies(env, ROOT, w, DISMISSES) == Release(Finish(Emit(cleaned, e)), 1);
  }

  /** While the verifier is set up. */
  lemma SetUpRuns(w: World)
    requires InSetUp(w) && w.book.rosters == map[]
    ensures var o := External(On(true), w, MAINTAINS);
            && o.exit.Done? && o.world.depth == 1 && o.world.contexts == map[] && |o.world.views| == |w.views| + 4
            && Extends(w.views, o.world.views)
            && o.world.views[|w.views| + 2].contexts == map[(Config(Verifier), 1) := 21] && o.world.views[|w.views| + 2].depth == 2
            && o.world.views[|w.views| + 3].contexts == map[] && o.world.views[|w.views| + 3].depth == 1
  {
    hide Enter, Perform, Apply;
    var env, u := On(true), Look(w);
    Enrols(u);
    var v := Emit(u, RosterSet(Verifier, 1, [21], |u.log|));
    Continues(env, w, ROOT, ENROLS, Invoke(ROOT, DISMISSES, false, Return), v);
    Dismisses(Look(v));
    var x := Enter(env, ROOT, Look(v), DISMISSES).world;
    Continues(env, v, ROOT, DISMISSES, Return, x);
    Returns(env, x);
  }

  lemma Installs(w: World)
    requires AtRest(w) && w.book == EMPTY_BOOK && w.maintenance == {} && |w.views| == 1
    ensures var o := Enter(On(true), OWNER, w, INSTALLATION);
            && o.exit.Done? && |o.world.views| == 5
            && o.world.views[3].contexts == map[(Config(Verifier), 1) := 21] && o.world.views[3].depth == 2
            && o.world.views[4].contexts == map[] && o.world.views[4].depth == 1
  {
    hide External, Apply;
    var env, e := On(true), Registered(1, Account(11, 0, 7, MIN_ESCAPE_TIMELOCK_S, 0), []);
    BookAfterInstallation(e);
    var u := SetContext(Emit(w, e), Config(Verifier), 1, 11);
    SetUpRuns(u);
    assert DoRegister(env, OWNER, w, INSTALLATION) == Within(env, Emit(w, e), Config(Verifier), 1, 11, MAINTAINS);
  }

  lemma BookAfterInstallation(e: Event)
    requires e == Registered(1, Account(11, 0, 7, MIN_ESCAPE_TIMELOCK_S, 0), [])
    ensures Apply(EMPTY_BOOK, e) == EMPTY_BOOK.(accounts := map[1 := Account(11, 0, 7, MIN_ESCAPE_TIMELOCK_S, 0)])
  {
  }

  /**
   The depth counter can be ahead of the keys: by one while the child that the root lets go from its own
   configuration context is cleaned up, and by one when no key is left before that context ends.
   */
  lemma DepthRunsAhead()
    ensures var views := History([INSTALLING]).views;
            && |views| == 6
            && views[3].depth == 2 && |views[3].contexts| == 1
            && views[4].depth == 1 && |views[4].contexts| == 0
  {
    hide Enter, Perform, Apply;
    var env, w := On(true), GENESIS.(header := Header(1, 0, START));
    assert [INSTALLING][..0] == [];
    assert History([INSTALLING]) == Transact(GENESIS, INSTALLING);
    Installs(Look(w));
    var v := Enter(env, OWNER, Look(w), INSTALLATION).world;
    Continues(env, w, OWNER, INSTALLATION, Return, v);
    Returns(env, v);
  }

  // ---------------------------------------------------------------------------
  // An outflow that the daily limit does not see
  // ---------------------------------------------------------------------------

  const HOOKED: Call := Register(1, 0, [], 12, 7, MIN_ESCAPE_TIMELOCK_S, 1, Answer(true), Answer(true), Return)
  const PLAIN: Call := Register(2, 0, [], 0, 7, MIN_ESCAPE_TIMELOCK_S, 2, Answer(true), Answer(true), Return)

  /** Two accounts of one owner, the first with the hook 12. */
  const PAIR: Transaction :=
    Transaction(On(true), Header(1, 0, START), Invoke(OWNER, HOOKED, false, Invoke(OWNER, PLAIN, false, Return)))

  /**
   An operation of the first account, whose target has one of the second executed, whose target call is a
   callback of the hook for the first account: `postExecute` early, or `preExecute` once more.
   */
  function Reaches(early: bool): Plan {
    Reaching(START, OWNER, 50, 0, Callee(12, 1), early, 2, 0)
  }

  function Nested(early: bool): Transaction {
    Transaction(On(true), Header(2, 0, START), Invoke(OWNER, Execute(1, Reaches(early)), false, Return))
  }

  /** The first account's hook, with a limit of ten for one token and nothing spent. */
  const DAILY: Instance := Instance(false, 1, 12, 100)
  ghost const TEN: Meter := NOTHING.(limits := map[5 := DailyLedger.LimitConfig(10, true)])

  const PAIR_BOOK: Book := EMPTY_BOOK.(accounts := map[
    1 := Account(0, 12, 7, MIN_ESCAPE_TIMELOCK_S, 0), 2 := Account(0, 0, 7, MIN_ESCAPE_TIMELOCK_S, 0)])

  lemma RegistersHooked(w: World)
    requires AtRest(w) && w.book == EMPTY_BOOK
    ensures var v := Emit(w, Registered(1, Account(0, 12, 7, MIN_ESCAPE_TIMELOCK_S, 0), []));
            && Enter(On(true), OWNER, w, HOOKED) == Finish(v)
            && v.book == EMPTY_BOOK.(accounts := map[1 := Account(0, 12, 7, MIN_ESCAPE_TIMELOCK_S, 0)])
  {
    var v := Emit(w, Registered(1, Account(0, 12, 7, MIN_ESCAPE_TIMELOCK_S, 0), []));
    assert DoRegister(On(true), OWNER, w, HOOKED) == Finish(v);
  }

  lemma RegistersPlain(w: World)
    requires AtRest(w) && w.book == EMPTY_BOOK.(accounts := map[1 := Account(0, 12, 7, MIN_ESCAPE_TIMELOCK_S, 0)])
    ensures var v := Emit(w, Registered(2, Account(0, 0, 7, MIN_ESCAPE_TIMELOCK_S, 0), []));
            && Enter(On(true), OWNER, w, PLAIN) == Finish(v) && v.book == PAIR_BOOK
  {
    var v := Emit(w, Registered(2, Account(0, 0, 7, MIN_ESCAPE_TIMELOCK_S, 0), []));
    assert DoRegister(On(true), OWNER, w, PLAIN) == Finish(v);
  }

  lemma PairEnds()
    ensures var w := History([PAIR]); Inv(w) && AtRest(w) && w.book == PAIR_BOOK
  {
    hide Apply, Enter, Perform, Inv;
    HistoriesAreLegal([PAIR]);
    var env, w := On(true), GENESIS.(header := Header(1, 0, START));
    assert [PAIR][..0] == [];
    assert History([PAIR]) == Transact(GENESIS, PAIR);
    RegistersHooked(Look(w));
    var v := Enter(env, OWNER, Look(w), HOOKED).world;
    RegistersPlain(Look(v));
    var x := Enter(env, OWNER, Look(v), PLAIN).world;
    Continues(env, w, OWNER, HOOKED, Invoke(OWNER, PLAIN, false, Return), v);
    Continues(env, v, OWNER, PLAIN, Return, x);
    Returns(env, x);
  }

  lemma BothCanOperate(w: World, early: bool)
    requires Inv(w) && AtRest(w) && w.header.time == START && w.book == PAIR_BOOK
    ensures BothOperate(On(true), OWNER, w, 1, 0, 2, 0) && Hosts(DAILY, Setting(On(true), OWNER, w, Reaches(early)))
  {
    hide Inv;
  }

  lemma TenIsSettled()
    ensures Settled(false, TEN)
  {
    EmptyIsSane();
  }

  /**
   The limit is ten and nothing has been spent.  The operation commits, a hundred leave in it, and the
   hook, one of whose callbacks the nested operation has called in between, still says that nothing was
   spent.
   */
  lemma NestedOperationEscapesTheLimit(early: bool) returns (x: Execution)
    ensures x.at == Setting(On(true), OWNER, Look(History([PAIR]).(header := Header(2, 0, START))), Reaches(early)) && Occurs(DAILY, x)
    ensures RunSession(DAILY, TEN, SessionOf(DAILY, x)) == Some(TEN) && Outgoing(false, SessionOf(DAILY, x), 5) >= 100
    ensures OneOperation(History([PAIR]).book, History([PAIR, Nested(early)]).book, 1, 0)
  {
    hide Inv, Enter, Perform, Occurs, SessionOf, RunSession, Hosts, BothOperate, Settled, ExecuteUserOp, OneOperation, CalledBack;
    var env, before, plan := On(true), History([PAIR]), Reaches(early);
    TwoTransactions(PAIR, Nested(early));
    PairEnds();
    var w := before.(header := Header(2, 0, START));
    HeaderKeepsInv(before, Header(2, 0, START));
    var u := Look(w);
    LookSound(w, 0);
    BothCanOperate(u, early);
    TenIsSettled();
    x := NestedOperationHidesTheOutflow(DAILY, TEN, env, OWNER, u, 50, 0, early, 2, 0, 5, 100);
    NestedOperationAims(DAILY, env, OWNER, u, 50, 0, early, 2, 0);
    OperationCalled(env, OWNER, u, 1, plan);
    OperationRunsOnce(env, OWNER, u, 1, plan);
    var v := ExecuteUserOp(env, OWNER, u, 1, plan).world;
    Continues(env, w, OWNER, Execute(1, plan), Return, v);
    Returns(env, v);
  }
}
