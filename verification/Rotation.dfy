/**
 What the rotations do when they return, for every behaviour of the modules they call: a confirmation
 installs exactly what was requested, a finalized escape and a settlement leave exactly the account
 they promise, each on record with its own start, and the escape timer ends where the order of the
 store and the callbacks leaves it.
 */
module Rotation {
  import opened Bytes
  import opened Records
  import opened Machine
  import opened Journal
  import opened Guarantee
  import opened Soundness
  import opened Runs

  // ---------------------------------------------------------------------------
  // Calls under a configuration context
  // ---------------------------------------------------------------------------

  ghost predicate QuietFrom(n: nat, log: seq<Event>) {
    forall i | n <= i < |log| :: Quiet(log[i])
  }

  /** How the cleanup of an installed module ends: as the module does. */
  function CleanupExit(env: Env, w: World, role: Role, a: Hash, m: Hash, b: Behaviour): Exit {
    if m == 0 then Done else External(env, SetContext(w, Config(role), a, m), b).exit
  }

  /** How the set-up of a new verifier ends. */
  function SetUpExit(env: Env, w: World, a: Hash, verifier: Hash, params: seq<Byte>, b: Behaviour): Exit {
    if verifier == 0 || params == [] then Done else External(env, SetContext(w, Config(Verifier), a, verifier), b).exit
  }

  lemma WithinIsQuiet(env: Env, w: World, role: Role, a: Hash, m: Hash, b: Behaviour)
    requires Inv(w) && MayEnter(w, Config(role), a)
    ensures var o := Within(env, w, Config(role), a, m, b);
            && o.exit == External(env, SetContext(w, Config(role), a, m), b).exit
            && (!o.exit.Aborted? ==> QuietFrom(|w.log|, o.world.log))
  {
    hide Inv, Moves, ViewsFit, External, Finally, Frozen;
    var u := SetContext(w, Config(role), a, m);
    SetContextKeepsInv(w, Config(role), a, m);
    ExternalSound(env, u, b);
    var o := External(env, u, b);
    FinallySound(w, Config(role), a, m, o, 0);
    FinallyKeeps(o, Config(role), a);
    if !o.exit.Aborted? {
      forall i | |u.log| <= i < |o.world.log| ensures Quiet(o.world.log[i]) {
        assert StampFits(u, o.world.log[i], i, o.world.views);
      }
    }
  }

  lemma CleanRootIsQuiet(env: Env, w: World, role: Role, a: Hash, m: Hash, b: Behaviour)
    requires Inv(w) && MayEnter(w, Config(role), a)
    ensures var o := CleanRoot(env, w, role, a, m, b);
            && o.exit == CleanupExit(env, w, role, a, m, b)
            && (!o.exit.Aborted? ==> QuietFrom(|w.log|, o.world.log))
  {
    hide Inv, External, Within, Apply;
    WithinIsQuiet(env, w, role, a, m, b);
  }

  lemma SetUpIsQuiet(env: Env, w: World, a: Hash, verifier: Hash, params: seq<Byte>, b: Behaviour)
    requires Inv(w) && MayEnter(w, Config(Verifier), a)
    ensures var o := SetUp(env, w, a, verifier, params, b);
            && o.exit == SetUpExit(env, w, a, verifier, params, b)
            && (!o.exit.Aborted? ==> QuietFrom(|w.log|, o.world.log))
  {
    hide Inv, External, Within;
    WithinIsQuiet(env, w, Verifier, a, verifier, b);
  }

  // ---------------------------------------------------------------------------
  // Confirmation
  // ---------------------------------------------------------------------------

  /** The guards of a confirmation. */
  predicate MayConfirm(env: Env, who: Caller, w: World, call: Call)
    requires call.ConfirmModule?
  {
    && Configurable(w, who, call.a) && (call.role, call.a) in w.book.updates
    && w.header.time >= w.book.updates[(call.role, call.a)].since + 86_400_000
    && (w.book.updates[(call.role, call.a)].module_ != 0 ==> call.probe == Answer(true))
  }

  /** What a confirmation stores. */
  function Confirmation(env: Env, w: World, role: Role, a: Hash): Event
    requires a in w.book.accounts && (role, a) in w.book.updates
  {
    UpdateConfirmed(role, a, w.book.accounts[a], w.book.updates[(role, a)].module_, |w.log|, w.header.time)
  }

  /** The old module's cleanup. */
  function OldCleanup(env: Env, w: World, call: Call): Outcome
    requires call.ConfirmModule? && call.a in w.book.accounts
  {
    CleanRoot(env, w, call.role, call.a, Pointer(w.book.accounts[call.a], call.role), call.cleanup)
  }

  /** What follows the store. */
  function NewSetUp(env: Env, v: World, call: Call, pending: PendingUpdate): Outcome
    requires call.ConfirmModule?
  {
    if call.role.Verifier? then SetUp(env, v, call.a, pending.module_, pending.params, call.setup) else Finish(v)
  }

  lemma ConfirmationUnfolds(env: Env, who: Caller, w: World, call: Call)
    requires call.ConfirmModule?
    ensures var o := DoConfirmModule(env, who, w, call);
            if !MayConfirm(env, who, w, call) then !o.exit.Done?
            else
              var c := OldCleanup(env, w, call);
              if !c.exit.Done? then o == c
              else
                var s := NewSetUp(env, Emit(c.world, Confirmation(env, w, call.role, call.a)), call, w.book.updates[(call.role, call.a)]);
                o == if s.exit.Done? then Finish(Emit(s.world, UpdateDropped(call.role, call.a))) else s
  {
    hide CleanRoot, SetUp, Emit, Idle, Escrowed;
  }

  /** The confirmation's store, whatever the cleanup did before it. */
  lemma ConfirmationStores(env: Env, w: World, call: Call)
    requires Inv(w) && call.ConfirmModule? && Idle(w, call.a) && !Escrowed(w.book, call.a)
    requires call.a in w.book.accounts && (call.role, call.a) in w.book.updates
    requires w.header.time >= w.book.updates[(call.role, call.a)].since + CONFIG_TIMELOCK_MS
    requires OldCleanup(env, w, call).exit.Done?
    ensures var c := OldCleanup(env, w, call).world;
            var v := Emit(c, Confirmation(env, w, call.role, call.a));
            && Frozen(w.book, c.book) && QuietFrom(|w.log|, c.log) && Extends(w.log, c.log) && Inv(c)
            && Inv(v) && v.depth == 0 && MayEnter(v, Config(Verifier), call.a) && v.log == c.log + [Confirmation(env, w, call.role, call.a)]
            && RootCleaned(c.log, |w.log|, call.role, call.a, w.book.accounts[call.a])
  {
    hide Inv, Apply, CleanRoot, Sound, Step, Frozen, Escrowed, LegalLog, Replay, CleanedSince;
    var (role, a, record) := (call.role, call.a, w.book.accounts[call.a]);
    CleanRootSound(env, w, role, a, Pointer(record, role), call.cleanup);
    CleanRootIsQuiet(env, w, role, a, Pointer(record, role), call.cleanup);
    var o := OldCleanup(env, w, call);
    Arrives(w, o, 0);
    StillCurrent(w, o.world, a);
    ConfirmationIsLegal(env, w, o.world, role, a);
    EmitAtRest(o.world, Confirmation(env, w, role, a));
    RestMayConfigure(Emit(o.world, Confirmation(env, w, role, a)), Verifier, a);
  }

  lemma ConfirmationIsLegal(env: Env, w: World, v: World, role: Role, a: Hash)
    requires a in w.book.accounts && (role, a) in w.book.updates && Frozen(w.book, v.book)
    requires Current(v.book, a, w.book.accounts[a]) && !Escrowed(v.book, a)
    requires w.book.accounts[a].escapeAt > 0 ==> EscapeStartedAt(v.log, a, w.book.accounts[a].escapeAt)
    requires w.header.time >= w.book.updates[(role, a)].since + CONFIG_TIMELOCK_MS
    requires RootCleaned(v.log, |w.log|, role, a, w.book.accounts[a])
    ensures Legal(v.book, v.log, Confirmation(env, w, role, a))
  {
  }

  /**
   A confirmation returns exactly when its guards hold and the modules it calls return: the old one
   from its cleanup, and a new verifier from its set-up after the store.
   */
  lemma ConfirmationReturnsExactly(env: Env, who: Caller, w: World, call: Call)
    requires Inv(w) && call.ConfirmModule?
    ensures DoConfirmModule(env, who, w, call).exit.Done? <==>
              && MayConfirm(env, who, w, call)
              && var (role, a, pending) := (call.role, call.a, w.book.updates[(call.role, call.a)]);
              && CleanupExit(env, w, role, a, Pointer(w.book.accounts[a], role), call.cleanup).Done?
              && (role.Verifier? ==>
                    SetUpExit(env, Emit(OldCleanup(env, w, call).world, Confirmation(env, w, role, a)),
                              a, pending.module_, pending.params, call.setup).Done?)
  {
    hide Inv, Apply, DoConfirmModule, CleanupExit, SetUpExit, CleanRoot, SetUp, Frozen, LegalLog, Escrowed, CleanedSince, Emit;
    ConfirmationUnfolds(env, who, w, call);
    if MayConfirm(env, who, w, call) {
      var (role, a) := (call.role, call.a);
      CleanRootIsQuiet(env, w, role, a, Pointer(w.book.accounts[a], role), call.cleanup);
      if OldCleanup(env, w, call).exit.Done? {
        var pending := w.book.updates[(role, a)];
        ConfirmationStores(env, w, call);
        SetUpIsQuiet(env, Emit(OldCleanup(env, w, call).world, Confirmation(env, w, role, a)),
                     a, pending.module_, pending.params, call.setup);
      }
    }
  }

  /** Everything but the accounts, nonces, rosters and budget, and the pending updates of `gone`. */
  predicate KeepsTheRest(b: Book, c: Book, gone: set<(Role, Hash)>) {
    && c.updates == b.updates - gone && c.calls == b.calls
    && c.markets == b.markets && c.listings == b.listings && c.reclaims == b.reclaims
    && c.escapes == b.escapes && c.bindings == b.bindings
  }

  /** The accounts after a change to one of them: the others keep their authority. */
  ghost predicate OnlyChanges(b: Book, c: Book, a: Hash, acc: Account) {
    && c.accounts.Keys == b.accounts.Keys + {a}
    && SameAuthority(c.accounts[a], acc) && TimerOnlyStops(acc, c.accounts[a])
    && forall other | other in b.accounts && other != a :: SameAuthority(c.accounts[other], b.accounts[other])
  }

  lemma StoreBetweenCallbacks(b: Book, c: Book, e: Event, d: Book, role: Role, a: Hash)
    requires e.UpdateConfirmed? && e.role == role && e.a == a && a in b.accounts
    requires Frozen(b, c) && Frozen(Apply(c, e), d)
    ensures var r := Apply(d, UpdateDropped(role, a));
            KeepsTheRest(b, r, {(role, a)}) && OnlyChanges(b, r, a, WithPointer(e.record, role, e.module_))
  {
  }

  /**
   Whatever the modules call back into, a confirmation that returns has installed the requested
   module, removed that request and nothing else that is pending, left every other field and account's
   authority alone, and recorded all this with its own start after the old module's cleanup.
   */
  lemma ConfirmationInstalls(env: Env, who: Caller, w: World, call: Call)
    requires Inv(w) && call.ConfirmModule? && DoConfirmModule(env, who, w, call).exit.Done?
    ensures call.a in w.book.accounts && (call.role, call.a) in w.book.updates
    ensures var (o, role, a) := (DoConfirmModule(env, who, w, call).world, call.role, call.a);
            var (e, n) := (Confirmation(env, w, role, a), |OldCleanup(env, w, call).world.log|);
            && KeepsTheRest(w.book, o.book, {(role, a)})
            && OnlyChanges(w.book, o.book, a, WithPointer(w.book.accounts[a], role, e.module_))
            && |w.log| <= n < |o.log| && o.log[n] == e
            && RootCleaned(o.log[..n], |w.log|, role, a, w.book.accounts[a])
  {
    hide Inv, Apply, DoConfirmModule, CleanRoot, SetUp, Frozen, LegalLog, Escrowed, CleanedSince, OnlyChanges, KeepsTheRest, WithPointer, Sound, Step;
    ConfirmationUnfolds(env, who, w, call);
    ConfirmationStores(env, w, call);
    var (role, a, pending) := (call.role, call.a, w.book.updates[(call.role, call.a)]);
    var c, e := OldCleanup(env, w, call).world, Confirmation(env, w, role, a);
    var v := Emit(c, e);
    SetUpSound(env, v, a, pending.module_, pending.params, call.setup);
    var s := NewSetUp(env, v, call, pending);
    SameIsFrozen(v.book);
    StoreBetweenCallbacks(w.book, c.book, e, s.world.book, role, a);
    if role.Verifier? {
      Arrives(v, s, 0);
    }
    var o := DoConfirmModule(env, who, w, call).world;
    assert o.log == s.world.log + [UpdateDropped(role, a)];
    StoredAt(c.log, e, s.world.log, UpdateDropped(role, a));
  }

  lemma SameIsFrozen(b: Book)
    ensures Frozen(b, b)
  {
  }

  /** Where the store's event ends up in the log. */
  lemma StoredAt(before: seq<Event>, e: Event, log: seq<Event>, last: Event)
    requires Extends(before + [e], log)
    ensures var all := log + [last];
            |before| < |all| && all[|before|] == e && all[..|before|] == before
  {
    assert log[..|before| + 1] == before + [e];
    assert log[|before|] == log[..|before| + 1][|before|];
    assert log[..|before|] == log[..|before| + 1][..|before|];
  }

  // ---------------------------------------------------------------------------
  // The escape timer
  // ---------------------------------------------------------------------------

  /** An operation of the account stopped its escape at or after position `n`. */
  ghost predicate Stopped(log: seq<Event>, n: nat, a: Hash) {
    exists i | n <= i < |log| :: log[i] == EscapeCancelled(a)
  }

  /** Over quiet events a timer is stopped exactly by a cancellation, and otherwise stays. */
  lemma {:induction false} QuietTimer(log: seq<Event>, n: nat, a: Hash)
    requires LegalLog(log) && n <= |log| && QuietFrom(n, log) && a in Replay(log[..n]).accounts
    ensures a in Replay(log).accounts
    ensures Replay(log).accounts[a].escapeAt == if Stopped(log, n, a) then 0 else Replay(log[..n]).accounts[a].escapeAt
    ensures Stopped(log, n, a) ==> Replay(log[..n]).accounts[a].escapeAt > 0
    decreases |log|
  {
    hide Legal, Apply;
    if n == |log| {
      assert log[..n] == log;
    } else {
      var past, e := log[..|log| - 1], log[|log| - 1];
      assert past == log[..|past|] && log[..|past| + 1] == log && past[..n] == log[..n];
      StepAt(log, |past|);
      QuietTimer(past, n, a);
      QuietStep(Replay(past), past, e, a);
      StoppedStep(log, n, a);
    }
  }

  lemma StoppedStep(log: seq<Event>, n: nat, a: Hash)
    requires n < |log|
    ensures var past := log[..|log| - 1];
            Stopped(log, n, a) <==> Stopped(past, n, a) || log[|log| - 1] == EscapeCancelled(a)
  {
    var past := log[..|log| - 1];
    if Stopped(past, n, a) {
      var i :| n <= i < |past| && past[i] == EscapeCancelled(a);
      assert log[i] == EscapeCancelled(a);
    }
    if Stopped(log, n, a) && log[|log| - 1] != EscapeCancelled(a) {
      var i :| n <= i < |log| && log[i] == EscapeCancelled(a);
      assert past[i] == EscapeCancelled(a);
    }
  }

  lemma QuietStep(b: Book, past: seq<Event>, e: Event, a: Hash)
    requires Legal(b, past, e) && Quiet(e) && a in b.accounts
    ensures var c := Apply(b, e);
            && a in c.accounts
            && c.accounts[a].escapeAt == (if e == EscapeCancelled(a) then 0 else b.accounts[a].escapeAt)
            && (e == EscapeCancelled(a) ==> b.accounts[a].escapeAt > 0)
  {
  }

  /** The position at which a confirmation stores its record: right after the old module's cleanup. */
  function StoreAt(env: Env, w: World, call: Call): nat
    requires call.ConfirmModule? && call.a in w.book.accounts
  {
    |OldCleanup(env, w, call).world.log|
  }

  /**
   After a confirmation the escape timer is as it was on entry, unless an operation stopped it after
   the store, which only the set-up of a new verifier can do.  A cancellation during the cleanup is
   overwritten.
   */
  lemma TimerAfterConfirmation(env: Env, who: Caller, w: World, call: Call)
    requires Inv(w) && call.ConfirmModule? && DoConfirmModule(env, who, w, call).exit.Done?
    ensures call.a in w.book.accounts
    ensures var (o, a) := (DoConfirmModule(env, who, w, call).world, call.a);
            && a in o.book.accounts
            && o.book.accounts[a].escapeAt
               == (if Stopped(o.log, StoreAt(env, w, call) + 1, a) then 0 else w.book.accounts[a].escapeAt)
            && (Stopped(o.log, StoreAt(env, w, call) + 1, a) ==> call.role.Verifier?)
  {
    hide Inv, Apply, DoConfirmModule, CleanRoot, SetUp, Frozen, Escrowed, CleanedSince, WithPointer, Sound, Step, QuietFrom, Stopped, LegalLog, Replay, RosterKept;
    ConfirmationUnfolds(env, who, w, call);
    ConfirmationStores(env, w, call);
    var (role, a, pending) := (call.role, call.a, w.book.updates[(call.role, call.a)]);
    var v := Emit(OldCleanup(env, w, call).world, Confirmation(env, w, role, a));
    SetUpSound(env, v, a, pending.module_, pending.params, call.setup);
    SetUpIsQuiet(env, v, a, pending.module_, pending.params, call.setup);
    var s := NewSetUp(env, v, call, pending);
    if role.Verifier? {
      Arrives(v, s, 0);
    }
    StoredTimer(OldCleanup(env, w, call).world.book, Confirmation(env, w, role, a));
    EmittedBook(OldCleanup(env, w, call).world, Confirmation(env, w, role, a));
    TimerAfterStore(v, s.world, call, pending);
    DropKeepsTimer(s.world, role, a);
    if !role.Verifier? {
      NothingAfter(v.log, UpdateDropped(role, a), a);
    } else {
      DropIsNoStop(s.world.log, |v.log|, UpdateDropped(role, a), a);
    }
  }

  lemma StoredTimer(b: Book, e: Event)
    requires e.UpdateConfirmed?
    ensures var c := Apply(b, e);
            e.a in c.accounts && c.accounts[e.a].escapeAt == e.record.escapeAt
  {
  }

  lemma DropKeepsTimer(w: World, role: Role, a: Hash)
    ensures Emit(w, UpdateDropped(role, a)).book.accounts == w.book.accounts
  {
  }

  lemma NothingAfter(log: seq<Event>, last: Event, a: Hash)
    requires last != EscapeCancelled(a)
    ensures !Stopped(log + [last], |log|, a)
  {
  }

  lemma DropIsNoStop(log: seq<Event>, n: nat, last: Event, a: Hash)
    requires last != EscapeCancelled(a) && n <= |log|
    ensures Stopped(log + [last], n, a) <==> Stopped(log, n, a)
  {
    StoppedStep(log + [last], n, a);
    assert (log + [last])[..|log|] == log;
  }

  lemma TimerAfterStore(v: World, s: World, call: Call, pending: PendingUpdate)
    requires call.ConfirmModule? && Inv(v) && call.a in v.book.accounts
    requires (call.role.Verifier? && Inv(s) && Extends(v.log, s.log) && QuietFrom(|v.log|, s.log)) || (!call.role.Verifier? && s == v)
    ensures call.a in s.book.accounts
    ensures call.role.Verifier? ==>
              s.book.accounts[call.a].escapeAt == if Stopped(s.log, |v.log|, call.a) then 0 else v.book.accounts[call.a].escapeAt
  {
    hide LegalLog, Replay, QuietFrom, Stopped, LocksCover;
    if call.role.Verifier? {
      QuietTimer(s.log, |v.log|, call.a);
    }
  }

  // ---------------------------------------------------------------------------
  // Escape and settlement
  // ---------------------------------------------------------------------------

  /** Both installed modules' cleanups, the verifier's first. */
  function BothCleaned(env: Env, w: World, a: Hash, record: Account, verifier: Behaviour, hook: Behaviour): Outcome {
    var w1 :- CleanRoot(env, w, Verifier, a, record.verifier, verifier);
    CleanRoot(env, w1, Hook, a, record.hook, hook)
  }

  /** Both return, the hook's in the world the verifier's left. */
  predicate BothReturn(env: Env, w: World, a: Hash, record: Account, verifier: Behaviour, hook: Behaviour) {
    && CleanupExit(env, w, Verifier, a, record.verifier, verifier).Done?
    && CleanupExit(env, CleanRoot(env, w, Verifier, a, record.verifier, verifier).world, Hook, a, record.hook, hook).Done?
  }

  lemma BothCleanedExactly(env: Env, w: World, a: Hash, record: Account, verifier: Behaviour, hook: Behaviour)
    requires Inv(w) && w.depth == 0
    ensures var o := BothCleaned(env, w, a, record, verifier, hook);
            && (o.exit.Done? <==> BothReturn(env, w, a, record, verifier, hook))
            && Sound(w, o, 0)
            && (o.exit.Done? ==>
                  && Frozen(w.book, o.world.book)
                  && RootCleaned(o.world.log, |w.log|, Verifier, a, record)
                  && RootCleaned(o.world.log, |w.log|, Hook, a, record))
  {
    hide Inv, CleanRoot, CleanupExit, Sound, Step, Frozen, CleanedSince;
    RestMayConfigure(w, Verifier, a);
    CleanRootSound(env, w, Verifier, a, record.verifier, verifier);
    CleanRootIsQuiet(env, w, Verifier, a, record.verifier, verifier);
    var first := CleanRoot(env, w, Verifier, a, record.verifier, verifier);
    if first.exit.Done? {
      Arrives(w, first, 0);
      var v := first.world;
      RestMayConfigure(v, Hook, a);
      CleanRootSound(env, v, Hook, a, record.hook, hook);
      CleanRootIsQuiet(env, v, Hook, a, record.hook, hook);
      var o := CleanRoot(env, v, Hook, a, record.hook, hook);
      Then(w, first, o, 0);
      if o.exit.Done? {
        Arrives(v, o, 0);
        FrozenTransitive(w.book, v.book, o.world.book);
        CleanedEarlierLater(v.log, o.world.log, |w.log|, a, record);
      }
    }
  }

  lemma CleanedEarlierLater(past: seq<Event>, log: seq<Event>, since: nat, a: Hash, record: Account)
    requires Extends(past, log) && since <= |past|
    requires RootCleaned(past, since, Verifier, a, record) && RootCleaned(log, |past|, Hook, a, record)
    ensures RootCleaned(log, since, Verifier, a, record) && RootCleaned(log, since, Hook, a, record)
  {
    hide CleanedSince;
    if record.verifier != 0 {
      CleanedLater(past, log, since, Verifier, a, record.verifier);
    }
    if record.hook != 0 {
      CleanedEarlier(log, since, |past|, Hook, a, record.hook);
    }
  }

  /** The guards of a recovery. */
  predicate MayRecover(env: Env, who: Caller, w: World, call: Call)
    requires call.FinalizeEscape?
  {
    && call.a in w.book.accounts && Idle(w, call.a) && !Escrowed(w.book, call.a)
    && var state := w.book.accounts[call.a];
    && state.escapeAt > 0 && w.header.time >= state.escapeAt + state.escapeTimelock * 1000 && state.owner in who.witnesses
    && (call.verifier != 0 ==> call.probe == Answer(true))
  }

  function Recovery(env: Env, w: World, call: Call): Event
    requires call.FinalizeEscape? && call.a in w.book.accounts
  {
    EscapeFinalized(call.a, w.book.accounts[call.a], call.verifier, |w.log|, w.header.time)
  }

  function RecoveryCleanups(env: Env, w: World, call: Call): Outcome
    requires call.FinalizeEscape? && call.a in w.book.accounts
  {
    BothCleaned(env, w, call.a, w.book.accounts[call.a], call.verifierCleanup, call.hookCleanup)
  }

  lemma RecoveryUnfolds(env: Env, who: Caller, w: World, call: Call)
    requires call.FinalizeEscape?
    ensures var o := DoFinalizeEscape(env, who, w, call);
            if !MayRecover(env, who, w, call) then !o.exit.Done?
            else
              var c := RecoveryCleanups(env, w, call);
              if !c.exit.Done? then o == c
              else
                var s := SetUp(env, Emit(c.world, Recovery(env, w, call)), call.a, call.verifier, call.params, call.setup);
                o == if s.exit.Done? then Finish(Emit(s.world, EscapeSwept(call.a))) else s
  {
    hide CleanRoot, SetUp, Emit, Idle, Escrowed;
  }

  lemma RecoveryStores(env: Env, who: Caller, w: World, call: Call)
    requires Inv(w) && call.FinalizeEscape? && MayRecover(env, who, w, call) && RecoveryCleanups(env, w, call).exit.Done?
    ensures var c := RecoveryCleanups(env, w, call).world;
            var v := Emit(c, Recovery(env, w, call));
            && Frozen(w.book, c.book) && Extends(w.log, c.log)
            && Inv(v) && v.depth == 0 && MayEnter(v, Config(Verifier), call.a) && v.log == c.log + [Recovery(env, w, call)]
            && RootCleaned(c.log, |w.log|, Verifier, call.a, w.book.accounts[call.a])
            && RootCleaned(c.log, |w.log|, Hook, call.a, w.book.accounts[call.a])
  {
    hide Inv, Apply, BothCleaned, BothReturn, Sound, Step, Frozen, Escrowed, LegalLog, Replay, CleanedSince;
    var (a, record) := (call.a, w.book.accounts[call.a]);
    BothCleanedExactly(env, w, a, record, call.verifierCleanup, call.hookCleanup);
    var o := RecoveryCleanups(env, w, call);
    Arrives(w, o, 0);
    StillCurrent(w, o.world, a);
    EmitAtRest(o.world, Recovery(env, w, call));
    RestMayConfigure(Emit(o.world, Recovery(env, w, call)), Verifier, a);
  }

  /** A recovery returns exactly when its guards hold and both old modules and the new verifier return. */
  lemma RecoveryReturnsExactly(env: Env, who: Caller, w: World, call: Call)
    requires Inv(w) && call.FinalizeEscape?
    ensures DoFinalizeEscape(env, who, w, call).exit.Done? <==>
              && MayRecover(env, who, w, call)
              && BothReturn(env, w, call.a, w.book.accounts[call.a], call.verifierCleanup, call.hookCleanup)
              && SetUpExit(env, Emit(RecoveryCleanups(env, w, call).world, Recovery(env, w, call)),
                           call.a, call.verifier, call.params, call.setup).Done?
  {
    hide Inv, Apply, DoFinalizeEscape, BothCleaned, BothReturn, SetUpExit, SetUp, Frozen, Escrowed, CleanedSince, Emit, Sound;
    RecoveryUnfolds(env, who, w, call);
    if MayRecover(env, who, w, call) {
      BothCleanedExactly(env, w, call.a, w.book.accounts[call.a], call.verifierCleanup, call.hookCleanup);
      if RecoveryCleanups(env, w, call).exit.Done? {
        RecoveryStores(env, who, w, call);
        SetUpIsQuiet(env, Emit(RecoveryCleanups(env, w, call).world, Recovery(env, w, call)),
                     call.a, call.verifier, call.params, call.setup);
      }
    }
  }

  function BothRoles(a: Hash): set<(Role, Hash)> {
    {(Verifier, a), (Hook, a)}
  }

  /** What a recovery and a settlement leave of the pending records of an account: nothing. */
  predicate SweptOf(b: Book, c: Book, a: Hash) {
    && c.updates == b.updates - BothRoles(a) && c.calls == b.calls - BothRoles(a)
    && c.escapes == b.escapes - {a} && c.bindings == b.bindings
  }

  predicate SameEscrow(b: Book, c: Book, gone: set<Hash>) {
    c.markets == b.markets - gone && c.listings == b.listings - gone && c.reclaims == b.reclaims - gone
  }

  /** Exactly this record, and the authority of all others, whatever ran. */
  ghost predicate Leaves(b: Book, c: Book, a: Hash, acc: Account) {
    && c.accounts.Keys == b.accounts.Keys + {a} && c.accounts[a] == acc
    && forall other | other in b.accounts && other != a :: SameAuthority(c.accounts[other], b.accounts[other])
  }

  lemma RecoveryBetweenCallbacks(b: Book, c: Book, e: Event, d: Book, a: Hash)
    requires e.EscapeFinalized? && e.a == a && a in b.accounts
    requires Frozen(b, c) && Frozen(Apply(c, e), d)
    ensures var r := Apply(d, EscapeSwept(a));
            && SweptOf(b, r, a) && SameEscrow(b, r, {})
            && Leaves(b, r, a, e.record.(verifier := e.verifier, hook := 0, escapeAt := 0))
  {
    RecoveredFields(c, e);
    SweptBook(d, a);
    hide Apply;
  }

  lemma RecoveredFields(b: Book, e: Event)
    requires e.EscapeFinalized?
    ensures Apply(b, e) == b.(accounts := b.accounts[e.a := e.record.(verifier := e.verifier, hook := 0, escapeAt := 0)])
  {
  }

  lemma SweptBook(b: Book, a: Hash)
    ensures Apply(b, EscapeSwept(a))
         == b.(updates := b.updates - BothRoles(a), calls := b.calls - BothRoles(a), escapes := b.escapes - {a})
  {
  }

  /**
   Whatever the modules call back into, a recovery that returns leaves the account under the new
   verifier with no hook, no running escape and nothing pending, on record with its own start after
   both old modules' cleanups.
   */
  lemma RecoveryInstalls(env: Env, who: Caller, w: World, call: Call)
    requires Inv(w) && call.FinalizeEscape? && DoFinalizeEscape(env, who, w, call).exit.Done?
    ensures call.a in w.book.accounts
    ensures var (o, a, state) := (DoFinalizeEscape(env, who, w, call).world, call.a, w.book.accounts[call.a]);
            var n := |RecoveryCleanups(env, w, call).world.log|;
            && SweptOf(w.book, o.book, a) && SameEscrow(w.book, o.book, {})
            && Leaves(w.book, o.book, a, state.(verifier := call.verifier, hook := 0, escapeAt := 0))
            && |w.log| <= n < |o.log| && o.log[n] == Recovery(env, w, call)
            && RootCleaned(o.log[..n], |w.log|, Verifier, a, state) && RootCleaned(o.log[..n], |w.log|, Hook, a, state)
  {
    hide Inv, Apply, DoFinalizeEscape, BothCleaned, SetUp, Frozen, Escrowed, CleanedSince, Leaves, SweptOf, SameEscrow, Sound, Step;
    RecoveryUnfolds(env, who, w, call);
    RecoveryStores(env, who, w, call);
    var c, e := RecoveryCleanups(env, w, call).world, Recovery(env, w, call);
    var v := Emit(c, e);
    SetUpSound(env, v, call.a, call.verifier, call.params, call.setup);
    var s := SetUp(env, v, call.a, call.verifier, call.params, call.setup);
    Arrives(v, s, 0);
    RecoveryBetweenCallbacks(w.book, c.book, e, s.world.book, call.a);
    StoredAt(c.log, e, s.world.log, EscapeSwept(call.a));
  }

  // ---------------------------------------------------------------------------
  // Settlement
  // ---------------------------------------------------------------------------

  predicate MaySettle(who: Caller, w: World, call: Call)
    requires call.SettleEscrow?
  {
    ByMarket(w.book, who, call.a, call.listing) && Idle(w, call.a) && call.owner != 0 && call.a in w.book.accounts
  }

  function Settlement(w: World, call: Call): Event
    requires call.SettleEscrow? && call.a in w.book.accounts
  {
    EscrowSettled(call.a, w.book.accounts[call.a], call.owner, |w.log|)
  }

  lemma SettlementUnfolds(env: Env, who: Caller, w: World, call: Call)
    requires call.SettleEscrow?
    ensures var o := DoSettleEscrow(env, who, w, call);
            if !MaySettle(who, w, call) then !o.exit.Done?
            else
              var c := BothCleaned(env, w, call.a, w.book.accounts[call.a], call.verifierCleanup, call.hookCleanup);
              o == if c.exit.Done? then Finish(Emit(c.world, Settlement(w, call))) else c
  {
    hide CleanRoot, Emit, Idle;
  }

  lemma SettlementWrites(b: Book, c: Book, e: Event, a: Hash)
    requires e.EscrowSettled? && e.a == a && a in b.accounts && Frozen(b, c)
    ensures var r := Apply(c, e);
            && SweptOf(b, r, a) && SameEscrow(b, r, {a})
            && Leaves(b, r, a, e.record.(owner := e.owner, verifier := 0, hook := 0, escapeAt := 0))
  {
  }

  /**
   A settlement returns exactly when the recorded market asks for it and both modules return from
   their cleanups, and then the buyer holds a clean account: no module, no escape, nothing pending, no
   escrow, on record with its own start after both cleanups.
   */
  lemma SettlementIsExact(env: Env, who: Caller, w: World, call: Call)
    requires Inv(w) && call.SettleEscrow?
    ensures var o := DoSettleEscrow(env, who, w, call);
            && (o.exit.Done? <==>
                  && MaySettle(who, w, call)
                  && BothReturn(env, w, call.a, w.book.accounts[call.a], call.verifierCleanup, call.hookCleanup))
            && (o.exit.Done? ==>
                  var (a, state, log) := (call.a, w.book.accounts[call.a], o.world.log);
                  && SweptOf(w.book, o.world.book, a) && SameEscrow(w.book, o.world.book, {a})
                  && Leaves(w.book, o.world.book, a, state.(owner := call.owner, verifier := 0, hook := 0, escapeAt := 0))
                  && |log| > |w.log| && log[|log| - 1] == Settlement(w, call)
                  && RootCleaned(log[..|log| - 1], |w.log|, Verifier, a, state)
                  && RootCleaned(log[..|log| - 1], |w.log|, Hook, a, state))
  {
    hide Inv, Apply, DoSettleEscrow, BothCleaned, BothReturn, Frozen, CleanedSince, Leaves, SweptOf, SameEscrow, Sound, Step;
    SettlementUnfolds(env, who, w, call);
    if MaySettle(who, w, call) {
      var (a, state) := (call.a, w.book.accounts[call.a]);
      BothCleanedExactly(env, w, a, state, call.verifierCleanup, call.hookCleanup);
      var c := BothCleaned(env, w, a, state, call.verifierCleanup, call.hookCleanup);
      if c.exit.Done? {
        Arrives(w, c, 0);
        SettlementWrites(w.book, c.world.book, Settlement(w, call), a);
        LogGrows(c.world.log, Settlement(w, call));
      }
    }
  }
}
