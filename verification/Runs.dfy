/**
 Whole runs of the reentrant wallet: what holds after every history of transactions, and what one
 operation, one nested call or one batch does whatever its callees do.
 */
module Runs {
  import opened Records
  import opened Machine
  import opened Guarantee
  import opened Soundness

  // ---------------------------------------------------------------------------
  // Histories
  // ---------------------------------------------------------------------------

  /** Between transactions nothing is active. */
  predicate Resting(w: World) {
    w.depth == 0 && w.contexts == map[] && w.maintenance == {}
  }

  /** Committed or not, a transaction keeps the guarantee from where it started; if not committed it wrote nothing. */
  lemma TransactionKeepsInv(w: World, t: Transaction)
    requires Inv(w) && Resting(w)
    ensures Inv(Transact(w, t)) && Resting(Transact(w, t))
    ensures var (start, v) := (w.(header := t.header), Transact(w, t));
            Extends(start.log, v.log) && Stamped(start, v) && ViewsFit(start, v, 0)
    ensures !Perform(t.env, w.(header := t.header), t.script).exit.Done? ==> Transact(w, t) == w.(views := Transact(w, t).views)
  {
    hide LegalLog, Replay, Perform, StampFits, ViewFits, LocksCover;
    var start := w.(header := t.header);
    PerformSound(t.env, start, t.script);
    DroppedViewsFit(start, Perform(t.env, start, t.script).world, 0);
    if Perform(t.env, start, t.script).exit.Done? {
      RestIsEmpty(Transact(w, t));
    }
  }

  /**
   After every history the wallet is at rest, its log obeys the sequential protocol, and its book
   is what the log replays to.
   */
  lemma {:induction false} HistoriesAreLegal(txs: seq<Transaction>)
    ensures Inv(History(txs)) && Resting(History(txs))
    ensures LegalLog(History(txs).log) && Replay(History(txs).log) == History(txs).book
  {
    if txs != [] {
      HistoriesAreLegal(txs[..|txs| - 1]);
      TransactionKeepsInv(History(txs[..|txs| - 1]), txs[|txs| - 1]);
    }
  }

  /** The world in which transaction `k` starts. */
  function Started(txs: seq<Transaction>, k: nat): World
    requires k < |txs|
  {
    History(txs[..k]).(header := txs[k].header)
  }

  /** Transaction `k` only appends to the log, and what it appends and shows fits its start. */
  lemma HistoryStep(txs: seq<Transaction>, k: nat)
    requires k < |txs|
    ensures var (w, v) := (Started(txs, k), History(txs[..k + 1]));
            && Inv(w) && Resting(w)
            && Extends(w.log, v.log) && Stamped(w, v) && ViewsFit(w, v, 0)
            && forall i | 0 <= i < |w.log| :: v.log[i] == w.log[i]
  {
    hide LegalLog, Replay, Transact, Stamped, ViewsFit, LocksCover;
    HistoriesAreLegal(txs[..k]);
    TransactionKeepsInv(History(txs[..k]), txs[k]);
    assert txs[..k + 1][..k] == txs[..k] && txs[..k + 1][k] == txs[k];
    var (x, y) := (History(txs[..k]).log, History(txs[..k + 1]).log);
    assert forall i | 0 <= i < |x| :: y[i] == y[..|x|][i];
  }

  /** A log is never rewritten, and a transaction that does not commit adds nothing to it. */
  lemma {:induction false} HistoriesExtend(txs: seq<Transaction>, n: nat)
    requires n <= |txs|
    ensures Extends(History(txs[..n]).log, History(txs).log)
    ensures n < |txs| && !Perform(txs[n].env, Started(txs, n), txs[n].script).exit.Done? ==>
              History(txs[..n + 1]).log == History(txs[..n]).log && History(txs[..n + 1]).book == History(txs[..n]).book
  {
    hide Perform;
    if n == |txs| {
      assert txs[..n] == txs;
    } else {
      LogsExtend(txs, n);
      assert txs[..n + 1][..n] == txs[..n] && txs[..n + 1][n] == txs[n];
    }
  }

  lemma {:induction false} LogsExtend(txs: seq<Transaction>, n: nat)
    requires n <= |txs|
    ensures Extends(History(txs[..n]).log, History(txs).log)
  {
    hide History, Inv, Stamped, ViewsFit;
    if n == |txs| {
      assert txs[..n] == txs;
    } else {
      var before := txs[..|txs| - 1];
      assert before[..n] == txs[..n] && txs[..|txs|] == txs;
      LogsExtend(before, n);
      HistoryStep(txs, |txs| - 1);
      var (x, y, z) := (History(txs[..n]).log, History(before).log, History(txs).log);
      assert z[..|x|] == z[..|y|][..|x|];
    }
  }

  lemma HeaderKeepsInv(w: World, header: Header)
    requires Inv(w)
    ensures Inv(w.(header := header))
  {
    hide LegalLog, Replay;
  }

  ghost predicate Bounded(x: View) {
    x.depth - 1 <= |x.contexts| <= x.depth && LocksCover(x.contexts)
  }

  /**
   Throughout every history, committed or not, whenever foreign code is in control: the present
   context keys are as many as the depth counter says or one fewer, and every execution key is under
   its lock.
   */
  lemma {:induction false} EveryViewIsBounded(txs: seq<Transaction>)
    ensures forall k | 0 <= k < |History(txs).views| :: Bounded(History(txs).views[k])
  {
    hide Inv, Stamped, LocksCover;
    if txs != [] {
      var before := txs[..|txs| - 1];
      assert txs[..|txs|] == txs;
      EveryViewIsBounded(before);
      HistoryStep(txs, |txs| - 1);
      hide History;
      var (x, y) := (History(before).views, History(txs).views);
      forall k | 0 <= k < |y| ensures Bounded(y[k]) {
        if k < |x| {
          assert y[k] == y[..|x|][k];
        } else {
          assert ViewFits(Started(txs, |txs| - 1), y[k], 0);
        }
      }
    }
  }

  // ---------------------------------------------------------------------------
  // Nested calls
  // ---------------------------------------------------------------------------

  /**
   Context balance: whatever a nested entry point and its callees do, and however it ends, the depth
   counter is restored, no context key appears, no execution key disappears, the keys never
   outnumber the depth, and the underflow assertion cannot fail.
   */
  lemma ContextsAreBalanced(env: Env, who: Caller, w: World, call: Call)
    requires Inv(w)
    ensures var o := Enter(env, who, w, call);
            && o.exit != Aborted(Underflow)
            && (!o.exit.Aborted? ==>
                  && o.world.depth == w.depth && |o.world.contexts| <= o.world.depth
                  && o.world.maintenance == w.maintenance
                  && (forall k | k in o.world.contexts :: k in w.contexts && o.world.contexts[k] == w.contexts[k])
                  && (forall k | k in w.contexts && !k.0.Config? :: k in o.world.contexts))
  {
    EnterSound(env, who, w, call);
  }

  lemma TwoContexts(w: World, x: (Slot, Hash), y: (Slot, Hash))
    requires Inv(w) && x in w.contexts && y in w.contexts && x != y
    ensures w.depth >= 2
  {
    SubsetSize({x, y}, w.contexts.Keys);
  }

  /** While an execution lock is held, no roster is open. */
  lemma LockClosesRosters(w: World, a: Hash)
    requires Inv(w) && Locked(w, a)
    ensures w.depth > 0 && forall role, b: Hash :: !RosterOpen(w, role, b)
  {
    assert w.contexts.Keys != {};
    forall role, b: Hash | w.depth == 1 && (Config(role), b) in w.contexts ensures false {
      TwoContexts(w, (Lock, a), (Config(role), b));
    }
  }

  lemma RostersKept(b: Book, c: Book)
    requires forall role, a: Hash :: RosterKept(b, c, role, a)
    ensures b.rosters == c.rosters
  {
    forall k | k in b.rosters ensures k in c.rosters && b.rosters[k] == c.rosters[k] {
      assert RosterKept(b, c, k.0, k.1);
    }
    forall k | k in c.rosters ensures k in b.rosters {
      assert RosterKept(b, c, k.0, k.1);
    }
  }

  /**
   Isolation: while any account is executing, no nested call changes any account's verifier, hook,
   owner or timelock, any pending record, roster or escrow, nor anything of the executing account.
   */
  lemma ExecutionIsIsolated(env: Env, who: Caller, w: World, call: Call, a: Hash)
    requires Inv(w) && Locked(w, a)
    ensures var o := Enter(env, who, w, call);
            !o.exit.Aborted? ==>
              && Frozen(w.book, o.world.book) && o.world.book.rosters == w.book.rosters
              && AccountKept(w.book, o.world.book, a) && Locked(o.world, a)
  {
    hide LegalLog, Replay, Stamped, ViewsFit, Enter;
    EnterSound(env, who, w, call);
    LockClosesRosters(w, a);
    if !Enter(env, who, w, call).exit.Aborted? {
      RostersKept(w.book, Enter(env, who, w, call).world.book);
    }
  }

  /** The views that foreign code gets of the wallet between two worlds. */
  ghost predicate SeenIsolated(w: World, x: View, a: Hash) {
    && Frozen(w.book, x.book) && x.book.rosters == w.book.rosters
    && AccountKept(w.book, x.book, a) && StaysLocked(w.contexts, x.contexts, a)
  }

  /**
   The same throughout: at every moment of the nested call, even one that is rolled back or aborts,
   foreign code finds the wallet's configuration and the executing account as they were, the account
   still locked, and no configuration context of it that was not there before.
   */
  lemma IsolationHoldsThroughout(env: Env, who: Caller, w: World, call: Call, a: Hash)
    requires Inv(w) && Locked(w, a)
    ensures var v := Enter(env, who, w, call).world;
            Extends(w.views, v.views) && forall k | |w.views| <= k < |v.views| :: SeenIsolated(w, v.views[k], a)
  {
    hide LegalLog, Replay, Stamped, Enter, ViewFits, SeenIsolated;
    EnterSound(env, who, w, call);
    var v := Enter(env, who, w, call).world;
    forall k | |w.views| <= k < |v.views| ensures SeenIsolated(w, v.views[k], a) {
      ViewIsIsolated(w, v.views[k], a);
    }
  }

  lemma ViewIsIsolated(w: World, x: View, a: Hash)
    requires Inv(w) && Locked(w, a) && ViewFits(w, x, 0)
    ensures SeenIsolated(w, x, a)
  {
    hide LegalLog, Replay;
    LockClosesRosters(w, a);
    RostersKept(w.book, x.book);
  }

  // ---------------------------------------------------------------------------
  // One operation
  // ---------------------------------------------------------------------------

  function NextNonce(b: Book, a: Hash, channel: nat): nat {
    Get(b.nonces, (a, channel), 0)
  }

  /** What one committed operation does to its own account: the escape timer stops and one nonce is used. */
  ghost predicate OneOperation(b: Book, c: Book, a: Hash, nonce: nat) {
    && a in b.accounts && a in c.accounts
    && c.accounts[a] == b.accounts[a].(escapeAt := 0)
    && NonceAcceptable(b, a, nonce)
    && forall channel: nat :: NextNonce(c, a, channel) == NextNonce(b, a, channel) + (if channel == Channel(nonce) then 1 else 0)
  }

  lemma OwnWritesAreOneOperation(b: Book, a: Hash, nonce: nat)
    requires a in b.accounts && NonceAcceptable(b, a, nonce)
    ensures var c := if b.accounts[a].escapeAt > 0 then Apply(b, EscapeCancelled(a)) else b;
            OneOperation(b, Apply(c, NonceConsumed(a, Channel(nonce), Sequence(nonce))), a, nonce)
  {
  }

  lemma OneOperationRecord(b: Book, c: Book, a: Hash, nonce: nat)
    requires OneOperation(b, c, a, nonce)
    ensures a in c.accounts && c.accounts[a] == b.accounts[a].(escapeAt := 0)
  {
  }

  lemma KeptAfterOneOperation(b: Book, c: Book, d: Book, a: Hash, nonce: nat)
    requires OneOperation(b, c, a, nonce) && AccountKept(c, d, a)
    ensures OneOperation(b, d, a, nonce)
  {
  }

  /**
   From the pre-execution hook on, at every moment at which foreign code is in control and at the end,
   the executing account's stored record is the one the post hooks are chosen by, and its nonces do
   not move.
   */
  lemma CalleesKeepTheAccount(env: Env, w: World, a: Hash, state: Account, plan: Plan)
    requires Inv(w) && a != 0 && Locked(w, a) && MayEnter(w, Target, a) && MayEnter(w, Executing(Hook), a)
    requires a in w.book.accounts && w.book.accounts[a] == state.(escapeAt := 0)
    ensures var o := if state.hook == 0 then InTarget(env, w, a, state, plan) else Hooked(env, w, a, state, plan);
            && (!o.exit.Aborted? ==> AccountKept(w.book, o.world.book, a) && o.world.book.accounts[a] == state.(escapeAt := 0))
            && Extends(w.views, o.world.views)
            && forall k | |w.views| <= k < |o.world.views| ::
                 AccountKept(w.book, o.world.views[k].book, a) && o.world.views[k].book.accounts[a] == state.(escapeAt := 0)
  {
    hide InTarget, Hooked, LegalLog, Replay, Stamped;
    InTargetSound(env, w, a, state, plan);
    HookedSound(env, w, a, state, plan);
    var o := if state.hook == 0 then InTarget(env, w, a, state, plan) else Hooked(env, w, a, state, plan);
    forall k | |w.views| <= k < |o.world.views| ensures AccountKept(w.book, o.world.views[k].book, a) {
      assert ViewFits(w, o.world.views[k], 0);
    }
  }

  lemma {:induction false} ValidateRunsOnce(env: Env, who: Caller, w: World, a: Hash, state: Account, plan: Plan)
    requires Inv(w) && a != 0 && Locked(w, a) && a in w.book.accounts && state == w.book.accounts[a] && !Escrowed(w.book, a)
    requires MayEnter(w, Target, a) && MayEnter(w, Executing(Hook), a) && ValidOperation(plan.op)
    ensures var o := Validate(env, who, w, a, state, plan);
            o.exit.Done? ==> OneOperation(w.book, o.world.book, a, plan.op.nonce)
  {
    hide Inv, Step, Apply, Emit, OneOperation, AccountKept, Admit, InTarget, Hooked;
    var nonce := plan.op.nonce;
    AdmitSound(env, who, w, a, state, plan);
    var first, o := Admit(env, who, w, a, state, plan), Validate(env, who, w, a, state, plan);
    if o.exit.Done? {
      var v := if state.escapeAt > 0 then Emit(w, EscapeCancelled(a)) else w;
      EmittedBook(w, EscapeCancelled(a));
      EmittedBook(v, NonceConsumed(a, Channel(nonce), Sequence(nonce)));
      OwnWritesAreOneOperation(w.book, a, nonce);
      OneOperationRecord(w.book, first.world.book, a, nonce);
      CalleesKeepTheAccount(env, first.world, a, state, plan);
      KeptAfterOneOperation(w.book, first.world.book, o.world.book, a, nonce);
    }
  }

  lemma EmittedBook(w: World, e: Event)
    ensures Emit(w, e).book == Apply(w.book, e) && Emit(w, e).contexts == w.contexts && Emit(w, e).depth == w.depth
  {
  }

  /** The body of an operation under the locks, with or without a verifier. */
  function UnderLocks(env: Env, who: Caller, w: World, a: Hash, state: Account, plan: Plan): Outcome
    requires ValidOperation(plan.op)
  {
    if state.verifier == 0 then Validate(env, who, w, a, state, plan)
    else Finally(Validate(env, who, SetContext(w, Executing(Verifier), a, state.verifier), a, state, plan), Executing(Verifier), a)
  }

  lemma UnderLocksRunsOnce(env: Env, who: Caller, w: World, a: Hash, plan: Plan)
    requires Inv(w) && a != 0 && !Locked(w, a) && a in w.book.accounts && !Escrowed(w.book, a) && ValidOperation(plan.op)
    ensures var (w1, state) := (SetContext(w, Lock, a, a), w.book.accounts[a]);
            var o := UnderLocks(env, who, w1, a, state, plan);
            && Inv(w1) && Sound(w1, o, a) && (o.exit.Done? ==> OneOperation(w.book, o.world.book, a, plan.op.nonce))
  {
    hide Inv, OneOperation, Validate, Sound, Finally, NonceAcceptable, Frozen, Escrowed, ValidOperation;
    var (w1, state) := (SetContext(w, Lock, a, a), w.book.accounts[a]);
    SetContextKeepsInv(w, Lock, a, a);
    UnlockedIsClear(w, a);
    if state.verifier == 0 {
      ValidateSound(env, who, w1, a, state, plan);
      ValidateRunsOnce(env, who, w1, a, state, plan);
    } else {
      var w2 := SetContext(w1, Executing(Verifier), a, state.verifier);
      SetContextKeepsInv(w1, Executing(Verifier), a, state.verifier);
      ValidateSound(env, who, w2, a, state, plan);
      ValidateRunsOnce(env, who, w2, a, state, plan);
      var v := Validate(env, who, w2, a, state, plan);
      FinallySound(w1, Executing(Verifier), a, state.verifier, v, a);
      FinallyKeeps(v, Executing(Verifier), a);
    }
  }

  /**
   An operation that returns has used the next nonce of its channel, exactly once, whatever its
   verifier, hook and target called back into, and has otherwise left its account's record alone.
   */
  lemma OperationRunsOnce(env: Env, who: Caller, w: World, a: Hash, plan: Plan)
    requires Inv(w)
    ensures var o := ExecuteUserOp(env, who, w, a, plan);
            o.exit.Done? ==>
              && ValidOperation(plan.op) && !Escrowed(w.book, a)
              && OneOperation(w.book, o.world.book, a, plan.op.nonce)
              && Frozen(w.book, o.world.book)
  {
    hide Inv, OneOperation, UnderLocks, Sound, Frozen, Escrowed, ValidOperation, Finally;
    var o := ExecuteUserOp(env, who, w, a, plan);
    if o.exit.Done? {
      var (w1, state) := (SetContext(w, Lock, a, a), w.book.accounts[a]);
      UnderLocksRunsOnce(env, who, w, a, plan);
      ExecutesUnderLocks(env, who, w, a, plan);
      var v := UnderLocks(env, who, w1, a, state, plan);
      FinallySound(w, Lock, a, a, v, a);
      FinallyKeeps(v, Lock, a);
    }
  }

  lemma ExecutesUnderLocks(env: Env, who: Caller, w: World, a: Hash, plan: Plan)
    requires a != 0 && !Locked(w, a) && a in w.book.accounts && !Escrowed(w.book, a) && ValidOperation(plan.op)
    ensures var (w1, state) := (SetContext(w, Lock, a, a), w.book.accounts[a]);
            ExecuteUserOp(env, who, w, a, plan) == Finally(UnderLocks(env, who, w1, a, state, plan), Lock, a)
  {
    hide Validate, Finally, Escrowed, ValidOperation;
  }

  /** The number of operations of a batch on a channel. */
  function OnChannel(plans: seq<Plan>, channel: nat): nat {
    if plans == [] then 0
    else (if plans[0].op.nonce >= 0 && Channel(plans[0].op.nonce) == channel then 1 else 0) + OnChannel(plans[1..], channel)
  }

  /** A batch that returns has advanced each channel by its number of operations on that channel. */
  lemma {:induction false} BatchRunsEach(env: Env, who: Caller, w: World, a: Hash, plans: seq<Plan>)
    requires Inv(w)
    ensures var o := ExecuteEach(env, who, w, a, plans);
            o.exit.Done? ==>
              && forall channel: nat :: NextNonce(o.world.book, a, channel) == NextNonce(w.book, a, channel) + OnChannel(plans, channel)
    decreases |plans|
  {
    hide Inv, Sound, Frozen, Escrowed, ValidOperation, ExecuteUserOp;
    if plans != [] {
      var first := ExecuteUserOp(env, who, w, a, plans[0]);
      ExecuteSound(env, who, w, a, plans[0]);
      OperationRunsOnce(env, who, w, a, plans[0]);
      if first.exit.Done? {
        Arrives(w, first, 0);
        BatchRunsEach(env, who, first.world, a, plans[1..]);
      }
    }
  }
}
