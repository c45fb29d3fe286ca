/**
 The sequential theorems, said of the wallet itself: for every history of transactions with every
 nesting of callbacks, and every continuation of it.
 */
module Histories {
  import opened Records
  import opened Machine
  import opened Journal
  import opened Authority
  import opened Guarantee
  import opened Runs
  import opened Timelocks
  import opened Staging

  /** A continued history extends the log, and both logs replay to the stored books. */
  lemma Continues(before: seq<Transaction>, after: seq<Transaction>)
    ensures var (x, y) := (History(before), History(before + after));
            && LegalLog(x.log) && Replay(x.log) == x.book && LegalLog(y.log) && Replay(y.log) == y.book
            && |x.log| <= |y.log| && y.log[..|x.log|] == x.log
  {
    hide History, Inv, LegalLog, Replay;
    HistoriesAreLegal(before);
    HistoriesAreLegal(before + after);
    assert (before + after)[..|before|] == before;
    HistoriesExtend(before + after, |before|);
  }

  /** Across every history, the operations committed on a channel are numbered 0 to cursor - 1, once each, without wrap. */
  lemma NoncesRunOnceAndInOrder(txs: seq<Transaction>, a: Hash, channel: nat)
    ensures var (w, s) := (History(txs), Sequences(History(txs).log, a, channel));
            && |s| == NextNonce(w.book, a, channel) <= 0x1_0000_0000_0000_0000
            && forall k | 0 <= k < |s| :: s[k] == k
  {
    hide History, Inv, LegalLog, Replay, Sequences;
    HistoriesAreLegal(txs);
    NoncesAreConsumedInOrder(History(txs).log, a, channel);
  }

  /** An escrowed account is parked through every continuation in which the escrow does not end. */
  lemma EscrowParksTheAccount(before: seq<Transaction>, after: seq<Transaction>, a: Hash)
    requires Escrowed(History(before).book, a) && a in History(before).book.accounts
    requires var (x, y) := (History(before).log, History(before + after).log);
             forall i | |x| <= i < |y| :: !(EndsEscrow(y[i]) && y[i].a == a)
    ensures Parked(History(before).book, History(before + after).book, a)
  {
    hide History, Inv, LegalLog, Replay, Parked;
    Continues(before, after);
    var (x, y) := (History(before).log, History(before + after).log);
    assert forall i | |x| <= i < |y| :: !(EndsEscrow(y[i]) && y[i].a == a);
    EscrowFreezes(y, |x|, a);
  }

  // ---------------------------------------------------------------------------
  // Cleanups and their transaction
  // ---------------------------------------------------------------------------

  /**
   Before position `i`, in the transaction that wrote it, module `m` completed `clearAccount` for
   (role, a): it had control during that transaction, under its own configuration context.
   */
  ghost predicate CleanedFor(txs: seq<Transaction>, i: nat, role: Role, a: Hash, m: Hash)
    requires i < |History(txs).log|
  {
    exists k: nat, j: nat | j < i && WrittenBy(txs, k, j) && WrittenBy(txs, k, i) ::
      && IsCleanup(History(txs).log[j], role, a, m)
      && RanInContext(History(txs).log[j], j, History(txs).views)
      && |History(txs[..k]).log| <= History(txs).views[History(txs).log[j].view].at
  }

  /** A cleanup after the start of an operation is one in the operation's own transaction. */
  lemma CleanedInTransaction(txs: seq<Transaction>, i: nat, role: Role, a: Hash, m: Hash)
    requires i < |History(txs).log| && HasSince(History(txs).log[i])
    requires CleanedSince(History(txs).log[..i], History(txs).log[i].since, role, a, m)
    ensures CleanedFor(txs, i, role, a, m)
  {
    hide History, RanInContext;
    var log := History(txs).log;
    assert txs[..|txs|] == txs;
    var k := WriterOf(txs, |txs|, i);
    WrittenIsStamped(txs, k, i);
    var j :| log[i].since <= j < i && IsCleanup(log[..i][j], role, a, m);
    assert log[..i][j] == log[j];
    WrittenIsStamped(txs, k, j);
    assert WrittenBy(txs, k, j);
  }

  // ---------------------------------------------------------------------------
  // Authority
  // ---------------------------------------------------------------------------

  /** The pointer of an account after the first `i` events. */
  function PointerAt(log: seq<Event>, i: nat, role: Role, a: Hash): Hash
    requires i <= |log|
  {
    var b := Replay(log[..i]);
    if a in b.accounts then Pointer(b.accounts[a], role) else 0
  }

  /**
   A staged change of the pointer at position `i`: a confirmation of an update requested 24 hours of block
   time before, a recovery begun `timelock` seconds of block time before, or a sale; and in the same
   transaction the old module was cleaned up first.
   */
  ghost predicate CleanStagedChange(txs: seq<Transaction>, i: nat, role: Role, a: Hash, timelock: nat, from: Hash)
    requires i < |History(txs).log|
  {
    var (log, e) := (History(txs).log, History(txs).log[i]);
    var to := PointerAt(log, i + 1, role, a);
    && (|| (e.UpdateConfirmed? && RequestedADayBefore(txs, i, role, a, to))
        || (e.EscapeFinalized? && e.a == a && to == (if role.Verifier? then e.verifier else 0) && InitiatedBefore(txs, i, a, timelock))
        || (e.EscrowSettled? && e.a == a && to == 0))
    && CleanedFor(txs, i, role, a, from)
  }

  /** The first event that moves a non-zero pointer does so by a staged change. */
  lemma {:induction false} FirstChangeIsStaged(log: seq<Event>, n: nat, m: nat, role: Role, a: Hash, timelock: nat) returns (i: nat)
    requires LegalLog(log) && n <= m <= |log|
    requires a in Replay(log[..n]).accounts && Replay(log[..n]).accounts[a].escapeTimelock == timelock
    requires PointerAt(log, n, role, a) != 0 && PointerAt(log, m, role, a) != PointerAt(log, n, role, a)
    ensures n <= i < m
    ensures StagedChange(log[..i], log[i], role, a, timelock, PointerAt(log, n, role, a), PointerAt(log, i + 1, role, a))
    decreases m - n
  {
    hide Replay, LegalLog, StagedChange;
    AuthorityIsStaged(log, n, role, a);
    OwnershipIsStable(log, n, a);
    if PointerAt(log, n + 1, role, a) == PointerAt(log, n, role, a) {
      i := FirstChangeIsStaged(log, n + 1, m, role, a, timelock);
    } else {
      i := n;
    }
  }

  lemma StagedChangeCleans(past: seq<Event>, e: Event, role: Role, a: Hash, timelock: nat, from: Hash, to: Hash)
    requires StagedChange(past, e, role, a, timelock, from, to)
    ensures HasSince(e) && CleanedSince(past, e.since, role, a, from) && e.a == a
    ensures e.UpdateConfirmed? || e.EscapeFinalized? || e.EscrowSettled?
    ensures e.UpdateConfirmed? ==> e.role == role && e.module_ == to
    ensures e.EscapeFinalized? ==> to == if role.Verifier? then e.verifier else 0
    ensures e.EscrowSettled? ==> to == 0
  {
    hide CleanedSince, TimelockedRequest, TimelockedEscape;
  }

  lemma {:induction false} TimelockStays(log: seq<Event>, n: nat, i: nat, a: Hash)
    requires LegalLog(log) && n <= i <= |log| && a in Replay(log[..n]).accounts
    ensures a in Replay(log[..i]).accounts
    ensures Replay(log[..i]).accounts[a].escapeTimelock == Replay(log[..n]).accounts[a].escapeTimelock
  {
    hide LegalLog, Replay;
    if n < i {
      TimelockStays(log, n, i - 1, a);
      OwnershipIsStable(log, i - 1, a);
    }
  }

  /** From position `n` on, the pointer `from` of an account was replaced by such a change. */
  ghost predicate ReplacedInStages(txs: seq<Transaction>, n: nat, role: Role, a: Hash, timelock: nat, from: Hash) {
    exists i: nat | n <= i < |History(txs).log| :: CleanStagedChange(txs, i, role, a, timelock, from)
  }

  lemma ChangeIsStaged(txs: seq<Transaction>, n: nat, role: Role, a: Hash, timelock: nat)
    requires LegalLog(History(txs).log) && n <= |History(txs).log|
    requires var log := History(txs).log;
             && a in Replay(log[..n]).accounts && Replay(log[..n]).accounts[a].escapeTimelock == timelock
             && PointerAt(log, n, role, a) != 0 && PointerAt(log, |log|, role, a) != PointerAt(log, n, role, a)
    ensures ReplacedInStages(txs, n, role, a, timelock, PointerAt(History(txs).log, n, role, a))
  {
    hide History, LegalLog, Replay, StagedChange, CleanedFor, CleanedSince, PointerAt, RequestedADayBefore, InitiatedBefore;
    var log := History(txs).log;
    var from := PointerAt(log, n, role, a);
    var i := FirstChangeIsStaged(log, n, |log|, role, a, timelock);
    StagedChangeCleans(log[..i], log[i], role, a, timelock, from, PointerAt(log, i + 1, role, a));
    CleanedInTransaction(txs, i, role, a, from);
    TimelockStays(log, n, i, a);
    if log[i].UpdateConfirmed? {
      RotationsWaitADay(txs, i);
    } else if log[i].EscapeFinalized? {
      RecoveriesWaitTheTimelock(txs, i);
    }
    assert CleanStagedChange(txs, i, role, a, timelock, from);
  }

  /**
   If a verifier or hook that was installed after `before` is no longer the one installed after a
   continuation, then somewhere in between it was replaced by a staged change: timelocked, and in the
   same transaction its own cleanup completed first, run under its own configuration context.
   */
  lemma AuthorityChangesAreStaged(before: seq<Transaction>, after: seq<Transaction>, role: Role, a: Hash)
    requires a in History(before).book.accounts && a in History(before + after).book.accounts
    requires Pointer(History(before).book.accounts[a], role) != 0
    requires Pointer(History(before + after).book.accounts[a], role) != Pointer(History(before).book.accounts[a], role)
    ensures var (n, state) := (|History(before).log|, History(before).book.accounts[a]);
            ReplacedInStages(before + after, n, role, a, state.escapeTimelock, Pointer(state, role))
  {
    hide History, Inv, LegalLog, Replay, ReplacedInStages;
    Continues(before, after);
    var (x, log) := (History(before).log, History(before + after).log);
    assert log[..|log|] == log;
    var state := History(before).book.accounts[a];
    assert PointerAt(log, |x|, role, a) == Pointer(state, role);
    ChangeIsStaged(before + after, |x|, role, a, state.escapeTimelock);
  }

  // ---------------------------------------------------------------------------
  // Rosters
  // ---------------------------------------------------------------------------

  function RosterAt(log: seq<Event>, i: nat, role: Role, a: Hash): seq<Hash>
    requires i <= |log|
  {
    Get(Replay(log[..i]).rosters, (role, a), [])
  }

  predicate MovesRoster(e: Event, role: Role, a: Hash) {
    (e.RosterSet? || e.RosterCleared?) && e.role == role && e.a == a
  }

  lemma {:induction false} FirstDeparture(log: seq<Event>, n: nat, m: nat, role: Role, a: Hash, child: Hash) returns (i: nat)
    requires LegalLog(log) && n <= m <= |log| && child in RosterAt(log, n, role, a) && child !in RosterAt(log, m, role, a)
    ensures n <= i < m && MovesRoster(log[i], role, a) && CleanedSince(log[..i], log[i].since, role, a, child)
    decreases m - n
  {
    hide Replay, LegalLog, CleanedSince;
    if child in RosterAt(log, n + 1, role, a) {
      i := FirstDeparture(log, n + 1, m, role, a, child);
    } else {
      ChildrenLeaveCleaned(log, n, role, a, child);
      i := n;
    }
  }

  /**
   If a child that was on a stored roster after `before` is not on it after a continuation, then
   somewhere in between the roster was replaced or cleared, and in the same transaction the child's own
   cleanup completed first, run under its own configuration context.
   */
  lemma DepartedChildrenWereCleaned(before: seq<Transaction>, after: seq<Transaction>, role: Role, a: Hash, child: Hash)
    requires child in Get(History(before).book.rosters, (role, a), [])
    requires child !in Get(History(before + after).book.rosters, (role, a), [])
    ensures var (n, log) := (|History(before).log|, History(before + after).log);
            exists i: nat | n <= i < |log| :: MovesRoster(log[i], role, a) && CleanedFor(before + after, i, role, a, child)
  {
    hide History, Inv, LegalLog, Replay, CleanedFor, CleanedSince;
    Continues(before, after);
    var (x, log) := (History(before).log, History(before + after).log);
    assert log[..|log|] == log;
    assert RosterAt(log, |x|, role, a) == Get(History(before).book.rosters, (role, a), []);
    var i := FirstDeparture(log, |x|, |log|, role, a, child);
    CleanedInTransaction(before + after, i, role, a, child);
  }

  // ---------------------------------------------------------------------------
  // Staged calls
  // ---------------------------------------------------------------------------

  /** The staging at `j` was made for exactly this child call, and for no other. */
  ghost predicate StagedFor(log: seq<Event>, j: nat, role: Role, child: Hash, name: string, args: seq<Argument>, t: Topology)
    requires j < |log| && log[j].CallStaged?
  {
    && log[j].digest == ChildDigest(role, child, name, args, t)
    && forall child', name', args', t' | log[j].digest == ChildDigest(role, child', name', args', t') ::
         && child' == child && name' == name && args' == args && t'.children == t.children
         && (role.Verifier? ==> t'.threshold == t.threshold)
  }

  /**
   In every history, a confirmed child call was staged 24 hours of block time before for the same child, method,
   arguments, ordered roster and verifier threshold, and nothing has replaced or removed that staging.
   */
  lemma ConfirmedChildCallsWereStaged(
      txs: seq<Transaction>, i: nat, child: Hash, name: string, args: seq<Argument>, t: Topology)
    requires i < |History(txs).log| && History(txs).log[i].CallConfirmed?
    requires History(txs).log[i].digest == ChildDigest(History(txs).log[i].role, child, name, args, t)
    ensures exists j: nat :: StagedADayBefore(txs, i, j) && StagedFor(History(txs).log, j, History(txs).log[i].role, child, name, args, t)
  {
    hide History, ChildDigest, WrittenBy;
    var log := History(txs).log;
    ConfirmedCallsWaitedADay(txs, i);
    var j: nat :| StagedADayBefore(txs, i, j);
    var role := log[i].role;
    forall child', name', args', t' | log[j].digest == ChildDigest(role, child', name', args', t')
      ensures && child' == child && name' == name && args' == args && t'.children == t.children
              && (role.Verifier? ==> t'.threshold == t.threshold)
    {
      ChildDigestBindsTheRoster(role, child', name', args', t', child, name, args, t);
    }
    assert StagedFor(log, j, role, child, name, args, t);
  }
}
