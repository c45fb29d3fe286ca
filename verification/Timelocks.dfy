/**
 Timelocks in block time.  Every time that an event of a history carries is that of the block of the
 transaction that wrote it; so what the sequential protocol says about recorded times holds of the
 transactions' own block times.
 */
module Timelocks {
  import opened Bytes
  import opened Records
  import opened Machine
  import opened Journal
  import opened Authority
  import opened Guarantee
  import opened Runs

  // ---------------------------------------------------------------------------
  // Positions and their transactions
  // ---------------------------------------------------------------------------

  /** Position `i` of the log was written by transaction `k`. */
  predicate WrittenBy(txs: seq<Transaction>, k: nat, i: nat) {
    k < |txs| && |History(txs[..k]).log| <= i < |History(txs[..k + 1]).log|
  }

  lemma NothingYet(txs: seq<Transaction>)
    ensures History(txs[..0]).log == []
  {
    assert txs[..0] == [];
  }

  /** Every position of the log was written by one of the transactions. */
  lemma {:induction false} WriterOf(txs: seq<Transaction>, n: nat, i: nat) returns (k: nat)
    requires n <= |txs| && i < |History(txs[..n]).log|
    ensures WrittenBy(txs, k, i)
  {
    hide History;
    NothingYet(txs);
    if i < |History(txs[..n - 1]).log| {
      k := WriterOf(txs, n - 1, i);
    } else {
      k := n - 1;
    }
  }

  lemma {:induction false} ViewsExtend(txs: seq<Transaction>, n: nat)
    requires n <= |txs|
    ensures Extends(History(txs[..n]).views, History(txs).views)
  {
    hide History, Inv, Stamped, ViewFits;
    if n == |txs| {
      assert txs[..n] == txs;
    } else {
      var before := txs[..|txs| - 1];
      assert before[..n] == txs[..n] && txs[..|txs|] == txs;
      ViewsExtend(before, n);
      HistoryStep(txs, |txs| - 1);
      var (x, y, z) := (History(txs[..n]).views, History(before).views, History(txs).views);
      assert z[..|x|] == z[..|y|][..|x|];
    }
  }

  /** What transaction `k` stamped, seen in the whole history. */
  lemma WrittenIsStamped(txs: seq<Transaction>, k: nat, i: nat)
    requires WrittenBy(txs, k, i)
    ensures i < |History(txs).log| && StampFits(Started(txs, k), History(txs).log[i], i, History(txs).views)
  {
    hide History, Inv, ViewFits, StampFits;
    HistoryStep(txs, k);
    LogsExtend(txs, k + 1);
    ViewsExtend(txs, k + 1);
    var (v, h) := (History(txs[..k + 1]), History(txs));
    assert h.log[i] == h.log[..|v.log|][i];
    StampKept(Started(txs, k), v.log[i], i, v.views, h.views);
  }

  /** Every recorded time is the block time of the transaction that recorded it. */
  lemma TimesAreBlockTimes(txs: seq<Transaction>, k: nat, i: nat)
    requires WrittenBy(txs, k, i)
    ensures i < |History(txs).log|
    ensures var e := History(txs).log[i];
            (|| e.UpdateRequested? || e.UpdateConfirmed? || e.CallStaged? || e.CallConfirmed?
             || e.EscapeInitiated? || e.EscapeFinalized? || e.ReclaimInitiated? || e.EscrowReclaimed?)
            ==> e.time == txs[k].header.time
  {
    hide History, RanInContext;
    WrittenIsStamped(txs, k, i);
  }

  /** Positions `j` and `i` were written by transactions `l` and `k`, at least `wait` milliseconds apart. */
  predicate Waited(txs: seq<Transaction>, l: nat, j: nat, k: nat, i: nat, wait: nat) {
    j < i && WrittenBy(txs, l, j) && WrittenBy(txs, k, i) && txs[k].header.time >= txs[l].header.time + wait
  }

  /** Recorded times that are so far apart are block times that are. */
  lemma RecordedIsWaited(txs: seq<Transaction>, j: nat, i: nat, wait: nat) returns (l: nat, k: nat)
    requires j < i < |History(txs).log| && HasTime(History(txs).log[j]) && HasTime(History(txs).log[i])
    requires History(txs).log[i].time >= History(txs).log[j].time + wait
    ensures Waited(txs, l, j, k, i, wait)
    ensures History(txs).log[j].time == txs[l].header.time && History(txs).log[i].time == txs[k].header.time
  {
    hide History, WrittenBy;
    assert txs[..|txs|] == txs;
    l := WriterOf(txs, |txs|, j);
    k := WriterOf(txs, |txs|, i);
    WrittenInRange(txs, l, j);
    WrittenInRange(txs, k, i);
    TimesAreBlockTimes(txs, l, j);
    TimesAreBlockTimes(txs, k, i);
  }

  lemma WrittenInRange(txs: seq<Transaction>, k: nat, i: nat)
    requires WrittenBy(txs, k, i)
    ensures k < |txs|
  {
  }

  // ---------------------------------------------------------------------------
  // Staged calls
  // ---------------------------------------------------------------------------

  /** The call confirmed at `i` was staged at `j`, in a block 24 hours earlier, and not restaged, confirmed or swept in between. */
  ghost predicate StagedADayBefore(txs: seq<Transaction>, i: nat, j: nat) {
    var log := History(txs).log;
    && i < |log| && log[i].CallConfirmed?
    && exists l: nat, k: nat ::
         && Waited(txs, l, j, k, i, 86_400_000)
         && log[i].time == txs[k].header.time
         && log[j] == CallStaged(log[i].role, log[i].a, log[i].module_, log[i].digest, txs[l].header.time)
         && forall n | j < n < i :: !EndsCall(log[n], log[i].role, log[i].a)
  }

  /** In every history a confirmed call was staged 24 hours of block time before, with the same module, method and arguments. */
  lemma ConfirmedCallsWaitedADay(txs: seq<Transaction>, i: nat)
    requires i < |History(txs).log| && History(txs).log[i].CallConfirmed?
    ensures exists j: nat :: StagedADayBefore(txs, i, j)
  {
    hide History, Inv, LegalLog, Replay, WrittenBy;
    HistoriesAreLegal(txs);
    var log := History(txs).log;
    ConfirmedCallsWereStaged(log, i);
    var j: nat :| Confirms(log, i, j);
    var l, k := RecordedIsWaited(txs, j, i, 86_400_000);
    assert StagedADayBefore(txs, i, j);
  }

  // ---------------------------------------------------------------------------
  // Rotations
  // ---------------------------------------------------------------------------

  /** The update of (role, a) to `m` confirmed at `i` was requested 24 hours earlier, and not replaced or removed in between. */
  ghost predicate RequestedADayBefore(txs: seq<Transaction>, i: nat, role: Role, a: Hash, m: Hash) {
    var log := History(txs).log;
    && i < |log| && log[i].UpdateConfirmed?
    && exists j: nat, l: nat, k: nat, params: seq<Byte> ::
         && Waited(txs, l, j, k, i, 86_400_000)
         && log[i].time == txs[k].header.time
         && log[j] == UpdateRequested(role, a, m, params, txs[l].header.time)
         && forall n | j < n < i :: !EndsUpdate(log[n], role, a)
  }

  lemma RotationsWaitADay(txs: seq<Transaction>, i: nat)
    requires i < |History(txs).log| && History(txs).log[i].UpdateConfirmed?
    ensures var e := History(txs).log[i]; RequestedADayBefore(txs, i, e.role, e.a, e.module_)
  {
    hide History, Inv, LegalLog, Replay, WrittenBy, Apply;
    HistoriesAreLegal(txs);
    var log := History(txs).log;
    StepAt(log, i);
    var past, e := log[..i], log[i];
    var p := Replay(past).updates[(e.role, e.a)];
    PendingIsStaged(past, e.role, e.a, p);
    var j: nat :| UpdateStagedAt(past, j, e.role, e.a, p);
    assert forall n | 0 <= n < i :: log[n] == past[n];
    var l, k := RecordedIsWaited(txs, j, i, 86_400_000);
    WrittenInRange(txs, l, j);
    assert log[j] == UpdateRequested(e.role, e.a, e.module_, p.params, txs[l].header.time);
  }

  // ---------------------------------------------------------------------------
  // Escape
  // ---------------------------------------------------------------------------

  /** The escape finalized at `i` was initiated `timelock` seconds of block time before. */
  ghost predicate InitiatedBefore(txs: seq<Transaction>, i: nat, a: Hash, timelock: nat) {
    var log := History(txs).log;
    && i < |log| && log[i].EscapeFinalized?
    && exists j: nat, l: nat, k: nat ::
         && Waited(txs, l, j, k, i, timelock * 1000)
         && log[i].time == txs[k].header.time && log[j] == EscapeInitiated(a, txs[l].header.time)
  }

  /** In every history a finalized escape was initiated the account's own timelock before, which is 7 to 90 days. */
  lemma RecoveriesWaitTheTimelock(txs: seq<Transaction>, i: nat)
    requires i < |History(txs).log| && History(txs).log[i].EscapeFinalized?
    ensures var (a, b) := (History(txs).log[i].a, Replay(History(txs).log[..i]));
            && a in b.accounts && 604_800 <= b.accounts[a].escapeTimelock <= 7_776_000
            && InitiatedBefore(txs, i, a, b.accounts[a].escapeTimelock)
  {
    hide History, Inv, LegalLog, Replay, WrittenBy, Apply;
    HistoriesAreLegal(txs);
    var log := History(txs).log;
    StepAt(log, i);
    var past, e := log[..i], log[i];
    AccountsAreWellFormed(past);
    var j :| 0 <= j < |past| && past[j] == EscapeInitiated(e.a, e.record.escapeAt);
    assert log[j] == past[j];
    var l, k := RecordedIsWaited(txs, j, i, e.record.escapeTimelock * 1000);
  }

  /** The events after which an account's cooldown starts again or is forgotten. */
  predicate MovesCooldown(e: Event, a: Hash) {
    (e.EscapeInitiated? || e.EscapeSwept? || e.EscrowSettled?) && e.a == a
  }

  lemma CooldownAfter(b: Book, e: Event, a: Hash)
    ensures !MovesCooldown(e, a) ==> (a in Apply(b, e).escapes <==> a in b.escapes)
    ensures !MovesCooldown(e, a) && a in b.escapes ==> Apply(b, e).escapes[a] == b.escapes[a]
    ensures e.EscapeInitiated? && e.a == a ==> a in Apply(b, e).escapes && Apply(b, e).escapes[a] == e.time
  {
    EscapesOnly(b, e);
    hide Apply;
  }

  lemma EscapesOnly(b: Book, e: Event)
    ensures Apply(b, e).escapes == EscapesAfter(b.escapes, e)
  {
  }

  lemma {:induction false} CooldownKept(log: seq<Event>, j: nat, i: nat, a: Hash)
    requires j < i <= |log| && log[j].EscapeInitiated? && log[j].a == a
    requires forall n | j < n < i :: !MovesCooldown(log[n], a)
    ensures var b := Replay(log[..i]); a in b.escapes && b.escapes[a] == log[j].time
    decreases i
  {
    hide Apply, MovesCooldown;
    assert log[..i][..i - 1] == log[..i - 1] && log[..i][i - 1] == log[i - 1];
    CooldownAfter(Replay(log[..i - 1]), log[i - 1], a);
    if i - 1 > j {
      CooldownKept(log, j, i - 1, a);
    }
  }

  /** In every history two initiations of one account with neither recovery nor sale in between are an hour apart. */
  lemma InitiationsCoolDown(txs: seq<Transaction>, j: nat, i: nat, a: Hash)
    requires j < i < |History(txs).log|
    requires var log := History(txs).log;
             && log[j].EscapeInitiated? && log[j].a == a && log[i].EscapeInitiated? && log[i].a == a
             && forall n | j < n < i :: !MovesCooldown(log[n], a)
    ensures exists l: nat, k: nat :: Waited(txs, l, j, k, i, 3_600_000)
  {
    hide History, Inv, LegalLog, Replay, WrittenBy, Apply, MovesCooldown;
    HistoriesAreLegal(txs);
    var log := History(txs).log;
    StepAt(log, i);
    CooldownKept(log, j, i, a);
    var l, k := RecordedIsWaited(txs, j, i, 3_600_000);
  }

  // ---------------------------------------------------------------------------
  // Forced exits
  // ---------------------------------------------------------------------------

  /** The events that set, restart or remove the account's reclaim. */
  predicate MovesReclaim(e: Event, a: Hash) {
    (e.ReclaimInitiated? || EndsEscrow(e)) && e.a == a
  }

  lemma ReclaimAfter(b: Book, e: Event, a: Hash)
    ensures !MovesReclaim(e, a) ==> (a in Apply(b, e).reclaims <==> a in b.reclaims)
    ensures !MovesReclaim(e, a) && a in b.reclaims ==> Apply(b, e).reclaims[a] == b.reclaims[a]
    ensures MovesReclaim(e, a) && a in Apply(b, e).reclaims ==> e == ReclaimInitiated(a, Apply(b, e).reclaims[a])
  {
    ReclaimsOnly(b, e);
    hide Apply;
  }

  lemma ReclaimsOnly(b: Book, e: Event)
    ensures Apply(b, e).reclaims == ReclaimsAfter(b.reclaims, e)
  {
  }

  /** A running reclaim was started at `j` and has run undisturbed since. */
  ghost predicate ReclaimStartedAt(log: seq<Event>, j: nat, a: Hash, time: nat) {
    j < |log| && log[j] == ReclaimInitiated(a, time) && forall n | j < n < |log| :: !MovesReclaim(log[n], a)
  }

  lemma {:induction false} ReclaimHasASource(log: seq<Event>, a: Hash) returns (j: nat)
    requires a in Replay(log).reclaims
    ensures ReclaimStartedAt(log, j, a, Replay(log).reclaims[a])
  {
    hide Apply, MovesReclaim;
    if log == [] {
      assert false;
    } else {
      var past, e := log[..|log| - 1], log[|log| - 1];
      ReclaimAfter(Replay(past), e, a);
      if MovesReclaim(e, a) {
        j := |past|;
      } else {
        j := ReclaimHasASource(past, a);
      }
    }
  }

  /** The forced exit at `i` was started a week of block time before and ran undisturbed. */
  ghost predicate StartedAWeekBefore(txs: seq<Transaction>, i: nat) {
    var log := History(txs).log;
    && i < |log| && log[i].EscrowReclaimed?
    && exists j: nat, l: nat, k: nat ::
         && Waited(txs, l, j, k, i, 604_800_000)
         && log[i].time == txs[k].header.time && log[j] == ReclaimInitiated(log[i].a, txs[l].header.time)
         && forall n | j < n < i :: !MovesReclaim(log[n], log[i].a)
  }

  lemma ForcedExitsWaitAWeek(txs: seq<Transaction>, i: nat)
    requires i < |History(txs).log| && History(txs).log[i].EscrowReclaimed?
    ensures StartedAWeekBefore(txs, i)
  {
    hide History, Inv, LegalLog, Replay, WrittenBy, Apply, MovesReclaim;
    HistoriesAreLegal(txs);
    var log := History(txs).log;
    StepAt(log, i);
    var past, e := log[..i], log[i];
    var j := ReclaimHasASource(past, e.a);
    assert forall n | 0 <= n < i :: log[n] == past[n];
    var l, k := RecordedIsWaited(txs, j, i, 604_800_000);
  }
}
