/**
 Who may act for an account changes only in stages.  Statements about an arbitrary legal log: where
 a pending update comes from, and by which events a module pointer, the backup owner or the escape
 timelock of an account can change.
 */
module Authority {
  import opened Records
  import opened Journal

  // ---------------------------------------------------------------------------
  // Pending updates
  // ---------------------------------------------------------------------------

  /** The events that replace or remove the pending update of (role, a). */
  predicate EndsUpdate(e: Event, role: Role, a: Hash) {
    || ((e.UpdateRequested? || e.UpdateDropped?) && e.role == role && e.a == a)
    || ((e.EscapeSwept? || e.EscrowSettled?) && e.a == a)
  }

  /** Update `p` of (role, a) was requested at position `j` and nothing has replaced or removed it. */
  ghost predicate UpdateStagedAt(log: seq<Event>, j: nat, role: Role, a: Hash, p: PendingUpdate) {
    && j < |log|
    && log[j] == UpdateRequested(role, a, p.module_, p.params, p.since)
    && forall k | j < k < |log| :: !EndsUpdate(log[k], role, a)
  }

  ghost predicate UpdateStaged(log: seq<Event>, role: Role, a: Hash, p: PendingUpdate) {
    exists j: nat :: UpdateStagedAt(log, j, role, a, p)
  }

  predicate Pending(b: Book, role: Role, a: Hash, p: PendingUpdate) {
    (role, a) in b.updates && b.updates[(role, a)] == p
  }

  lemma UpdateAfter(b: Book, e: Event, role: Role, a: Hash, p: PendingUpdate)
    ensures Pending(Apply(b, e), role, a, p) <==>
              if EndsUpdate(e, role, a) then e == UpdateRequested(role, a, p.module_, p.params, p.since)
              else Pending(b, role, a, p)
  {
    if !e.UpdateRequested? && !e.UpdateDropped? && !e.EscapeSwept? && !e.EscrowSettled? {
      OthersKeepUpdates(b, e);
      hide Apply;
    } else if e.UpdateRequested? || e.UpdateDropped? {
      RequestWrites(b, e);
      hide Apply;
    } else {
      SweepingRemoves(b, e);
      hide Apply;
    }
  }

  lemma OthersKeepUpdates(b: Book, e: Event)
    requires !e.UpdateRequested? && !e.UpdateDropped? && !e.EscapeSwept? && !e.EscrowSettled?
    ensures Apply(b, e).updates == b.updates
  {
  }

  lemma RequestWrites(b: Book, e: Event)
    requires e.UpdateRequested? || e.UpdateDropped?
    ensures Apply(b, e).updates ==
              if e.UpdateDropped? then b.updates - {(e.role, e.a)}
              else b.updates[(e.role, e.a) := PendingUpdate(e.module_, e.params, e.time)]
  {
  }

  lemma SweepingRemoves(b: Book, e: Event)
    requires e.EscapeSwept? || e.EscrowSettled?
    ensures Apply(b, e).updates == b.updates - {(Verifier, e.a), (Hook, e.a)}
    ensures Apply(b, e).calls == b.calls - {(Verifier, e.a), (Hook, e.a)}
  {
  }

  lemma StagedAfter(past: seq<Event>, log: seq<Event>, role: Role, a: Hash, p: PendingUpdate)
    requires |log| == |past| + 1 && log[..|past|] == past
    ensures var e := log[|past|];
            UpdateStaged(log, role, a, p) <==>
              if EndsUpdate(e, role, a) then e == UpdateRequested(role, a, p.module_, p.params, p.since)
              else UpdateStaged(past, role, a, p)
  {
    var e := log[|past|];
    assert forall k | 0 <= k < |past| :: log[k] == log[..|past|][k];
    if e == UpdateRequested(role, a, p.module_, p.params, p.since) {
      assert UpdateStagedAt(log, |past|, role, a, p);
    } else if UpdateStaged(log, role, a, p) {
      var j: nat :| UpdateStagedAt(log, j, role, a, p);
      assert j < |past|;
      assert UpdateStagedAt(past, j, role, a, p);
    } else if !EndsUpdate(e, role, a) && UpdateStaged(past, role, a, p) {
      var j: nat :| UpdateStagedAt(past, j, role, a, p);
      assert UpdateStagedAt(log, j, role, a, p);
    }
  }

  /** A pending update is exactly a request that nothing has replaced or removed since. */
  lemma {:induction false} PendingIsStaged(log: seq<Event>, role: Role, a: Hash, p: PendingUpdate)
    ensures Pending(Replay(log), role, a, p) <==> UpdateStaged(log, role, a, p)
  {
    if log != [] {
      var past := log[..|log| - 1];
      PendingIsStaged(past, role, a, p);
      hide Apply, UpdateStaged, Pending, EndsUpdate;
      UpdateAfter(Replay(past), log[|past|], role, a, p);
      StagedAfter(past, log, role, a, p);
    }
  }

  // ---------------------------------------------------------------------------
  // Module pointers
  // ---------------------------------------------------------------------------

  /** A request for `m`, at least 24 hours old and not replaced or removed since, is behind the change. */
  ghost predicate TimelockedRequest(past: seq<Event>, role: Role, a: Hash, m: Hash, now: nat) {
    exists p: PendingUpdate ::
      UpdateStaged(past, role, a, p) && p.module_ == m && now >= p.since + 86_400_000
  }

  /** An initiation at least `timelock` seconds old is behind the change. */
  ghost predicate TimelockedEscape(past: seq<Event>, a: Hash, timelock: nat, now: nat) {
    exists t: nat :: EscapeStartedAt(past, a, t) && now >= t + timelock * 1000
  }

  ghost predicate StagedChange(past: seq<Event>, e: Event, role: Role, a: Hash, timelock: nat, old_: Hash, new_: Hash) {
    match e
    case UpdateConfirmed(r, b, _, m, since, time) =>
      r == role && b == a && m == new_ && CleanedSince(past, since, role, a, old_) && TimelockedRequest(past, role, a, new_, time)
    case EscapeFinalized(b, _, v, since, time) =>
      && b == a && new_ == (if role.Verifier? then v else 0)
      && CleanedSince(past, since, role, a, old_) && TimelockedEscape(past, a, timelock, time)
    case EscrowSettled(b, _, _, since) =>
      b == a && new_ == 0 && CleanedSince(past, since, role, a, old_)
    case _ => false
  }

  lemma {:induction false} AccountsStay(log: seq<Event>, i: nat, a: Hash)
    requires i <= |log| && a in Replay(log[..i]).accounts
    ensures a in Replay(log).accounts
    decreases |log| - i
  {
    if i < |log| {
      assert log[..i + 1][..i] == log[..i];
      AccountsNeverLeave(Replay(log[..i]), log[i]);
      AccountsStay(log, i + 1, a);
    } else {
      assert log[..i] == log;
    }
  }

  lemma AccountsNeverLeave(b: Book, e: Event)
    ensures b.accounts.Keys <= Apply(b, e).accounts.Keys
  {
    if !WritesAccounts(e) {
      OthersKeepAccounts(b, e);
    } else if StoresRecord(e) {
      StoredAccount(b, e);
    }
  }

  /** Storing a record that is still current, or changing one field, can move a pointer in four ways only. */
  lemma PointerAfter(b: Book, past: seq<Event>, e: Event, role: Role, a: Hash)
    requires Legal(b, past, e) && a in b.accounts && a in Apply(b, e).accounts
    requires Pointer(Apply(b, e).accounts[a], role) != Pointer(b.accounts[a], role)
    ensures e.Installed? || e.UpdateConfirmed? || e.EscapeFinalized? || e.EscrowSettled?
    ensures e.a == a && (e.Installed? || e.UpdateConfirmed? ==> e.role == role)
    ensures !e.Installed? ==> Pointer(e.record, role) == Pointer(b.accounts[a], role)
    ensures Pointer(Apply(b, e).accounts[a], role)
         == if e.Installed? || e.UpdateConfirmed? then e.module_
            else if e.EscapeFinalized? && role.Verifier? then e.verifier
            else 0
  {
    if !WritesAccounts(e) {
      OthersKeepAccounts(b, e);
    } else if StoresRecord(e) {
      StoredAccount(b, e);
      hide Apply;
    }
  }

  /**
   A non-zero verifier or hook changes only by a confirmation of a request made at least 24 hours
   before, by finalizing an escape initiated at least the account's timelock before, or by a market
   settlement to zero, and each time the old module's cleanup completed first.
   */
  lemma AuthorityIsStaged(log: seq<Event>, i: nat, role: Role, a: Hash)
    requires LegalLog(log) && i < |log| && a in Replay(log[..i]).accounts
    ensures a in Replay(log[..i + 1]).accounts
    ensures var (b, c) := (Replay(log[..i]).accounts[a], Replay(log[..i + 1]).accounts[a]);
            Pointer(b, role) != 0 && Pointer(c, role) != Pointer(b, role) ==>
              StagedChange(log[..i], log[i], role, a, b.escapeTimelock, Pointer(b, role), Pointer(c, role))
  {
    hide Apply;
    StepAt(log, i);
    var past, e := log[..i], log[i];
    var b, c := Replay(past), Replay(log[..i + 1]);
    AccountsNeverLeave(b, e);
    var from, to := Pointer(b.accounts[a], role), Pointer(c.accounts[a], role);
    if from != 0 && to != from {
      PointerAfter(b, past, e, role, a);
      if e.UpdateConfirmed? {
        var p := b.updates[(role, a)];
        PendingIsStaged(past, role, a, p);
        assert TimelockedRequest(past, role, a, to, e.time);
      } else if e.EscapeFinalized? {
        assert TimelockedEscape(past, a, b.accounts[a].escapeTimelock, e.time);
      }
    }
  }

  /**
   The backup owner changes only by rotation of a platform-bound account with no escape running or
   by a market settlement, and the escape timelock never changes.
   */
  lemma OwnershipIsStable(log: seq<Event>, i: nat, a: Hash)
    requires LegalLog(log) && i < |log| && a in Replay(log[..i]).accounts
    ensures a in Replay(log[..i + 1]).accounts
    ensures var (b, c, e) := (Replay(log[..i]).accounts[a], Replay(log[..i + 1]).accounts[a], log[i]);
            && c.escapeTimelock == b.escapeTimelock
            && (c.owner != b.owner ==>
                  || (e == OwnerRotated(a, c.owner) && a in Replay(log[..i]).bindings && b.escapeAt == 0)
                  || (e.EscrowSettled? && e.a == a && e.owner == c.owner && Escrowing(Replay(log[..i]), a)))
  {
    StepAt(log, i);
    var past, e := log[..i], log[i];
    AccountsNeverLeave(Replay(past), e);
    OwnerAfter(Replay(past), past, e, a);
  }

  predicate Escrowing(b: Book, a: Hash) {
    Get(b.markets, a, 0) != 0
  }

  lemma OwnerAfter(b: Book, past: seq<Event>, e: Event, a: Hash)
    requires Legal(b, past, e) && a in b.accounts && a in Apply(b, e).accounts
    ensures var (x, y) := (b.accounts[a], Apply(b, e).accounts[a]);
            && y.escapeTimelock == x.escapeTimelock
            && (y.owner != x.owner ==>
                  || (e == OwnerRotated(a, y.owner) && a in b.bindings && x.escapeAt == 0)
                  || (e.EscrowSettled? && e.a == a && e.owner == y.owner && Escrowing(b, a)))
  {
    if !WritesAccounts(e) {
      OthersKeepAccounts(b, e);
    } else if StoresRecord(e) {
      StoredAccount(b, e);
      hide Apply;
    }
  }

  // ---------------------------------------------------------------------------
  // Staged maintenance calls
  // ---------------------------------------------------------------------------

  /** The events that replace or remove the staged call of (role, a). */
  predicate EndsCall(e: Event, role: Role, a: Hash) {
    || ((e.CallStaged? || e.CallConfirmed?) && e.role == role && e.a == a)
    || ((e.EscapeSwept? || e.EscrowSettled?) && e.a == a)
  }

  ghost predicate CallStagedAt(log: seq<Event>, j: nat, role: Role, a: Hash, p: PendingCall) {
    && j < |log|
    && log[j] == CallStaged(role, a, p.module_, p.digest, p.since)
    && forall k | j < k < |log| :: !EndsCall(log[k], role, a)
  }

  ghost predicate CallIsStaged(log: seq<Event>, role: Role, a: Hash, p: PendingCall) {
    exists j: nat :: CallStagedAt(log, j, role, a, p)
  }

  predicate PendingAs(b: Book, role: Role, a: Hash, p: PendingCall) {
    (role, a) in b.calls && b.calls[(role, a)] == p
  }

  lemma CallAfter(b: Book, e: Event, role: Role, a: Hash, p: PendingCall)
    ensures PendingAs(Apply(b, e), role, a, p) <==>
              if EndsCall(e, role, a) then e == CallStaged(role, a, p.module_, p.digest, p.since)
              else PendingAs(b, role, a, p)
  {
    if !e.CallStaged? && !e.CallConfirmed? && !e.EscapeSwept? && !e.EscrowSettled? {
      OthersKeepCalls(b, e);
      hide Apply;
    } else if e.CallStaged? || e.CallConfirmed? {
      StagingWrites(b, e);
      hide Apply;
    } else {
      SweepingRemoves(b, e);
      hide Apply;
    }
  }

  lemma OthersKeepCalls(b: Book, e: Event)
    requires !e.CallStaged? && !e.CallConfirmed? && !e.EscapeSwept? && !e.EscrowSettled?
    ensures Apply(b, e).calls == b.calls
  {
  }

  lemma StagingWrites(b: Book, e: Event)
    requires e.CallStaged? || e.CallConfirmed?
    ensures Apply(b, e).calls ==
              if e.CallConfirmed? then b.calls - {(e.role, e.a)}
              else b.calls[(e.role, e.a) := PendingCall(e.module_, e.digest, e.time)]
  {
  }

  lemma CallStagedAfter(past: seq<Event>, log: seq<Event>, role: Role, a: Hash, p: PendingCall)
    requires |log| == |past| + 1 && log[..|past|] == past
    ensures var e := log[|past|];
            CallIsStaged(log, role, a, p) <==>
              if EndsCall(e, role, a) then e == CallStaged(role, a, p.module_, p.digest, p.since)
              else CallIsStaged(past, role, a, p)
  {
    var e := log[|past|];
    assert forall k | 0 <= k < |past| :: log[k] == log[..|past|][k];
    if e == CallStaged(role, a, p.module_, p.digest, p.since) {
      assert CallStagedAt(log, |past|, role, a, p);
    } else if CallIsStaged(log, role, a, p) {
      var j: nat :| CallStagedAt(log, j, role, a, p);
      assert j < |past|;
      assert CallStagedAt(past, j, role, a, p);
    } else if !EndsCall(e, role, a) && CallIsStaged(past, role, a, p) {
      var j: nat :| CallStagedAt(past, j, role, a, p);
      assert CallStagedAt(log, j, role, a, p);
    }
  }

  /** A pending call is exactly a staging that nothing has replaced, confirmed or removed since. */
  lemma {:induction false} PendingCallIsStaged(log: seq<Event>, role: Role, a: Hash, p: PendingCall)
    ensures PendingAs(Replay(log), role, a, p) <==> CallIsStaged(log, role, a, p)
  {
    if log != [] {
      var past := log[..|log| - 1];
      PendingCallIsStaged(past, role, a, p);
      hide Apply, CallIsStaged, PendingAs, EndsCall;
      CallAfter(Replay(past), log[|past|], role, a, p);
      CallStagedAfter(past, log, role, a, p);
    }
  }

  /** The staging at `j` is the one that the confirmation at `i` executes. */
  ghost predicate Confirms(log: seq<Event>, i: nat, j: nat) {
    && j < i < |log| && log[i].CallConfirmed? && log[j].CallStaged?
    && log[j].role == log[i].role && log[j].a == log[i].a
    && log[j].module_ == log[i].module_ && log[j].digest == log[i].digest
    && log[i].time >= log[j].time + 86_400_000
    && forall k | j < k < i :: !EndsCall(log[k], log[i].role, log[i].a)
  }

  /** Every confirmed call executes a staging of the same module, method and arguments, at least 24 hours old. */
  lemma ConfirmedCallsWereStaged(log: seq<Event>, i: nat)
    requires LegalLog(log) && i < |log| && log[i].CallConfirmed?
    ensures exists j: nat :: Confirms(log, i, j)
  {
    hide Apply, Replay, LegalLog;
    StepAt(log, i);
    var past, e := log[..i], log[i];
    var p := Replay(past).calls[(e.role, e.a)];
    PendingCallIsStaged(past, e.role, e.a, p);
    var j: nat :| CallStagedAt(past, j, e.role, e.a, p);
    assert forall k | 0 <= k < i :: log[k] == past[k];
    assert Confirms(log, i, j);
  }

  /** No staging is executed twice. */
  lemma StagingsAreSpentOnce(log: seq<Event>, i: nat, i': nat, j: nat)
    requires Confirms(log, i, j) && Confirms(log, i', j)
    ensures i == i'
  {
    if i < i' {
      assert EndsCall(log[i], log[i'].role, log[i'].a);
    } else if i' < i {
      assert EndsCall(log[i'], log[i].role, log[i].a);
    }
  }

  // ---------------------------------------------------------------------------
  // Rosters
  // ---------------------------------------------------------------------------

  predicate Enrolled(children: seq<Hash>) {
    Distinct(children) && |children| <= 10 && 0 !in children
  }

  lemma OthersKeepRosters(b: Book, e: Event)
    requires !e.RosterSet? && !e.RosterCleared?
    ensures Apply(b, e).rosters == b.rosters
  {
  }

  /** Stored rosters are duplicate-free, hold no zero hash and have at most ten children. */
  lemma {:induction false} RostersAreEnrolled(log: seq<Event>)
    requires LegalLog(log)
    ensures forall k | k in Replay(log).rosters :: Enrolled(Replay(log).rosters[k])
  {
    if log != [] {
      var past, e := log[..|log| - 1], log[|log| - 1];
      RostersAreEnrolled(past);
      if !e.RosterSet? && !e.RosterCleared? {
        OthersKeepRosters(Replay(past), e);
        hide Apply;
      }
    }
  }

  lemma RosterWrites(b: Book, past: seq<Event>, e: Event)
    requires (e.RosterSet? || e.RosterCleared?) && Legal(b, past, e)
    ensures Apply(b, e).rosters == if e.RosterSet? then b.rosters[(e.role, e.a) := e.children] else b.rosters - {(e.role, e.a)}
    ensures forall c | c in Get(b.rosters, (e.role, e.a), []) :: (e.RosterSet? && c in e.children) || CleanedSince(past, e.since, e.role, e.a, c)
  {
  }

  /** A child leaves a stored roster only in a step before which its own cleanup completed. */
  lemma ChildrenLeaveCleaned(log: seq<Event>, i: nat, role: Role, a: Hash, child: Hash)
    requires LegalLog(log) && i < |log|
    requires child in Get(Replay(log[..i]).rosters, (role, a), [])
    requires child !in Get(Replay(log[..i + 1]).rosters, (role, a), [])
    ensures (log[i].RosterSet? || log[i].RosterCleared?) && log[i].role == role && log[i].a == a
    ensures CleanedSince(log[..i], log[i].since, role, a, child)
  {
    hide Apply, Legal;
    StepAt(log, i);
    if !log[i].RosterSet? && !log[i].RosterCleared? {
      OthersKeepRosters(Replay(log[..i]), log[i]);
    } else {
      RosterWrites(Replay(log[..i]), log[..i], log[i]);
    }
  }

  // ---------------------------------------------------------------------------
  // Market escrow
  // ---------------------------------------------------------------------------

  predicate MarkersAgree(b: Book) {
    && b.markets.Keys == b.listings.Keys
    && (forall a | a in b.markets :: b.markets[a] != 0)
    && forall a | a in b.listings :: b.listings[a] > 0
  }

  predicate MovesEscrow(e: Event) {
    e.EscrowEntered? || EndsEscrow(e)
  }

  lemma OthersKeepEscrow(b: Book, e: Event)
    requires !MovesEscrow(e)
    ensures Apply(b, e).markets == b.markets && Apply(b, e).listings == b.listings
  {
  }

  lemma EscrowWrites(b: Book, past: seq<Event>, e: Event)
    requires MovesEscrow(e) && Legal(b, past, e)
    ensures var c := Apply(b, e);
            if e.EscrowEntered? then
              && c.markets == b.markets[e.a := e.market] && c.listings == b.listings[e.a := e.listing]
              && e.market != 0 && e.listing > 0 && !Escrowed(b, e.a)
            else c.markets == b.markets - {e.a} && c.listings == b.listings - {e.a}
  {
  }

  /** The market and listing markers of an account are both present or both absent. */
  lemma {:induction false} EscrowMarkersAgree(log: seq<Event>)
    requires LegalLog(log)
    ensures MarkersAgree(Replay(log))
  {
    if log != [] {
      var past, e := log[..|log| - 1], log[|log| - 1];
      EscrowMarkersAgree(past);
      hide Apply, Legal;
      if !MovesEscrow(e) {
        OthersKeepEscrow(Replay(past), e);
      } else {
        EscrowWrites(Replay(past), past, e);
      }
    }
  }

  /** The record, the nonce cursors, and the market and listing of an escrowed account. */
  ghost predicate Parked(b: Book, c: Book, a: Hash)
    requires Escrowed(b, a) && a in b.accounts
  {
    && Escrowed(c, a) && c.markets[a] == b.markets[a] && c.listings[a] == b.listings[a]
    && a in c.accounts && c.accounts[a] == b.accounts[a]
    && forall channel: nat :: Get(c.nonces, (a, channel), 0) == Get(b.nonces, (a, channel), 0)
  }

  lemma ParkedStep(b: Book, past: seq<Event>, e: Event, a: Hash)
    requires Legal(b, past, e) && Escrowed(b, a) && a in b.accounts && !(EndsEscrow(e) && e.a == a)
    ensures Parked(b, Apply(b, e), a)
  {
    NonceFrozen(b, past, e, a);
    RecordFrozen(b, past, e, a);
    hide Apply, Legal;
    if !MovesEscrow(e) {
      OthersKeepEscrow(b, e);
    } else {
      EscrowWrites(b, past, e);
    }
  }

  lemma NonceFrozen(b: Book, past: seq<Event>, e: Event, a: Hash)
    requires Legal(b, past, e) && Escrowed(b, a)
    ensures forall channel: nat :: Get(Apply(b, e).nonces, (a, channel), 0) == Get(b.nonces, (a, channel), 0)
  {
    if !e.NonceConsumed? {
      OthersKeepNonces(b, e);
      hide Apply;
    }
  }

  lemma RecordFrozen(b: Book, past: seq<Event>, e: Event, a: Hash)
    requires Legal(b, past, e) && Escrowed(b, a) && a in b.accounts && !(EndsEscrow(e) && e.a == a)
    ensures a in Apply(b, e).accounts && Apply(b, e).accounts[a] == b.accounts[a]
  {
    if !WritesAccounts(e) {
      OthersKeepAccounts(b, e);
      hide Apply;
    } else if StoresRecord(e) {
      StoredAccount(b, e);
      hide Apply;
    } else {
      assert e.a != a;
    }
  }

  /**
   From the moment an account is escrowed until a cancellation, a reclaim or a settlement, its
   record, all its nonce cursors, its market and its listing are constant.
   */
  lemma {:induction false} EscrowFreezes(log: seq<Event>, n: nat, a: Hash)
    requires LegalLog(log) && n <= |log|
    requires Escrowed(Replay(log[..n]), a) && a in Replay(log[..n]).accounts
    requires forall i | n <= i < |log| :: !(EndsEscrow(log[i]) && log[i].a == a)
    ensures Parked(Replay(log[..n]), Replay(log), a)
  {
    if n == |log| {
      assert log[..n] == log;
    } else {
      var past, e := log[..|log| - 1], log[|log| - 1];
      assert past[..n] == log[..n];
      EscrowFreezes(past, n, a);
      ParkedStep(Replay(past), past, e, a);
    }
  }
}
