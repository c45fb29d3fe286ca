/**
 The owner's way out of a market escrow: initiate, wait seven days, force the cancellation.  It
 works from every reachable escrowed state, whatever happens in between and whatever the market's
 callback does, as long as the escrow itself has not ended.
 */
module Reclaim {
  import opened Values
  import opened Records
  import opened Machine
  import opened Journal
  import opened Authority
  import opened Guarantee
  import opened Soundness
  import opened Runs
  import opened Timelocks

  // ---------------------------------------------------------------------------
  // In the log
  // ---------------------------------------------------------------------------

  /** An escrowed account is registered. */
  lemma {:induction false} EscrowedIsRegistered(log: seq<Event>, a: Hash)
    requires LegalLog(log) && a in Replay(log).markets
    ensures a in Replay(log).accounts
  {
    hide Apply, Legal, LegalLog;
    if log == [] {
      assert false;
    } else {
      var past, e := log[..|log| - 1], log[|log| - 1];
      assert past == log[..|past|] && log[..|past| + 1] == log;
      StepAt(log, |past|);
      AccountsNeverLeave(Replay(past), e);
      if e.EscrowEntered? && e.a == a {
        EntryNeedsAccount(Replay(past), past, e);
      } else {
        MarketHeld(Replay(past), e, a);
        EscrowedIsRegistered(past, a);
      }
    }
  }

  lemma EntryNeedsAccount(b: Book, past: seq<Event>, e: Event)
    requires e.EscrowEntered? && Legal(b, past, e)
    ensures e.a in b.accounts
  {
  }

  lemma MarketHeld(b: Book, e: Event, a: Hash)
    requires a in Apply(b, e).markets && !(e.EscrowEntered? && e.a == a)
    ensures a in b.markets
  {
  }

  /** A reclaim keeps running until the escrow ends or the owner starts it again. */
  lemma {:induction false} ReclaimKeepsRunning(log: seq<Event>, n: nat, a: Hash)
    requires n <= |log| && a in Replay(log[..n]).reclaims
    requires forall i | n <= i < |log| :: !MovesReclaim(log[i], a)
    ensures a in Replay(log).reclaims && Replay(log).reclaims[a] == Replay(log[..n]).reclaims[a]
    decreases |log|
  {
    hide Apply;
    if n == |log| {
      assert log[..n] == log;
    } else {
      var past := log[..|log| - 1];
      assert past[..n] == log[..n];
      ReclaimKeepsRunning(past, n, a);
      ReclaimAfter(Replay(past), log[|past|], a);
    }
  }

  /** From position `n` on, the owner of the account is rotated or the account is sold. */
  ghost predicate Reowned(log: seq<Event>, n: nat, a: Hash) {
    exists i | n <= i < |log| :: (log[i].OwnerRotated? || log[i].EscrowSettled?) && log[i].a == a
  }

  lemma {:induction false} OwnerStays(log: seq<Event>, n: nat, a: Hash)
    requires LegalLog(log) && n <= |log| && a in Replay(log[..n]).accounts
    ensures a in Replay(log).accounts
    ensures Replay(log).accounts[a].owner == Replay(log[..n]).accounts[a].owner || Reowned(log, n, a)
    decreases |log|
  {
    hide Apply, Legal;
    if n == |log| {
      assert log[..n] == log;
    } else {
      var past := log[..|log| - 1];
      assert past[..n] == log[..n] && log[..|past| + 1] == log;
      OwnerStays(past, n, a);
      OwnershipIsStable(log, |past|, a);
      if Reowned(past, n, a) {
        var i :| n <= i < |past| && (past[i].OwnerRotated? || past[i].EscrowSettled?) && past[i].a == a;
        assert log[i] == past[i];
      }
    }
  }

  // ---------------------------------------------------------------------------
  // On the machine
  // ---------------------------------------------------------------------------

  lemma RestingIsIdle(w: World, a: Hash)
    requires Resting(w)
    ensures Idle(w, a)
  {
  }

  lemma InitiationGoesThrough(env: Env, who: Caller, w: World, a: Hash)
    requires Resting(w) && ByOwner(w.book, who, a) && Escrowed(w.book, a)
    ensures Enter(env, who, w, InitiateReclaim(a)) == Finish(Emit(w, ReclaimInitiated(a, w.header.time)))
  {
    hide Apply, Emit;
    RestingIsIdle(w, a);
  }

  /** The same state; only what foreign code saw may differ. */
  predicate Same(v: World, w: World) {
    v == w.(views := v.views)
  }

  /** What the market is told happens after the escrow has been cleared, and cannot stop it. */
  lemma NotificationIsHarmless(env: Env, w: World, market: Hash, listing: int, notified: Option<Behaviour>)
    requires Inv(w)
    requires notified.Some? ==> !External(env, w, notified.value).exit.Aborted?
    ensures var o := Notify(env, w, market, listing, notified);
            && o.exit.Done? && Extends(w.log, o.world.log)
            && (notified.None? || notified.value.Return? || notified.value.Throw? ==> Same(o.world, w))
  {
    hide Inv, Apply, Enter, Stamped, ViewsFit;
    if notified.Some? {
      ExternalSound(env, w, notified.value);
    }
  }

  lemma ForcedExitGoesThrough(env: Env, who: Caller, w: World, a: Hash, notified: Option<Behaviour>)
    requires Inv(w) && Resting(w) && ByOwner(w.book, who, a) && Escrowed(w.book, a)
    requires a in w.book.reclaims && w.header.time >= w.book.reclaims[a] + RECLAIM_TIMELOCK_MS
    requires var cleared := Emit(w, EscrowReclaimed(a, w.header.time));
             notified.Some? ==> !External(env, cleared, notified.value).exit.Aborted?
    ensures var o := Enter(env, who, w, Call.Reclaim(a, notified));
            var cleared := Emit(w, EscrowReclaimed(a, w.header.time));
            && o.exit.Done? && Extends(cleared.log, o.world.log)
            && (notified.None? || notified.value.Return? || notified.value.Throw? ==> Same(o.world, cleared))
  {
    hide Inv, Apply, Emit, External, Notify, LegalLog, Replay, Enter, Dispatch;
    RestingIsIdle(w, a);
    var cleared := Emit(w, EscrowReclaimed(a, w.header.time));
    ThenEmit(w, Finish(w), EscrowReclaimed(a, w.header.time)) by { StopSound(w, 0); }
    var (market, listing) := (Get(w.book.markets, a, 0), Get(w.book.listings, a, 0));
    NotificationIsHarmless(env, cleared, market, listing, notified);
    ForcedExit(env, who, w, Call.Reclaim(a, notified));
    var o := Notify(env, cleared, market, listing, notified);
    EnterPassesOn(env, who, w, Call.Reclaim(a, notified), o);
  }

  lemma ForcedExit(env: Env, who: Caller, w: World, call: Call)
    requires call.Reclaim?
    requires Idle(w, call.a) && ByOwner(w.book, who, call.a) && Escrowed(w.book, call.a)
    requires call.a in w.book.reclaims && w.header.time >= w.book.reclaims[call.a] + RECLAIM_TIMELOCK_MS
    ensures Dispatch(env, who, w, call)
         == Notify(env, Emit(w, EscrowReclaimed(call.a, w.header.time)), Get(w.book.markets, call.a, 0), Get(w.book.listings, call.a, 0), call.notified)
  {
    hide Emit, Apply, Notify;
  }

  lemma EnterPassesOn(env: Env, who: Caller, w: World, call: Call, o: Outcome)
    requires Dispatch(env, who, w, call) == o && o.exit.Done?
    ensures Enter(env, who, w, call) == o
  {
    hide Dispatch;
  }

  // ---------------------------------------------------------------------------
  // Over a history
  // ---------------------------------------------------------------------------

  /** The transaction in which the owner starts the reclaim. */
  predicate StartsReclaim(t: Transaction, owner: Hash, a: Hash) {
    && t.script.Invoke? && t.script.call == InitiateReclaim(a)
    && owner in t.script.who.witnesses && t.script.rest == Return
  }

  lemma InvokeLast(env: Env, w: World, script: Behaviour, v: World)
    requires script.Invoke? && script.rest == Return && Enter(env, script.who, Look(w), script.call) == Finish(v)
    ensures Perform(env, w, script) == Finish(Look(v))
  {
    hide Enter;
    assert Perform(env, v, Return) == Finish(Look(v));
  }

  lemma EmitLooks(w: World, e: Event)
    ensures Same(Look(Emit(Look(w), e)), Emit(w, e))
  {
  }

  lemma StartIsRecorded(w: World, t: Transaction, a: Hash)
    requires Inv(w) && Resting(w) && Escrowed(w.book, a) && a in w.book.accounts
    requires w.book.accounts[a].owner != 0 && StartsReclaim(t, w.book.accounts[a].owner, a)
    ensures Same(Transact(w, t), Emit(w.(header := t.header), ReclaimInitiated(a, t.header.time)))
  {
    hide Inv, Apply, Emit;
    var start := w.(header := t.header);
    InitiationGoesThrough(t.env, t.script.who, Look(start), a);
    InvokeLast(t.env, start, t.script, Emit(Look(start), ReclaimInitiated(a, t.header.time)));
    EmitLooks(start, ReclaimInitiated(a, t.header.time));
  }

  lemma StartWrites(b: Book, a: Hash, time: nat)
    ensures Apply(b, ReclaimInitiated(a, time)) == b.(reclaims := b.reclaims[a := time])
  {
  }

  /** Nothing after position `n` ended the account's escrow or restarted its reclaim. */
  ghost predicate Undisturbed(log: seq<Event>, n: nat, a: Hash) {
    forall i | n <= i < |log| :: !MovesReclaim(log[i], a)
  }

  /** While undisturbed, the account, its escrow and its running reclaim are as they were. */
  lemma StillReclaimable(log: seq<Event>, n: nat, a: Hash)
    requires LegalLog(log) && n <= |log| && Undisturbed(log, n, a)
    requires var b := Replay(log[..n]); Escrowed(b, a) && a in b.accounts && a in b.reclaims
    ensures var (b, c) := (Replay(log[..n]), Replay(log));
            && Parked(b, c, a) && a in c.reclaims && c.reclaims[a] == b.reclaims[a]
  {
    hide Parked;
    EscrowFreezes(log, n, a);
    ReclaimKeepsRunning(log, n, a);
  }

  /**
   The owner can always reclaim.  From every reachable state in which the account is escrowed, the
   initiation goes through; and in every history that continues it without ending the escrow or
   restarting the reclaim, the forced cancellation seven days later goes through, clears the escrow
   before the market is told, and keeps the backup owner, whether the market's callback is missing,
   returns or throws.  When it is over the owner is still the same, unless the callback itself went on to
   have the owner rotated or the account sold.
   */
  lemma OwnerCanAlwaysReclaim(
      before: seq<Transaction>, start: Transaction, after: seq<Transaction>, a: Hash,
      env: Env, header: Header, who: Caller, notified: Option<Behaviour>)
    requires Escrowed(History(before).book, a)
    ensures a in History(before).book.accounts && History(before).book.accounts[a].owner != 0
    ensures var owner := History(before).book.accounts[a].owner;
            var (started, now) := (History(before + [start]), History((before + [start]) + after).(header := header));
            var cleared := Emit(now, EscrowReclaimed(a, header.time));
            && StartsReclaim(start, owner, a)
            && Undisturbed(now.log, |started.log|, a)
            && owner in who.witnesses && header.time >= start.header.time + 604_800_000
            && (notified.Some? ==> !External(env, cleared, notified.value).exit.Aborted?)
            ==>
              var o := Enter(env, who, now, Call.Reclaim(a, notified));
              && o.exit.Done? && Extends(cleared.log, o.world.log)
              && a in cleared.book.accounts && cleared.book.accounts[a].owner == owner && !Escrowed(cleared.book, a)
              && a in o.world.book.accounts
              && (o.world.book.accounts[a].owner == owner || Reowned(o.world.log, |cleared.log|, a))
              && (notified.None? || notified.value.Return? || notified.value.Throw? ==> Same(o.world, cleared))
  {
    hide History, Inv, Emit, Apply, External, Parked, LegalLog, Replay, Enter, Undisturbed;
    var all := (before + [start]) + after;
    var (w, started, now) := (History(before), History(before + [start]), History(all).(header := header));
    EscrowedAccount(before, a);
    var owner := w.book.accounts[a].owner;
    var cleared := Emit(now, EscrowReclaimed(a, header.time));
    if && StartsReclaim(start, owner, a) && Undisturbed(now.log, |started.log|, a)
       && owner in who.witnesses && header.time >= start.header.time + 604_800_000
       && (notified.Some? ==> !External(env, cleared, notified.value).exit.Aborted?) {
      StartedHistory(before, start, a);
      Carried(before + [start], after, a);
      HeaderKeepsInv(History(all), header);
      ForcedExitGoesThrough(env, who, now, a, notified);
      ClearedBook(now, a, header.time);
      OwnerAfterwards(env, who, now, a, notified);
    }
  }

  /** Whatever the market's callback does. */
  lemma OwnerAfterwards(env: Env, who: Caller, w: World, a: Hash, notified: Option<Behaviour>)
    requires Inv(w) && a in w.book.accounts
    requires var (o, cleared) := (Enter(env, who, w, Call.Reclaim(a, notified)), Emit(w, EscrowReclaimed(a, w.header.time)));
             o.exit.Done? && Extends(cleared.log, o.world.log)
    ensures var (o, cleared) := (Enter(env, who, w, Call.Reclaim(a, notified)), Emit(w, EscrowReclaimed(a, w.header.time)));
            && a in o.world.book.accounts
            && (o.world.book.accounts[a].owner == w.book.accounts[a].owner || Reowned(o.world.log, |cleared.log|, a))
  {
    hide Apply, Enter, Reowned, Sound, Step, Inv;
    EnterSound(env, who, w, Call.Reclaim(a, notified));
    var o := Enter(env, who, w, Call.Reclaim(a, notified));
    Arrives(w, o, 0);
    OwnerInLog(w, o.world, EscrowReclaimed(a, w.header.time), a);
  }

  /** Between two worlds whose logs are those of a reclaim and of what followed it. */
  lemma OwnerInLog(w: World, v: World, e: Event, a: Hash)
    requires Inv(w) && Inv(v) && a in w.book.accounts && e.EscrowReclaimed? && Extends(w.log + [e], v.log)
    ensures a in v.book.accounts
    ensures v.book.accounts[a].owner == w.book.accounts[a].owner || Reowned(v.log, |w.log| + 1, a)
  {
    hide Reowned, LegalLog, Replay, LocksCover;
    var (n, log) := (|w.log|, v.log);
    assert (w.log + [e])[..n] == w.log;
    assert log[..n] == log[..n + 1][..n] && log[n] == log[..n + 1][n];
    OwnerStays(log, n, a);
    if !Reowned(log, n + 1, a) {
      SameOwnerSince(log, n, a);
    }
  }

  /** A reclaim does not change the owner. */
  lemma SameOwnerSince(log: seq<Event>, n: nat, a: Hash)
    requires n < |log| && log[n].EscrowReclaimed? && !Reowned(log, n + 1, a)
    ensures !Reowned(log, n, a)
  {
  }

  lemma EscrowedAccount(txs: seq<Transaction>, a: Hash)
    requires Escrowed(History(txs).book, a)
    ensures var b := History(txs).book; a in b.accounts && b.accounts[a].owner != 0
  {
    hide History;
    HistoriesAreLegal(txs);
    EscrowedIsRegistered(History(txs).log, a);
    AccountsAreWellFormed(History(txs).log);
  }

  lemma StartedHistory(before: seq<Transaction>, start: Transaction, a: Hash)
    requires var b := History(before).book; Escrowed(b, a) && a in b.accounts && b.accounts[a].owner != 0
    requires StartsReclaim(start, History(before).book.accounts[a].owner, a)
    ensures var (b, c) := (History(before).book, History(before + [start]).book);
            && Escrowed(c, a) && a in c.accounts && c.accounts[a] == b.accounts[a]
            && a in c.reclaims && c.reclaims[a] == start.header.time
  {
    hide Inv, Apply;
    HistoriesAreLegal(before);
    var txs := before + [start];
    assert txs[..|txs| - 1] == before && txs[|txs| - 1] == start;
    StartIsRecorded(History(before), start, a);
    StartWrites(History(before).book, a, start.header.time);
  }

  lemma Carried(before: seq<Transaction>, after: seq<Transaction>, a: Hash)
    requires var b := History(before).book; Escrowed(b, a) && a in b.accounts && a in b.reclaims
    requires Undisturbed(History(before + after).log, |History(before).log|, a)
    ensures var (b, w) := (History(before).book, History(before + after));
            && Inv(w) && Resting(w)
            && Escrowed(w.book, a) && a in w.book.accounts && w.book.accounts[a] == b.accounts[a]
            && a in w.book.reclaims && w.book.reclaims[a] == b.reclaims[a]
  {
    hide History, Inv, Resting, LegalLog, Replay;
    var all := before + after;
    HistoriesAreLegal(before);
    HistoriesAreLegal(all);
    assert all[..|before|] == before;
    HistoriesExtend(all, |before|);
    StillReclaimable(History(all).log, |History(before).log|, a);
  }

  lemma ClearedBook(w: World, a: Hash, time: nat)
    requires a in w.book.accounts
    ensures var c := Emit(w, EscrowReclaimed(a, time)).book;
            c.accounts == w.book.accounts && !Escrowed(c, a)
  {
  }
}
