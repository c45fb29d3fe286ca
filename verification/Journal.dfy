/**
 What the sequential protocol implies over whole runs.  Every statement here is about an arbitrary
 legal log; module Soundness shows that the logs of the reentrant wallet are legal.
 */
module Journal {
  import opened Records

  predicate WritesAccounts(e: Event) {
    || e.Registered? || e.OwnerRotated? || e.Installed? || e.UpdateConfirmed? || e.EscapeInitiated?
    || e.EscapeCancelled? || e.EscapeFinalized? || e.EscrowSettled?
  }

  lemma OthersKeepAccounts(b: Book, e: Event)
    requires !WritesAccounts(e)
    ensures Apply(b, e).accounts == b.accounts
  {
  }

  /** The events that store a record loaded earlier, and those that change a field in place. */
  predicate StoresRecord(e: Event) {
    e.Registered? || e.UpdateConfirmed? || e.EscapeFinalized? || e.EscrowSettled?
  }

  /** The record that such an event stores. */
  function Stored(e: Event): Account
    requires StoresRecord(e)
  {
    match e
    case Registered(_, record, _) => record
    case UpdateConfirmed(role, _, record, m, _, _) => WithPointer(record, role, m)
    case EscapeFinalized(_, record, v, _, _) => record.(verifier := v, hook := 0, escapeAt := 0)
    case EscrowSettled(_, record, owner, _) => record.(owner := owner, verifier := 0, hook := 0, escapeAt := 0)
  }

  lemma StoredAccount(b: Book, e: Event)
    requires StoresRecord(e)
    ensures Apply(b, e).accounts == b.accounts[e.a := Stored(e)]
  {
  }

  lemma FieldTimer(b: Book, e: Event)
    requires WritesAccounts(e) && !StoresRecord(e)
    ensures var c := Apply(b, e);
            if e.a !in b.accounts then c.accounts == b.accounts
            else && c.accounts == b.accounts[e.a := c.accounts[e.a]]
                 && c.accounts[e.a].escapeAt == (if e.EscapeInitiated? then e.time
                                                 else if e.EscapeCancelled? then 0 else b.accounts[e.a].escapeAt)
  {
  }

  /** Where an account's escape timer can come from in one event. */
  lemma TimerSource(b: Book, e: Event, a: Hash)
    requires a in Apply(b, e).accounts && Apply(b, e).accounts[a].escapeAt > 0
    ensures var t := Apply(b, e).accounts[a].escapeAt;
            || e == EscapeInitiated(a, t)
            || ((e.UpdateConfirmed? || e.Registered?) && e.a == a && e.record.escapeAt == t)
            || (a in b.accounts && b.accounts[a].escapeAt == t)
  {
    hide Apply;
    if !WritesAccounts(e) {
      OthersKeepAccounts(b, e);
    } else if StoresRecord(e) {
      StoredAccount(b, e);
    } else {
      FieldTimer(b, e);
    }
  }

  /** A running escape timer was set by an initiation that is in the log. */
  lemma {:induction false} EscapeTimerHasASource(log: seq<Event>, a: Hash)
    requires LegalLog(log)
    ensures var b := Replay(log);
            a in b.accounts && b.accounts[a].escapeAt > 0 ==> EscapeStartedAt(log, a, b.accounts[a].escapeAt)
  {
    if log != [] && a in Replay(log).accounts && Replay(log).accounts[a].escapeAt > 0 {
      var past, e := log[..|log| - 1], log[|log| - 1];
      var t := Replay(log).accounts[a].escapeAt;
      EscapeTimerHasASource(past, a);
      TimerSource(Replay(past), e, a);
      if e == EscapeInitiated(a, t) {
        assert log[|past|] == EscapeInitiated(a, t);
      } else {
        StartedLater(past, log, a, t);
      }
    }
  }

  lemma StartedLater(past: seq<Event>, log: seq<Event>, a: Hash, t: nat)
    requires |past| <= |log| && log[..|past|] == past && EscapeStartedAt(past, a, t)
    ensures EscapeStartedAt(log, a, t)
  {
    var i :| 0 <= i < |past| && past[i] == EscapeInitiated(a, t);
    assert log[i] == past[i];
  }

  // ---------------------------------------------------------------------------
  // Logs and their prefixes
  // ---------------------------------------------------------------------------

  lemma {:induction false} PrefixIsLegal(log: seq<Event>, n: nat)
    requires LegalLog(log) && n <= |log|
    ensures LegalLog(log[..n])
    decreases |log| - n
  {
    hide Legal, Replay;
    if n < |log| {
      PrefixIsLegal(log, n + 1);
      assert log[..n + 1][..n] == log[..n];
    } else {
      assert log[..n] == log;
    }
  }

  /** The step at position `i` of a legal log. */
  lemma StepAt(log: seq<Event>, i: nat)
    requires LegalLog(log) && i < |log|
    ensures LegalLog(log[..i]) && Legal(Replay(log[..i]), log[..i], log[i])
    ensures Replay(log[..i + 1]) == Apply(Replay(log[..i]), log[i])
  {
    PrefixIsLegal(log, i);
    PrefixIsLegal(log, i + 1);
    assert log[..i + 1][..i] == log[..i] && log[..i + 1][i] == log[i];
  }

  // ---------------------------------------------------------------------------
  // Nonces
  // ---------------------------------------------------------------------------

  /** The sequence numbers consumed on a channel, oldest first. */
  function Sequences(log: seq<Event>, a: Hash, channel: nat): seq<nat> {
    if log == [] then []
    else
      var before, e := Sequences(log[..|log| - 1], a, channel), log[|log| - 1];
      if e.NonceConsumed? && e.a == a && e.channel == channel then before + [e.sequence] else before
  }

  lemma OthersKeepNonces(b: Book, e: Event)
    requires !e.NonceConsumed?
    ensures Apply(b, e).nonces == b.nonces
  {
  }

  /** The operations of an (account, channel) carry the sequences 0, 1, ..., cursor - 1, each exactly once. */
  lemma {:induction false} NoncesAreConsumedInOrder(log: seq<Event>, a: Hash, channel: nat)
    requires LegalLog(log)
    ensures var s := Sequences(log, a, channel);
            && |s| == Get(Replay(log).nonces, (a, channel), 0) <= 0x1_0000_0000_0000_0000
            && forall k | 0 <= k < |s| :: s[k] == k
  {
    if log != [] {
      var past, e := log[..|log| - 1], log[|log| - 1];
      NoncesAreConsumedInOrder(past, a, channel);
      if !e.NonceConsumed? {
        OthersKeepNonces(Replay(past), e);
      }
    }
  }

  // ---------------------------------------------------------------------------
  // Accounts
  // ---------------------------------------------------------------------------

  predicate WellFormed(acc: Account) {
    acc.owner != 0 && 604_800 <= acc.escapeTimelock <= 7_776_000
  }

  /** Every account has a backup owner and an escape timelock in range. */
  lemma {:induction false} AccountsAreWellFormed(log: seq<Event>)
    requires LegalLog(log)
    ensures forall a | a in Replay(log).accounts :: WellFormed(Replay(log).accounts[a])
  {
    if log != [] {
      var past, e := log[..|log| - 1], log[|log| - 1];
      AccountsAreWellFormed(past);
      WellFormedStep(Replay(past), past, e);
    }
  }

  lemma FieldWrites(b: Book, e: Event)
    requires WritesAccounts(e) && !StoresRecord(e)
    ensures var c := Apply(b, e);
            if e.a !in b.accounts then c.accounts == b.accounts
            else && c.accounts == b.accounts[e.a := c.accounts[e.a]]
                 && c.accounts[e.a].escapeTimelock == b.accounts[e.a].escapeTimelock
                 && c.accounts[e.a].owner == if e.OwnerRotated? then e.owner else b.accounts[e.a].owner
  {
  }

  lemma WellFormedStep(b: Book, past: seq<Event>, e: Event)
    requires Legal(b, past, e) && forall a | a in b.accounts :: WellFormed(b.accounts[a])
    ensures forall a | a in Apply(b, e).accounts :: WellFormed(Apply(b, e).accounts[a])
  {
    hide Apply, EscapeStartedAt, CleanedSince;
    if !WritesAccounts(e) {
      OthersKeepAccounts(b, e);
    } else if StoresRecord(e) {
      StoredAccount(b, e);
      if !e.Registered? {
        assert WellFormed(b.accounts[e.a]) && SameAuthority(b.accounts[e.a], e.record);
      }
    } else {
      FieldWrites(b, e);
    }
  }
}
