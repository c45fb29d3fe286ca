/**
 The daily-limit hook for one account: its storage, its scans, its two callbacks and its configuration.

 Each entry point returns false where the contract aborts; the enclosing transaction then rolls the
 storage back.  `native` selects the compilation profile: the native one accounts with a single
 scan per callback, the deployed one with a scan for every question it asks.
 */
module DailyLimit {
  import opened Values
  import opened Records
  import opened DailyLedger
  import opened DailyHistory
  import Machine
  import Witness

  /** What the callbacks read from the operation parameters. */
  datatype Operation =
    | Other
    | Malformed
    | Transfer(token: Token, fromAccountAssets: bool, amount: int)

  /** One hook contract for one account: its profile, the account, its own hash and its authorized core. */
  datatype Instance = Instance(native: bool, account: Hash, self: Hash, core: Hash)

  /** A call of the hook: the calling contract, the contexts that the wallet shows, and the native service's answer. */
  datatype Origin = Origin(caller: Hash, contexts: Machine.Contexts, granted: bool)

  /**
   ValidateConfigCaller: the native service grants it, or the core calls while it shows the hook's own
   configuration context.
   */
  predicate MayConfigure(h: Instance, from: Origin) {
    if h.native then from.granted
    else h.core != 0 && from.caller == h.core && Witness.CanConfigure(from.contexts, Hook, h.account, h.self, h.self)
  }

  /** ValidateExecutionCaller: the native service grants it, or the core vouches for the caller. */
  predicate MayCallBack(h: Instance, from: Origin) {
    if h.native then from.granted
    else h.core != 0 && Witness.CanExecute(from.contexts, h.core, Hook, h.account, h.self, from.caller, h.self)
  }

  /** Everything the hook stores for the account. */
  datatype Storage = Storage(
    limits: map<Token, LimitConfig>, snapshots: map<Token, int>,
    spentToday: map<Token, int>, lastReset: map<Token, int>, history: History, counter: nat)

  const EMPTY_STORAGE: Storage := Storage(map[], map[], map[], map[], map[], 0)

  /** The accounting state of one token. */
  ghost function LedgerIn(s: Storage, t: Token): Ledger {
    Ledger(
      Listing(s.history, t, s.counter),
      if t in s.spentToday then Some(s.spentToday[t]) else None,
      if t in s.lastReset then Some(s.lastReset[t]) else None)
  }

  type Ledgers = l: imap<Token, Ledger> | forall t: Token :: t in l ghost witness imap t: Token | true :: EMPTY_LEDGER

  /** The hook's storage with its history read as one ledger per token. */
  datatype Meter = Meter(limits: map<Token, LimitConfig>, snapshots: map<Token, int>, ledgers: Ledgers)

  ghost const NOTHING: Meter := Meter(map[], map[], imap t: Token | true :: EMPTY_LEDGER)

  ghost function MeterOf(s: Storage): Meter {
    Meter(s.limits, s.snapshots, imap t: Token | true :: LedgerIn(s, t))
  }

  /** Whether an operation passes the check before its target runs. */
  ghost predicate Admitted(native: bool, m: Meter, operation: Operation, now: int) {
    match operation
    case Other => true
    case Malformed => !native
    case Transfer(token, fromAccountAssets, amount) =>
      && amount > 0 && fromAccountAssets
      && (token in m.limits ==> Charge(m.ledgers[token], m.limits[token], now, amount).Some?)
  }

  class DailyLimitHook {
    const native: bool
    const account: Hash
    const self: Hash
    const core: Hash

    function Identity(): Instance {
      Instance(native, account, self, core)
    }

    var limits: map<Token, LimitConfig>
    var snapshots: map<Token, int>
    var spentToday: map<Token, int>
    var lastReset: map<Token, int>
    var history: History
    var counter: nat

    ghost predicate Valid()
      reads this
    {
      ValidHistory(history, counter)
    }

    function State(): Storage
      reads this
    {
      Storage(limits, snapshots, spentToday, lastReset, history, counter)
    }

    ghost function LedgerOf(t: Token): Ledger
      reads this
    {
      LedgerIn(State(), t)
    }

    constructor (native: bool, account: Hash, self: Hash, core: Hash)
      ensures Valid() && State() == EMPTY_STORAGE
      ensures this.native == native && this.account == account && this.self == self && this.core == core
      ensures forall t: Token :: LedgerOf(t) == EMPTY_LEDGER
    {
      this.native, this.account, this.self, this.core := native, account, self, core;
      limits, snapshots, spentToday, lastReset, history, counter := map[], map[], map[], map[], map[], 0;
    }

    /** The platform's rollback. */
    method Restore(s: Storage)
      modifies this
      ensures State() == s
    {
      limits, snapshots, spentToday := s.limits, s.snapshots, s.spentToday;
      lastReset, history, counter := s.lastReset, s.history, s.counter;
    }

    // -------------------------------------------------------------------------
    // Configuration
    // -------------------------------------------------------------------------

    method ClearHistoryForToken(token: Token)
      modifies this`history
      ensures history == Without(old(history), token)
    {
      ghost var h := history;
      var todo := KeysOf(history, token);
      while todo != {}
        invariant todo <= KeysOf(h, token)
        invariant history == map k | k in h && (k.0 != token || k in todo) :: h[k]
      {
        var key :| key in todo;
        history := history - {key};
        todo := todo - {key};
      }
    }

    /** A positive amount sets the limit and leaves the accounting alone; any other removes both. */
    method SetDailyLimit(token: Token, maxAmount: int, useRollingWindow: bool, from: Origin) returns (ok: bool)
      requires Valid()
      modifies this
      ensures ok <==> MayConfigure(Identity(), from) && (native ==> token != 0 && maxAmount >= 0)
      ensures !ok ==> State() == old(State())
      ensures ok ==> Valid() && forall t: Token | t != token :: LedgerOf(t) == old(LedgerOf(t))
      ensures ok && maxAmount > 0 ==>
                && limits == old(limits)[token := LimitConfig(maxAmount, useRollingWindow)]
                && snapshots == old(snapshots) && LedgerOf(token) == old(LedgerOf(token))
      ensures ok && maxAmount <= 0 ==>
                && limits == old(limits) - {token}
                && snapshots == (if native then old(snapshots) - {token} else old(snapshots))
                && LedgerOf(token) == if native then EMPTY_LEDGER else old(LedgerOf(token)).(records := [])
    {
      if !MayConfigure(Identity(), from) { return false; }
      if native && (token == 0 || maxAmount < 0) { return false; }
      if maxAmount <= 0 {
        WithoutListings(history, token, counter);
        limits := limits - {token};
        ClearHistoryForToken(token);
        if native {
          spentToday := spentToday - {token};
          lastReset := lastReset - {token};
          snapshots := snapshots - {token};
        }
      } else {
        limits := limits[token := LimitConfig(maxAmount, useRollingWindow)];
      }
      return true;
    }

    /** ClearPrefixForAccount. */
    method ClearPrefix<K, V>(entries: map<K, V>) returns (cleared: map<K, V>)
      ensures cleared == map[]
    {
      cleared := entries;
      while cleared.Keys != {}
        decreases cleared.Keys
      {
        var key :| key in cleared.Keys;
        cleared := cleared - {key};
      }
    }

    /** The account's policy is erased, a snapshot in flight included. */
    method ClearAccount(from: Origin) returns (ok: bool)
      modifies this
      ensures ok <==> MayConfigure(Identity(), from)
      ensures State() == if ok then EMPTY_STORAGE else old(State())
      ensures ok ==> Valid() && forall t: Token :: LedgerOf(t) == EMPTY_LEDGER
    {
      if !MayConfigure(Identity(), from) { return false; }
      limits := ClearPrefix(limits);
      spentToday := ClearPrefix(spentToday);
      lastReset := ClearPrefix(lastReset);
      history := ClearPrefix(history);
      counter := 0;
      snapshots := ClearPrefix(snapshots);
      return true;
    }

    // -------------------------------------------------------------------------
    // Scans
    // -------------------------------------------------------------------------

    /** The native scan: total and count of the live records, deleting expired ones when asked. */
    method ReadRollingUsage(token: Token, now: int, prune: bool) returns (total: int, count: nat)
      requires Valid()
      modifies this`history
      ensures total == Total(Live(old(LedgerOf(token)).records, now - ONE_DAY_MS))
      ensures count == |Live(old(LedgerOf(token)).records, now - ONE_DAY_MS)|
      ensures history == if prune then Pruned(old(history), token, now - ONE_DAY_MS) else old(history)
      ensures Valid()
      ensures prune ==> LedgerOf(token) == old(LedgerOf(token)).(records := Live(old(LedgerOf(token)).records, now - ONE_DAY_MS))
      ensures prune ==> forall t: Token | t != token :: LedgerOf(t) == old(LedgerOf(t))
    {
      hide Listing, Live, Total, Pruned, Seen;
      PrunedIsValid(history, token, now - ONE_DAY_MS, counter);
      PrunedListings(history, token, now - ONE_DAY_MS, counter);
      var cutoff := now - ONE_DAY_MS;
      total, count := 0, 0;
      var todo := KeysOf(history, token);
      ghost var h := history;
      ScanEnds(h, token, cutoff, counter);
      while todo != {}
        invariant todo <= KeysOf(h, token)
        invariant total == LiveTotal(Seen(h, token, todo), token, cutoff, counter)
        invariant count == LiveCount(Seen(h, token, todo), token, cutoff, counter)
        invariant history == if prune then PrunedSeen(h, token, cutoff, todo) else h
      {
        var key :| key in todo;
        VisitOne(h, token, todo, key, cutoff, counter);
        var record := history[key];
        if record.timestamp >= cutoff {
          var prior := total;
          total := total + record.amount;
          assert total >= prior;
          count := count + 1;
        } else if prune {
          history := history - {key};
        }
        todo := todo - {key};
      }
    }

    /** The deployed scan for the sum of the live records. */
    method GetRollingWindowSpent(token: Token, now: int) returns (total: int)
      requires Valid()
      ensures total == Total(Live(LedgerOf(token).records, now - ONE_DAY_MS))
    {
      var cutoff := now - ONE_DAY_MS;
      total := 0;
      var todo := KeysOf(history, token);
      ScanEnds(history, token, cutoff, counter);
      while todo != {}
        invariant todo <= KeysOf(history, token)
        invariant total == LiveTotal(Seen(history, token, todo), token, cutoff, counter)
      {
        var key :| key in todo;
        VisitOne(history, token, todo, key, cutoff, counter);
        var record := history[key];
        if record.timestamp >= cutoff {
          var previousTotal := total;
          total := total + record.amount;
          assert total >= previousTotal;
        }
        todo := todo - {key};
      }
    }

    /** The deployed scan for the number of live records. */
    method GetRollingWindowRecordCount(token: Token, now: int) returns (count: nat)
      requires Valid()
      ensures count == |Live(LedgerOf(token).records, now - ONE_DAY_MS)|
    {
      var cutoff := now - ONE_DAY_MS;
      count := 0;
      var todo := KeysOf(history, token);
      ScanEnds(history, token, cutoff, counter);
      while todo != {}
        invariant todo <= KeysOf(history, token)
        invariant count == LiveCount(Seen(history, token, todo), token, cutoff, counter)
      {
        var key :| key in todo;
        VisitOne(history, token, todo, key, cutoff, counter);
        if history[key].timestamp >= cutoff {
          count := count + 1;
        }
        todo := todo - {key};
      }
    }

    /**
     The deployed pruning pass.  It stops after 50 deletions, and still removes every expired
     record, because no token ever holds more than 50.
     */
    method PruneOldRecords(token: Token, cutoff: int)
      requires Valid()
      modifies this`history
      ensures Valid() && history == Pruned(old(history), token, cutoff)
    {
      ghost var h0 := history;
      var todo := KeysOf(history, token);
      var pruned := 0;
      while todo != {} && pruned < MAX_HISTORY_SIZE
        invariant todo <= KeysOf(history, token) && KeysOf(history, token) <= KeysOf(h0, token)
        invariant forall k :: k in history <==> k in h0 && (k.0 != token || k in todo || h0[k].timestamp >= cutoff)
        invariant forall k | k in history :: history[k] == h0[k]
        invariant |Listing(history, token, counter)| + pruned == |Listing(h0, token, counter)|
        decreases todo
      {
        var key :| key in todo;
        if history[key].timestamp < cutoff {
          ListingDelete(history, token, key.1, counter);
          history := history - {key};
          pruned := pruned + 1;
        }
        todo := todo - {key};
      }
      if pruned == MAX_HISTORY_SIZE {
        EmptyListing(history, token, counter);
      }
      assert history == Pruned(h0, token, cutoff);
      PrunedIsValid(h0, token, cutoff, counter);
    }

    /** Appends a record under a fresh counter; the deployed profile prunes and recounts first. */
    method RecordTransaction(token: Token, timestamp: int, amount: int) returns (ok: bool)
      requires Valid() && amount > 0
      requires native ==> |LedgerOf(token).records| < MAX_HISTORY_SIZE
      modifies this`history, this`counter
      ensures ok <==> native || |Live(old(LedgerOf(token)).records, timestamp - ONE_DAY_MS)| < MAX_HISTORY_SIZE
      ensures ok ==> Valid() && counter == old(counter) + 1
      ensures ok ==> (token, counter) !in old(history)
      ensures ok ==> history == (if native then old(history) else Pruned(old(history), token, timestamp - ONE_DAY_MS))
                                [(token, counter) := Record(timestamp, amount)]
      ensures ok ==> LedgerOf(token) == old(LedgerOf(token)).(records :=
                       (if native then old(LedgerOf(token)).records else Live(old(LedgerOf(token)).records, timestamp - ONE_DAY_MS))
                       + [Record(timestamp, amount)])
      ensures ok ==> forall t: Token | t != token :: LedgerOf(t) == old(LedgerOf(t))
    {
      if !native {
        PrunedListings(history, token, timestamp - ONE_DAY_MS, counter);
        LiveOfLive(Listing(history, token, counter), timestamp - ONE_DAY_MS, timestamp - ONE_DAY_MS);
        PruneOldRecords(token, timestamp - ONE_DAY_MS);
        var live := GetRollingWindowRecordCount(token, timestamp);
        if live >= MAX_HISTORY_SIZE { return false; }
      }
      RecordedIsValid(history, token, counter, Record(timestamp, amount));
      counter := counter + 1;
      history := history[(token, counter) := Record(timestamp, amount)];
      return true;
    }

    // -------------------------------------------------------------------------
    // Fixed window
    // -------------------------------------------------------------------------

    method GetFixedWindowSpent(token: Token, now: int) returns (spent: int)
      ensures spent == FixedSpent(LedgerOf(token), now)
    {
      var reset := if token in lastReset then lastReset[token] else 0;
      if now >= reset + ONE_DAY_MS { return 0; }
      spent := if token in spentToday then spentToday[token] else 0;
    }

    method StoreFixedWindowSpent(token: Token, now: int, amount: int)
      modifies this`spentToday, this`lastReset
      ensures LedgerOf(token) == old(LedgerOf(token)).(spent := Some(amount), reset := Some(Anchor(old(LedgerOf(token)), now)))
      ensures forall t: Token | t != token :: LedgerOf(t) == old(LedgerOf(t))
    {
      if token !in lastReset || now >= lastReset[token] + ONE_DAY_MS {
        lastReset := lastReset[token := now];
      }
      spentToday := spentToday[token := amount];
    }

    // -------------------------------------------------------------------------
    // Charging one token
    // -------------------------------------------------------------------------

    /**
     One token's charge in the body of the metering loop.  Both profiles meet the same contract,
     so the one-scan accounting decides and records exactly what the multi-scan one does.
     */
    method ChargeToken(token: Token, now: int, outflow: int) returns (ok: bool)
      requires Valid() && token in limits && outflow > 0
      modifies this`history, this`counter, this`spentToday, this`lastReset
      ensures ok <==> Charge(old(LedgerOf(token)), limits[token], now, outflow).Some?
      ensures ok ==> Valid()
      ensures ok ==> LedgerOf(token) == Charge(old(LedgerOf(token)), limits[token], now, outflow).value
      ensures ok ==> forall t: Token | t != token :: LedgerOf(t) == old(LedgerOf(t))
      ensures ok && limits[token].useRollingWindow ==>
                && counter == old(counter) + 1
                && history == Pruned(old(history), token, now - ONE_DAY_MS)[(token, counter) := Record(now, outflow)]
    {
      hide Listing, Live, Total, Pruned, ValidHistory;
      var config := limits[token];
      var spent, liveRecords := 0, 0;
      if config.useRollingWindow {
        if native {
          spent, liveRecords := ReadRollingUsage(token, now, true);
        } else {
          spent := GetRollingWindowSpent(token, now);
        }
      } else {
        spent := GetFixedWindowSpent(token, now);
      }
      var newTotal := spent + outflow;
      if newTotal > config.maxAmount { return false; }
      if config.useRollingWindow {
        if !native {
          liveRecords := GetRollingWindowRecordCount(token, now);
        }
        if liveRecords >= MAX_HISTORY_SIZE { return false; }
        ok := RecordTransaction(token, now, outflow);
      } else {
        StoreFixedWindowSpent(token, now, newTotal);
        ok := true;
      }
    }

    // -------------------------------------------------------------------------
    // The callbacks
    // -------------------------------------------------------------------------

    /** Records the balance of every token that has a limit. */
    method SnapshotAllLimitedBalances(balance: Token -> int)
      modifies this`snapshots
      ensures snapshots == old(snapshots) + map t | t in limits :: balance(t)
    {
      var todo := limits.Keys;
      while todo != {}
        invariant todo <= limits.Keys
        invariant snapshots == old(snapshots) + map t | t in limits && t !in todo :: balance(t)
      {
        var token :| token in todo;
        var before := balance(token);
        snapshots := snapshots[token := before];
        todo := todo - {token};
      }
    }

    /** The body of the metering loop for one limited token. */
    method MeterToken(token: Token, now: int, balance: Token -> int, direct: Option<Token>, declared: int) returns (ok: bool)
      requires Valid() && token in limits
      modifies this`history, this`counter, this`spentToday, this`lastReset, this`snapshots
      ensures ok <==> Metered(native, old(snapshots), limits, balance, direct, declared, token, now, old(LedgerOf(token))).Some?
      ensures ok ==> Valid() && snapshots == old(snapshots) - {token}
      ensures ok ==>
                LedgerOf(token) == Metered(native, old(snapshots), limits, balance, direct, declared, token, now, old(LedgerOf(token))).value
      ensures ok ==> forall t: Token | t != token :: LedgerOf(t) == old(LedgerOf(t))
    {
      hide Listing, Charge, ValidHistory;
      if native && token !in snapshots { return false; }
      if token !in snapshots { return true; }
      var before := snapshots[token];
      snapshots := snapshots - {token};
      var after := balance(token);
      var outflow := before - after;
      if direct == Some(token) && declared > outflow { outflow := declared; }
      NothingToCharge(LedgerOf(token), limits[token], now, outflow);
      if outflow <= 0 { return true; }
      ok := ChargeToken(token, now, outflow);
    }

    /** Charges every limited token's outflow and clears its snapshot. */
    method MeterAllLimitedOutflows(now: int, balance: Token -> int, direct: Option<Token>, declared: int) returns (ok: bool)
      requires Valid()
      modifies this`history, this`counter, this`spentToday, this`lastReset, this`snapshots
      ensures ok <==> forall t | t in limits ::
                        Metered(native, old(snapshots), limits, balance, direct, declared, t, now, old(LedgerOf(t))).Some?
      ensures ok ==> Valid() && snapshots == old(snapshots) - limits.Keys
      ensures ok ==> forall t | t in limits ::
                       LedgerOf(t) == Metered(native, old(snapshots), limits, balance, direct, declared, t, now, old(LedgerOf(t))).value
      ensures ok ==> forall t: Token | t !in limits :: LedgerOf(t) == old(LedgerOf(t))
    {
      hide Metered, LedgerOf, Valid;
      var todo := limits.Keys;
      while todo != {}
        invariant todo <= limits.Keys && Valid()
        invariant snapshots == old(snapshots) - (limits.Keys - todo)
        invariant forall t: Token | t !in limits || t in todo :: LedgerOf(t) == old(LedgerOf(t))
        invariant forall t | t in limits && t !in todo ::
                    Metered(native, old(snapshots), limits, balance, direct, declared, t, now, old(LedgerOf(t))) == Some(LedgerOf(t))
      {
        var token :| token in todo;
        ghost var snaps := snapshots;
        MeteredFrame(native, old(snapshots), snaps, limits, balance, direct, declared, token, now, old(LedgerOf(token)));
        ok := MeterToken(token, now, balance, direct, declared);
        if !ok { return; }
        assert snapshots == old(snapshots) - (limits.Keys - (todo - {token}));
        todo := todo - {token};
      }
      return true;
    }

    /** Snapshots first, then rejects an obviously excessive direct transfer early. */
    method PreExecute(operation: Operation, now: int, balance: Token -> int, from: Origin) returns (ok: bool)
      requires Valid()
      modifies this`snapshots, this`history
      ensures Valid() && history == old(history)
      ensures MayCallBack(Identity(), from) ==> snapshots == old(snapshots) + map t | t in limits :: balance(t)
      ensures ok <==> MayCallBack(Identity(), from) && Admitted(native, MeterOf(old(State())), operation, now)
    {
      hide Listing, Live, Total, ValidHistory, MayCallBack;
      if !MayCallBack(Identity(), from) { return false; }
      SnapshotAllLimitedBalances(balance);
      match operation
      case Other => return true;
      case Malformed => return !native;
      case Transfer(token, fromAccountAssets, amount) =>
        if amount <= 0 || !fromAccountAssets { return false; }
        if token !in limits { return true; }
        var config := limits[token];
        var spent, liveRecords := 0, 0;
        if config.useRollingWindow {
          if native {
            spent, liveRecords := ReadRollingUsage(token, now, false);
          } else {
            spent := GetRollingWindowSpent(token, now);
          }
        } else {
          spent := GetFixedWindowSpent(token, now);
        }
        var newTotal := spent + amount;
        if newTotal > config.maxAmount { return false; }
        if config.useRollingWindow {
          if !native {
            liveRecords := GetRollingWindowRecordCount(token, now);
          }
          if liveRecords >= MAX_HISTORY_SIZE { return false; }
        }
        return true;
    }

    /** Only the deployed profile lets an accepted direct transfer raise the charge to its declared amount. */
    method PostExecute(operation: Operation, accepted: bool, now: int, balance: Token -> int, from: Origin) returns (ok: bool)
      requires Valid()
      modifies this`history, this`counter, this`spentToday, this`lastReset, this`snapshots
      ensures var (direct, declared) := Declared(native, operation, accepted);
              ok <==> MayCallBack(Identity(), from)
                      && forall t | t in limits ::
                           Metered(native, old(snapshots), limits, balance, direct, declared, t, now, old(LedgerOf(t))).Some?
      ensures ok ==> Valid() && snapshots == old(snapshots) - limits.Keys
      ensures var (direct, declared) := Declared(native, operation, accepted);
              ok ==> forall t | t in limits ::
                       LedgerOf(t) == Metered(native, old(snapshots), limits, balance, direct, declared, t, now, old(LedgerOf(t))).value
      ensures ok ==> forall t: Token | t !in limits :: LedgerOf(t) == old(LedgerOf(t))
    {
      if !MayCallBack(Identity(), from) { return false; }
      if native {
        ok := MeterAllLimitedOutflows(now, balance, None, 0);
      } else {
        var direct: Option<Token>, declared := None, 0;
        if accepted && operation.Transfer? && operation.fromAccountAssets {
          direct, declared := Some(operation.token), operation.amount;
        }
        ok := MeterAllLimitedOutflows(now, balance, direct, declared);
      }
    }
  }

  /** The declared-transfer floor that a successful direct transfer sets. */
  function Declared(native: bool, operation: Operation, accepted: bool): (Option<Token>, int) {
    if !native && accepted && operation.Transfer? && operation.fromAccountAssets
    then (Some(operation.token), operation.amount)
    else (None, 0)
  }

  /** The larger of the realized balance drop and the declared direct transfer. */
  function Outflow(before: int, after: int, direct: Option<Token>, declared: int, t: Token): int {
    if direct == Some(t) && declared > before - after then declared else before - after
  }

  /** What the metering pass does to the ledger of one limited token. */
  function Metered(
      native: bool, snapshots: map<Token, int>, limits: map<Token, LimitConfig>, balance: Token -> int,
      direct: Option<Token>, declared: int, t: Token, now: int, l: Ledger): Option<Ledger>
    requires t in limits
  {
    if t !in snapshots then (if native then None else Some(l))
    else Charge(l, limits[t], now, Outflow(snapshots[t], balance(t), direct, declared, t))
  }

  /** Only the token's own snapshot matters. */
  lemma MeteredFrame(
      native: bool, s: map<Token, int>, r: map<Token, int>, limits: map<Token, LimitConfig>, balance: Token -> int,
      direct: Option<Token>, declared: int, t: Token, now: int, l: Ledger)
    requires t in limits && (t in s <==> t in r) && (t in s ==> s[t] == r[t])
    ensures Metered(native, s, limits, balance, direct, declared, t, now, l)
         == Metered(native, r, limits, balance, direct, declared, t, now, l)
  {
  }
}
