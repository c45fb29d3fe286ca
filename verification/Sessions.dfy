/**
 The daily-limit hook as values: what a sequence of calls does to its limits, snapshots and ledgers, and
 when one operation's session, from the first callback to the last, meters everything that leaves.
 */
module Sessions {
  import opened Values
  import opened DailyLedger
  import opened DailyExact
  import opened DailyHistory
  import opened DailyLimit

  // ---------------------------------------------------------------------------
  // Calls
  // ---------------------------------------------------------------------------

  /** The hook's entry points with their arguments; the callbacks with the balances they will read. */
  datatype Change =
    | SetLimit(token: Token, maxAmount: int, useRollingWindow: bool)
    | ClearAll
    | Before(operation: Operation, balance: Token -> int)
    | After(operation: Operation, accepted: bool, balance: Token -> int)

  predicate IsCallback(c: Change) {
    c.Before? || c.After?
  }

  datatype Request = Request(change: Change, from: Origin)

  function Snapshot(m: Meter, balance: Token -> int): Meter {
    m.(snapshots := m.snapshots + map t | t in m.limits :: balance(t))
  }

  /** One token's ledger after the metering pass, or None when its limit rejects. */
  ghost function MeteredLedger(native: bool, m: Meter, operation: Operation, accepted: bool, now: int, balance: Token -> int, t: Token): Option<Ledger> {
    var (direct, declared) := Declared(native, operation, accepted);
    if t in m.limits then Metered(native, m.snapshots, m.limits, balance, direct, declared, t, now, m.ledgers[t]) else Some(m.ledgers[t])
  }

  ghost function ChargedAll(native: bool, m: Meter, operation: Operation, accepted: bool, now: int, balance: Token -> int): Option<Meter> {
    if forall t | t in m.limits :: MeteredLedger(native, m, operation, accepted, now, balance, t).Some? then
      Some(Meter(
        m.limits, m.snapshots - m.limits.Keys,
        imap t: Token | true :: MeteredLedger(native, m, operation, accepted, now, balance, t).value))
    else None
  }

  ghost function Limited(native: bool, m: Meter, token: Token, maxAmount: int, useRollingWindow: bool): Meter {
    if maxAmount > 0 then m.(limits := m.limits[token := LimitConfig(maxAmount, useRollingWindow)])
    else
      Meter(
        m.limits - {token}, if native then m.snapshots - {token} else m.snapshots,
        m.ledgers[token := if native then EMPTY_LEDGER else m.ledgers[token].(records := [])])
  }

  /** What one call does, or None where it aborts. */
  ghost function Effect(h: Instance, m: Meter, r: Request, now: int): Option<Meter> {
    match r.change
    case SetLimit(token, maxAmount, useRollingWindow) =>
      if MayConfigure(h, r.from) && (h.native ==> token != 0 && maxAmount >= 0)
      then Some(Limited(h.native, m, token, maxAmount, useRollingWindow)) else None
    case ClearAll => if MayConfigure(h, r.from) then Some(NOTHING) else None
    case Before(operation, balance) =>
      if MayCallBack(h, r.from) && Admitted(h.native, m, operation, now) then Some(Snapshot(m, balance)) else None
    case After(operation, accepted, balance) =>
      if MayCallBack(h, r.from) then ChargedAll(h.native, m, operation, accepted, now, balance) else None
  }

  ghost function EffectAll(h: Instance, m: Meter, requests: seq<Request>, now: int): Option<Meter>
    decreases |requests|
  {
    if requests == [] then Some(m)
    else
      match Effect(h, m, requests[0], now)
      case None => None
      case Some(n) => EffectAll(h, n, requests[1..], now)
  }

  lemma {:induction false} EffectAllSplit(h: Instance, m: Meter, a: seq<Request>, b: seq<Request>, now: int)
    ensures EffectAll(h, m, a + b, now) == match EffectAll(h, m, a, now) case None => None case Some(n) => EffectAll(h, n, b, now)
    decreases |a|
  {
    hide Effect;
    if a == [] {
      assert a + b == b;
    } else {
      assert (a + b)[0] == a[0] && (a + b)[1..] == a[1..] + b;
      var next := Effect(h, m, a[0], now);
      if next.Some? {
        EffectAllSplit(h, next.value, a[1..], b, now);
      }
    }
  }

  // ---------------------------------------------------------------------------
  // Sessions
  // ---------------------------------------------------------------------------

  /**
   One operation of the account as the hook sees it: its two callbacks with the balances before and after
   the target, every call of the hook in between, and whether everything else in the operation ends
   normally.
   */
  datatype Session = Session(
    operation: Operation, accepted: bool, now: nat, before: Token -> int, after: Token -> int,
    requests: seq<Request>, first: Origin, last: Origin, ends: bool)

  function Whole(s: Session): seq<Request> {
    [Request(Before(s.operation, s.before), s.first)] + s.requests + [Request(After(s.operation, s.accepted, s.after), s.last)]
  }

  /** A session that does not end normally, or in which a call aborts, is rolled back. */
  ghost function RunSession(h: Instance, m: Meter, s: Session): Option<Meter> {
    if s.ends then EffectAll(h, m, Whole(s), s.now) else None
  }

  /** The outflow of `t` that is to be charged. */
  function Outgoing(native: bool, s: Session, t: Token): int {
    var (direct, declared) := Declared(native, s.operation, s.accepted);
    Outflow(s.before(t), s.after(t), direct, declared, t)
  }

  ghost predicate Configured(native: bool, m: Meter) {
    && (forall t | t in m.limits :: m.limits[t].maxAmount > 0)
    && (forall t: Token :: Sane(m.ledgers[t]))
    && forall t: Token | t !in m.limits :: Unused(m.ledgers[t]) && (native ==> m.ledgers[t] == EMPTY_LEDGER)
  }

  ghost predicate Settled(native: bool, m: Meter) {
    m.snapshots == map[] && Configured(native, m)
  }

  /** The wallet's side of a deployed session: no configuration call in between is authorized. */
  ghost predicate Unconfigured(h: Instance, s: Session) {
    !h.native ==> forall r | r in s.requests && !IsCallback(r.change) :: !MayConfigure(h, r.from)
  }

  /** No callback in between is authorized. */
  ghost predicate Undisturbed(h: Instance, s: Session) {
    forall r | r in s.requests && IsCallback(r.change) :: !MayCallBack(h, r.from)
  }

  /**
   Every token limited at the end was limited all the time and has been charged exactly once with its
   outflow; every other token's accounting is as it was or erased with its limit; no snapshot is left.
   */
  ghost predicate Complete(native: bool, m: Meter, s: Session, n: Meter) {
    && n.snapshots == map[]
    && (forall t | t in n.limits ::
          t in m.limits && Charge(m.ledgers[t], n.limits[t], s.now, Outgoing(native, s, t)) == Some(n.ledgers[t]))
    && forall t: Token | t !in n.limits :: n.ledgers[t] == if t in m.limits then EMPTY_LEDGER else m.ledgers[t]
  }

  /** No outflow escapes: what left of a limited token has been charged, once. */
  ghost predicate Covered(native: bool, m: Meter, s: Session, n: Meter) {
    forall t | t in n.limits && Outgoing(native, s, t) > 0 ::
      t in m.limits && Charge(m.ledgers[t], n.limits[t], s.now, Outgoing(native, s, t)) == Some(n.ledgers[t])
  }

  // ---------------------------------------------------------------------------
  // What every sequence of calls keeps
  // ---------------------------------------------------------------------------

  /** Snapshots are of limited tokens only. */
  ghost predicate Tidy(native: bool, m: Meter) {
    Configured(native, m) && m.snapshots.Keys <= m.limits.Keys
  }

  lemma ChargedFields(native: bool, m: Meter, operation: Operation, accepted: bool, now: int, balance: Token -> int)
    requires ChargedAll(native, m, operation, accepted, now, balance).Some?
    ensures var n := ChargedAll(native, m, operation, accepted, now, balance).value;
            && n.limits == m.limits && n.snapshots == m.snapshots - m.limits.Keys
            && forall t: Token :: MeteredLedger(native, m, operation, accepted, now, balance, t) == Some(n.ledgers[t])
  {
    hide MeteredLedger;
    forall t: Token ensures MeteredLedger(native, m, operation, accepted, now, balance, t).Some? {
      UnlimitedIsKept(native, m, operation, accepted, now, balance, t);
    }
  }

  lemma ChargedAllExactly(native: bool, m: Meter, operation: Operation, accepted: bool, now: int, balance: Token -> int)
    ensures var (direct, declared) := Declared(native, operation, accepted);
            ChargedAll(native, m, operation, accepted, now, balance).Some? <==>
              forall t | t in m.limits :: Metered(native, m.snapshots, m.limits, balance, direct, declared, t, now, m.ledgers[t]).Some?
  {
    hide Metered, Declared;
    var (direct, declared) := Declared(native, operation, accepted);
    assert forall t | t in m.limits ::
             MeteredLedger(native, m, operation, accepted, now, balance, t)
             == Metered(native, m.snapshots, m.limits, balance, direct, declared, t, now, m.ledgers[t]);
  }

  lemma ChargedAllIs(native: bool, m: Meter, operation: Operation, accepted: bool, now: int, balance: Token -> int, n: Meter)
    requires n.limits == m.limits && n.snapshots == m.snapshots - m.limits.Keys
    requires forall t: Token :: MeteredLedger(native, m, operation, accepted, now, balance, t) == Some(n.ledgers[t])
    ensures ChargedAll(native, m, operation, accepted, now, balance) == Some(n)
  {
    hide MeteredLedger;
    var o := ChargedAll(native, m, operation, accepted, now, balance).value;
    ChargedFields(native, m, operation, accepted, now, balance);
    SameMeter(o, n);
  }

  lemma SameMeter(m: Meter, n: Meter)
    requires m.limits == n.limits && m.snapshots == n.snapshots && forall t: Token :: m.ledgers[t] == n.ledgers[t]
    ensures m == n
  {
    assert m.ledgers == n.ledgers;
  }

  lemma UnlimitedIsKept(native: bool, m: Meter, operation: Operation, accepted: bool, now: int, balance: Token -> int, t: Token)
    ensures t !in m.limits ==> MeteredLedger(native, m, operation, accepted, now, balance, t) == Some(m.ledgers[t])
  {
    hide Metered, Declared;
  }

  lemma MeteredKeepsSane(native: bool, m: Meter, operation: Operation, accepted: bool, now: int, balance: Token -> int, t: Token)
    requires Sane(m.ledgers[t]) && MeteredLedger(native, m, operation, accepted, now, balance, t).Some?
    ensures Sane(MeteredLedger(native, m, operation, accepted, now, balance, t).value)
  {
    hide Charge, Sane;
    if t in m.limits && t in m.snapshots {
      var (direct, declared) := Declared(native, operation, accepted);
      ChargeKeepsSane(m.ledgers[t], m.limits[t], now, Outflow(m.snapshots[t], balance(t), direct, declared, t));
    }
  }

  lemma ChargedKeepsConfigured(native: bool, m: Meter, operation: Operation, accepted: bool, now: int, balance: Token -> int)
    requires Configured(native, m) && ChargedAll(native, m, operation, accepted, now, balance).Some?
    ensures Configured(native, ChargedAll(native, m, operation, accepted, now, balance).value)
  {
    hide MeteredLedger, ChargedAll, Sane;
    var n := ChargedAll(native, m, operation, accepted, now, balance).value;
    ChargedFields(native, m, operation, accepted, now, balance);
    forall t: Token ensures Sane(n.ledgers[t]) && (t !in m.limits ==> n.ledgers[t] == m.ledgers[t]) {
      MeteredKeepsSane(native, m, operation, accepted, now, balance, t);
      UnlimitedIsKept(native, m, operation, accepted, now, balance, t);
    }
  }

  lemma ClearedIsUnused(native: bool, l: Ledger)
    requires Sane(l)
    ensures var c := if native then EMPTY_LEDGER else l.(records := []);
            Sane(c) && Unused(c) && (native ==> c == EMPTY_LEDGER)
  {
  }

  lemma LimitedIsConfigured(native: bool, m: Meter, token: Token, maxAmount: int, useRollingWindow: bool)
    requires Configured(native, m)
    ensures Configured(native, Limited(native, m, token, maxAmount, useRollingWindow))
  {
    hide Sane, Unused;
    ClearedIsUnused(native, m.ledgers[token]);
  }

  lemma LimitedIsTidy(m: Meter, token: Token, maxAmount: int, useRollingWindow: bool)
    requires Tidy(true, m)
    ensures Tidy(true, Limited(true, m, token, maxAmount, useRollingWindow))
  {
    LimitedIsConfigured(true, m, token, maxAmount, useRollingWindow);
    hide Configured;
  }

  /** A configuration call between operations keeps the hook settled. */
  lemma ConfigurationSettles(h: Instance, m: Meter, r: Request, now: int)
    requires Settled(h.native, m) && !IsCallback(r.change) && Effect(h, m, r, now).Some?
    ensures Settled(h.native, Effect(h, m, r, now).value)
  {
    hide MayConfigure, Configured;
    if r.change.SetLimit? {
      LimitedIsConfigured(h.native, m, r.change.token, r.change.maxAmount, r.change.useRollingWindow);
      assert m.snapshots - {r.change.token} == map[];
    } else {
      NothingIsTidy(h.native);
    }
  }

  lemma NothingIsTidy(native: bool)
    ensures Tidy(native, NOTHING) && Settled(native, NOTHING)
  {
    EmptyIsSane();
  }

  lemma EmptyIsSane()
    ensures Sane(EMPTY_LEDGER)
  {
  }

  lemma SnapshotIsTidy(native: bool, m: Meter, balance: Token -> int)
    requires Tidy(native, m)
    ensures Tidy(native, Snapshot(m, balance))
  {
    hide Sane, Unused;
  }

  lemma SettledIsTidy(native: bool, m: Meter)
    requires Settled(native, m)
    ensures Tidy(native, m)
  {
    hide Configured;
  }

  lemma EffectIsTidy(h: Instance, m: Meter, r: Request, now: int)
    requires Tidy(h.native, m) && Effect(h, m, r, now).Some? && (h.native || IsCallback(r.change))
    ensures Tidy(h.native, Effect(h, m, r, now).value)
  {
    hide ChargedAll, Limited, MayCallBack, MayConfigure, Admitted, Configured, Snapshot;
    match r.change
    case SetLimit(token, maxAmount, useRollingWindow) => LimitedIsTidy(m, token, maxAmount, useRollingWindow);
    case ClearAll => NothingIsTidy(h.native);
    case Before(operation, balance) => SnapshotIsTidy(h.native, m, balance);
    case After(operation, accepted, balance) =>
      ChargedFields(h.native, m, operation, accepted, now, balance);
      ChargedKeepsConfigured(h.native, m, operation, accepted, now, balance);
  }

  lemma {:induction false} EffectsAreTidy(h: Instance, m: Meter, requests: seq<Request>, now: int)
    requires Tidy(h.native, m) && EffectAll(h, m, requests, now).Some?
    requires !h.native ==> forall r | r in requests && !IsCallback(r.change) :: !MayConfigure(h, r.from)
    ensures Tidy(h.native, EffectAll(h, m, requests, now).value)
    decreases |requests|
  {
    hide Tidy, ChargedAll, Limited;
    if requests != [] {
      EffectIsTidy(h, m, requests[0], now);
      EffectsAreTidy(h, Effect(h, m, requests[0], now).value, requests[1..], now);
    }
  }

  /** A session is its first callback, the calls in between, and its last callback. */
  lemma SessionUnfolds(h: Instance, m: Meter, s: Session)
    ensures RunSession(h, m, s) ==
            if !s.ends || !MayCallBack(h, s.first) || !Admitted(h.native, m, s.operation, s.now) then None
            else
              match EffectAll(h, Snapshot(m, s.before), s.requests, s.now)
              case None => None
              case Some(n) =>
                if MayCallBack(h, s.last) then ChargedAll(h.native, n, s.operation, s.accepted, s.now, s.after) else None
  {
    hide ChargedAll, Admitted, MayCallBack;
    var (first, last) := (Request(Before(s.operation, s.before), s.first), Request(After(s.operation, s.accepted, s.after), s.last));
    assert Whole(s)[0] == first && Whole(s)[1..] == s.requests + [last];
    EffectAllSplit(h, Snapshot(m, s.before), s.requests, [last], s.now);
    assert [last][1..] == [];
  }

  /** Sessions keep the hook settled: whatever ran in between, no snapshot stays. */
  lemma SessionsSettle(h: Instance, m: Meter, s: Session)
    requires Settled(h.native, m) && Unconfigured(h, s) && RunSession(h, m, s).Some?
    ensures Settled(h.native, RunSession(h, m, s).value)
  {
    hide EffectAll, MayCallBack, MayConfigure, ChargedAll, Sane, MeteredLedger, RunSession, Admitted;
    SessionUnfolds(h, m, s);
    var m1 := Snapshot(m, s.before);
    SettledIsTidy(h.native, m);
    SnapshotIsTidy(h.native, m, s.before);
    EffectsAreTidy(h, m1, s.requests, s.now);
    var m2 := EffectAll(h, m1, s.requests, s.now).value;
    ChargedFields(h.native, m2, s.operation, s.accepted, s.now, s.after);
    ChargedKeepsConfigured(h.native, m2, s.operation, s.accepted, s.now, s.after);
    assert (m2.snapshots - m2.limits.Keys).Keys == {};
  }

  // ---------------------------------------------------------------------------
  // Sessions without a callback in between
  // ---------------------------------------------------------------------------

  /** Every snapshot left is that of a token limited all the time, whose ledger has not moved. */
  ghost predicate Between(m: Meter, before: Token -> int, n: Meter) {
    forall t | t in n.snapshots ::
      t in m.limits && t in n.limits && n.snapshots[t] == before(t) && n.ledgers[t] == m.ledgers[t]
  }

  lemma ReconfiguredBetween(h: Instance, m: Meter, before: Token -> int, n: Meter, r: Request, now: int)
    requires h.native && !IsCallback(r.change) && Between(m, before, n) && Effect(h, n, r, now).Some?
    ensures Between(m, before, Effect(h, n, r, now).value)
  {
  }

  lemma {:induction false} QuietlyBetween(h: Instance, m: Meter, before: Token -> int, n: Meter, requests: seq<Request>, now: int)
    requires Between(m, before, n) && EffectAll(h, n, requests, now).Some?
    requires forall r | r in requests :: if IsCallback(r.change) then !MayCallBack(h, r.from) else h.native || !MayConfigure(h, r.from)
    ensures Between(m, before, EffectAll(h, n, requests, now).value)
    ensures !h.native ==> requests == []
    decreases |requests|
  {
    hide Between, ChargedAll, Limited, MayCallBack, MayConfigure;
    if requests != [] {
      assert requests[0] in requests;
      ReconfiguredBetween(h, m, before, n, requests[0], now);
      QuietlyBetween(h, m, before, Effect(h, n, requests[0], now).value, requests[1..], now);
    }
  }

  /** Metering is complete in every session that goes through and in which no callback in between is authorized. */
  lemma MeteringIsComplete(h: Instance, m: Meter, s: Session)
    requires Settled(h.native, m) && Unconfigured(h, s) && Undisturbed(h, s) && RunSession(h, m, s).Some?
    ensures Complete(h.native, m, s, RunSession(h, m, s).value) && Covered(h.native, m, s, RunSession(h, m, s).value)
    ensures !h.native ==> s.requests == [] && RunSession(h, m, s).value.limits == m.limits
  {
    hide MayCallBack, MayConfigure, Charge, ChargedAll, Admitted, EffectAll, RunSession, Configured, Outgoing;
    SessionUnfolds(h, m, s);
    SessionsSettle(h, m, s);
    var m1 := Snapshot(m, s.before);
    SettledIsTidy(h.native, m);
    SnapshotIsTidy(h.native, m, s.before);
    QuietlyBetween(h, m, s.before, m1, s.requests, s.now);
    EffectsAreTidy(h, m1, s.requests, s.now);
    NoEffects(h, m1, s.now);
    var m2 := EffectAll(h, m1, s.requests, s.now).value;
    ChargedFields(h.native, m2, s.operation, s.accepted, s.now, s.after);
    AllCharged(h, m, s, m2);
  }

  lemma AllCharged(h: Instance, m: Meter, s: Session, n: Meter)
    requires Settled(h.native, m) && Tidy(h.native, n) && Between(m, s.before, n)
    requires !h.native ==> n == Snapshot(m, s.before)
    requires ChargedAll(h.native, n, s.operation, s.accepted, s.now, s.after).Some?
    ensures var o := ChargedAll(h.native, n, s.operation, s.accepted, s.now, s.after).value;
            Settled(h.native, o) ==> Complete(h.native, m, s, o)
  {
    hide Charge, ChargedAll, Settled, Tidy, Between, Outgoing, MeteredLedger, Snapshot;
    var o := ChargedAll(h.native, n, s.operation, s.accepted, s.now, s.after).value;
    ChargedFields(h.native, n, s.operation, s.accepted, s.now, s.after);
    forall t | t in o.limits
      ensures t in m.limits && Charge(m.ledgers[t], o.limits[t], s.now, Outgoing(h.native, s, t)) == Some(o.ledgers[t])
    {
      assert MeteredLedger(h.native, n, s.operation, s.accepted, s.now, s.after, t).Some?;
      OneCharged(h, m, s, n, t);
    }
    if Settled(h.native, o) {
      forall t: Token | t !in o.limits ensures o.ledgers[t] == if t in m.limits then EMPTY_LEDGER else m.ledgers[t] {
        UnlimitedIsKept(h.native, n, s.operation, s.accepted, s.now, s.after, t);
        LedgersKept(h, m, s, n);
        OtherLedger(h.native, m, o, t);
      }
      NoSnapshotLeft(h.native, o);
    }
  }

  lemma NoSnapshotLeft(native: bool, m: Meter)
    requires Settled(native, m)
    ensures m.snapshots == map[]
  {
  }

  /** A token without a limit has the accounting it had, or in the native profile none. */
  lemma OtherLedger(native: bool, m: Meter, o: Meter, t: Token)
    requires Settled(native, m) && Settled(native, o) && t !in o.limits
    requires !native ==> t !in m.limits && o.ledgers[t] == m.ledgers[t]
    ensures o.ledgers[t] == if t in m.limits then EMPTY_LEDGER else m.ledgers[t]
  {
  }

  /** A limited token is charged from its snapshot. */
  lemma OneCharged(h: Instance, m: Meter, s: Session, n: Meter, t: Token)
    requires Between(m, s.before, n) && t in n.limits && (!h.native ==> n == Snapshot(m, s.before))
    requires MeteredLedger(h.native, n, s.operation, s.accepted, s.now, s.after, t).Some?
    ensures t in m.limits
    ensures Some(MeteredLedger(h.native, n, s.operation, s.accepted, s.now, s.after, t).value)
         == Charge(m.ledgers[t], n.limits[t], s.now, Outgoing(h.native, s, t))
  {
    hide Charge;
    assert t in n.snapshots;
  }

  lemma LedgersKept(h: Instance, m: Meter, s: Session, n: Meter)
    requires !h.native ==> n == Snapshot(m, s.before)
    ensures !h.native ==> n.ledgers == m.ledgers && n.limits == m.limits
  {
  }

  /** A session without calls in between goes through exactly when it is admitted and every limit accepts its outflow. */
  lemma QuietSessionExactly(h: Instance, m: Meter, s: Session)
    requires Settled(h.native, m) && s.requests == []
    ensures RunSession(h, m, s).Some? <==>
              && s.ends && MayCallBack(h, s.first) && MayCallBack(h, s.last) && Admitted(h.native, m, s.operation, s.now)
              && forall t | t in m.limits :: Charge(m.ledgers[t], m.limits[t], s.now, Outgoing(h.native, s, t)).Some?
  {
    hide MayCallBack, Charge, Admitted;
    SessionUnfolds(h, m, s);
    var m1 := Snapshot(m, s.before);
    assert EffectAll(h, m1, [], s.now) == Some(m1);
    forall t | t in m.limits
      ensures MeteredLedger(h.native, m1, s.operation, s.accepted, s.now, s.after, t) == Charge(m.ledgers[t], m.limits[t], s.now, Outgoing(h.native, s, t))
    {
      assert t in m1.snapshots && m1.snapshots[t] == s.before(t);
    }
  }

  /** What the first callback demands of the operation's declared transfer. */
  ghost predicate TransferFits(native: bool, m: Meter, operation: Operation, now: int, start: Token -> Ledger, past: Token -> seq<Attempt>) {
    match operation
    case Other => true
    case Malformed => !native
    case Transfer(token, fromAccountAssets, amount) =>
      amount > 0 && fromAccountAssets && (token in m.limits ==> Fits(start(token), m.limits[token], past(token), now, amount))
  }

  /**
   The same in terms of the outflows since each limit was set: the session goes through exactly when both
   callbacks are authorized, each limit has room for the declared transfer, and each has room for what left.
   */
  lemma QuietSessionFits(h: Instance, m: Meter, s: Session, start: Token -> Ledger, past: Token -> seq<Attempt>)
    requires Settled(h.native, m) && s.requests == []
    requires forall t | t in m.limits :: Since(m.ledgers[t], start(t), m.limits[t], past(t), s.now)
    ensures RunSession(h, m, s).Some? <==>
              && s.ends && MayCallBack(h, s.first) && MayCallBack(h, s.last)
              && TransferFits(h.native, m, s.operation, s.now, start, past)
              && forall t | t in m.limits :: Fits(start(t), m.limits[t], past(t), s.now, Outgoing(h.native, s, t))
  {
    hide MayCallBack, Charge, Fits, Since, Settled, RunSession, Outgoing;
    QuietSessionExactly(h, m, s);
    forall t | t in m.limits
      ensures Charge(m.ledgers[t], m.limits[t], s.now, Outgoing(h.native, s, t)).Some? <==> Fits(start(t), m.limits[t], past(t), s.now, Outgoing(h.native, s, t))
    {
      ChargeExactly(m.ledgers[t], start(t), m.limits[t], past(t), s.now, Outgoing(h.native, s, t));
    }
    if s.operation.Transfer? && s.operation.token in m.limits {
      var t := s.operation.token;
      ChargeExactly(m.ledgers[t], start(t), m.limits[t], past(t), s.now, s.operation.amount);
    }
  }

  /** What is charged is the drop of the balance, or in the deployed profile a larger accepted direct transfer of the token. */
  lemma OutgoingIsTheLarger(native: bool, s: Session, t: Token)
    ensures var drop := s.before(t) - s.after(t);
            var declared := !native && s.accepted && s.operation.Transfer? && s.operation.token == t && s.operation.fromAccountAssets;
            && Outgoing(native, s, t) >= drop && (declared ==> Outgoing(native, s, t) >= s.operation.amount)
            && (Outgoing(native, s, t) == drop || (declared && Outgoing(native, s, t) == s.operation.amount))
  {
  }

  // ---------------------------------------------------------------------------
  // Sessions with one
  // ---------------------------------------------------------------------------

  /** The balances with `amount` more of one token. */
  function Raised(balance: Token -> int, token: Token, amount: nat): Token -> int {
    (t: Token) => if t == token then balance(t) + amount else balance(t)
  }

  function RaisedRequest(r: Request, token: Token, amount: nat): Request {
    match r.change
    case Before(operation, balance) => r.(change := Before(operation, Raised(balance, token, amount)))
    case After(operation, accepted, balance) => r.(change := After(operation, accepted, Raised(balance, token, amount)))
    case _ => r
  }

  function RaisedAll(requests: seq<Request>, token: Token, amount: nat): (r: seq<Request>)
    ensures |r| == |requests|
  {
    seq(|requests|, i requires 0 <= i < |requests| => RaisedRequest(requests[i], token, amount))
  }

  ghost function RaisedMeter(m: Meter, token: Token, amount: nat): Meter {
    m.(snapshots := map t | t in m.snapshots :: if t == token then m.snapshots[t] + amount else m.snapshots[t])
  }

  ghost function RaisedResult(o: Option<Meter>, token: Token, amount: nat): Option<Meter> {
    if o.Some? then Some(RaisedMeter(o.value, token, amount)) else None
  }

  /** Only differences of balances matter. */
  lemma RaisedEffect(h: Instance, m: Meter, r: Request, token: Token, amount: nat, now: int)
    ensures Effect(h, RaisedMeter(m, token, amount), RaisedRequest(r, token, amount), now)
         == RaisedResult(Effect(h, m, r, now), token, amount)
  {
    hide MayCallBack, MayConfigure, Admitted, ChargedAll, Snapshot, Limited;
    match r.change
    case SetLimit(t, maxAmount, useRollingWindow) => RaisedLimited(h.native, m, t, maxAmount, useRollingWindow, token, amount);
    case ClearAll => assert RaisedMeter(NOTHING, token, amount).snapshots == NOTHING.snapshots;
    case Before(operation, balance) =>
      RaisedAdmitted(h.native, m, operation, token, amount, now);
      RaisedSnapshot(m, balance, token, amount);
    case After(operation, accepted, balance) => RaisedCharges(h.native, m, operation, accepted, now, balance, token, amount);
  }

  lemma RaisedLimited(native: bool, m: Meter, t: Token, maxAmount: int, useRollingWindow: bool, token: Token, amount: nat)
    ensures Limited(native, RaisedMeter(m, token, amount), t, maxAmount, useRollingWindow)
         == RaisedMeter(Limited(native, m, t, maxAmount, useRollingWindow), token, amount)
  {
    assert RaisedMeter(m, token, amount).snapshots - {t} == RaisedMeter(m.(snapshots := m.snapshots - {t}), token, amount).snapshots;
  }

  lemma RaisedAdmitted(native: bool, m: Meter, operation: Operation, token: Token, amount: nat, now: int)
    ensures Admitted(native, RaisedMeter(m, token, amount), operation, now) == Admitted(native, m, operation, now)
  {
    hide Charge;
  }

  lemma RaisedSnapshot(m: Meter, balance: Token -> int, token: Token, amount: nat)
    ensures Snapshot(RaisedMeter(m, token, amount), Raised(balance, token, amount)) == RaisedMeter(Snapshot(m, balance), token, amount)
  {
    hide Raised;
    var x := Snapshot(RaisedMeter(m, token, amount), Raised(balance, token, amount)).snapshots;
    var y := RaisedMeter(Snapshot(m, balance), token, amount).snapshots;
    assert x.Keys == m.snapshots.Keys + m.limits.Keys == y.Keys;
    forall t | t in x ensures x[t] == y[t] {
      RaisedAt(balance, token, amount, t);
    }
    assert x == y;
  }

  lemma RaisedAt(balance: Token -> int, token: Token, amount: nat, t: Token)
    ensures Raised(balance, token, amount)(t) == if t == token then balance(t) + amount else balance(t)
  {
  }

  lemma RaisedLedger(
      native: bool, m: Meter, operation: Operation, accepted: bool, now: int, balance: Token -> int, token: Token, amount: nat, t: Token)
    ensures MeteredLedger(native, RaisedMeter(m, token, amount), operation, accepted, now, Raised(balance, token, amount), t)
         == MeteredLedger(native, m, operation, accepted, now, balance, t)
  {
    hide Charge, Declared;
  }

  lemma RaisedCharges(
      native: bool, m: Meter, operation: Operation, accepted: bool, now: int, balance: Token -> int, token: Token, amount: nat)
    ensures ChargedAll(native, RaisedMeter(m, token, amount), operation, accepted, now, Raised(balance, token, amount))
         == RaisedResult(ChargedAll(native, m, operation, accepted, now, balance), token, amount)
  {
    hide MeteredLedger;
    var (r, raised) := (RaisedMeter(m, token, amount), Raised(balance, token, amount));
    forall t: Token
      ensures MeteredLedger(native, r, operation, accepted, now, raised, t) == MeteredLedger(native, m, operation, accepted, now, balance, t)
    {
      RaisedLedger(native, m, operation, accepted, now, balance, token, amount, t);
    }
    var o := ChargedAll(native, m, operation, accepted, now, balance);
    if o.Some? {
      ChargedFields(native, m, operation, accepted, now, balance);
      var n := RaisedMeter(o.value, token, amount);
      assert r.snapshots - r.limits.Keys == n.snapshots;
      ChargedAllIs(native, r, operation, accepted, now, raised, n);
    }
  }

  lemma {:induction false} RaisedEffects(h: Instance, m: Meter, requests: seq<Request>, token: Token, amount: nat, now: int)
    ensures EffectAll(h, RaisedMeter(m, token, amount), RaisedAll(requests, token, amount), now)
         == RaisedResult(EffectAll(h, m, requests, now), token, amount)
    decreases |requests|
  {
    hide Effect, RaisedMeter, RaisedRequest;
    if requests != [] {
      var r, raised := requests[0], RaisedAll(requests, token, amount);
      assert raised[0] == RaisedRequest(r, token, amount) && raised[1..] == RaisedAll(requests[1..], token, amount);
      RaisedEffect(h, m, r, token, amount, now);
      var next := Effect(h, m, r, now);
      if next.Some? {
        RaisedEffects(h, next.value, requests[1..], token, amount, now);
      }
    }
  }

  /** A callback forgets where the balances were: the first by new snapshots, the last by deleting them. */
  lemma CallbackForgets(h: Instance, m: Meter, r: Request, token: Token, amount: nat, now: int)
    requires Tidy(h.native, m) && IsCallback(r.change)
    ensures Effect(h, RaisedMeter(m, token, amount), if r.change.After? then RaisedRequest(r, token, amount) else r, now)
         == Effect(h, m, r, now)
  {
    hide MayCallBack, Admitted, ChargedAll, Configured;
    if r.change.After? {
      RaisedEffect(h, m, r, token, amount, now);
      var o := ChargedAll(h.native, m, r.change.operation, r.change.accepted, now, r.change.balance);
      if o.Some? {
        ChargedFields(h.native, m, r.change.operation, r.change.accepted, now, r.change.balance);
        assert o.value.snapshots == map[];
        assert RaisedMeter(o.value, token, amount) == o.value;
      }
    } else {
      RaisedAdmitted(h.native, m, r.change.operation, token, amount, now);
      assert Snapshot(RaisedMeter(m, token, amount), r.change.balance).snapshots == Snapshot(m, r.change.balance).snapshots;
    }
  }

  /**
   The same session, except that `amount` more of `token` leaves in it: just before the callback at
   position `i` takes its snapshots, or just after it has done its metering.
   */
  function MovedOut(s: Session, i: nat, token: Token, amount: nat): Session
    requires i < |s.requests|
  {
    var r := s.requests[i];
    s.(before := Raised(s.before, token, amount),
       requests := RaisedAll(s.requests[..i], token, amount)
                   + [if r.change.After? then RaisedRequest(r, token, amount) else r] + s.requests[i + 1..])
  }

  /** Whatever leaves around a callback in between makes no difference to the session, in either profile. */
  lemma CallbackHidesTheOutflow(h: Instance, m: Meter, s: Session, i: nat, token: Token, amount: nat)
    requires Settled(h.native, m) && Unconfigured(h, s) && i < |s.requests| && IsCallback(s.requests[i].change)
    ensures RunSession(h, m, MovedOut(s, i, token, amount)) == RunSession(h, m, s)
  {
    hide Effect, EffectAll, Settled, Tidy, Admitted, ChargedAll, MayCallBack, RunSession, Snapshot, RaisedAll, RaisedMeter;
    var x, m1 := MovedOut(s, i, token, amount), Snapshot(m, s.before);
    var (before, r, rest) := (s.requests[..i], s.requests[i], s.requests[i + 1..]);
    var moved := if r.change.After? then RaisedRequest(r, token, amount) else r;
    SessionUnfolds(h, m, s);
    SessionUnfolds(h, m, x);
    FirstSnapshot(h.native, m, s.before, token, amount);
    assert s.requests == before + ([r] + rest);
    assert x.requests == RaisedAll(before, token, amount) + ([moved] + rest);
    EffectAllSplit(h, m1, before, [r] + rest, s.now);
    EffectAllSplit(h, RaisedMeter(m1, token, amount), RaisedAll(before, token, amount), [moved] + rest, s.now);
    RaisedEffects(h, m1, before, token, amount, s.now);
    var n := EffectAll(h, m1, before, s.now);
    if n.Some? {
      SettledIsTidy(h.native, m);
      SnapshotIsTidy(h.native, m, s.before);
      UnconfiguredPart(h, s, i);
      EffectsAreTidy(h, m1, before, s.now);
      CallbackForgets(h, n.value, r, token, amount, s.now);
      FirstEffect(h, n.value, r, rest, s.now);
      FirstEffect(h, RaisedMeter(n.value, token, amount), moved, rest, s.now);
    }
  }

  lemma FirstSnapshot(native: bool, m: Meter, balance: Token -> int, token: Token, amount: nat)
    requires Settled(native, m)
    ensures Snapshot(m, Raised(balance, token, amount)) == RaisedMeter(Snapshot(m, balance), token, amount)
  {
    hide Configured;
    assert RaisedMeter(m, token, amount) == m;
    RaisedSnapshot(m, balance, token, amount);
  }

  lemma UnconfiguredPart(h: Instance, s: Session, i: nat)
    requires Unconfigured(h, s) && i <= |s.requests|
    ensures !h.native ==> forall r | r in s.requests[..i] && !IsCallback(r.change) :: !MayConfigure(h, r.from)
  {
    hide MayConfigure;
  }

  lemma FirstEffect(h: Instance, m: Meter, r: Request, rest: seq<Request>, now: int)
    ensures EffectAll(h, m, [r] + rest, now)
         == match Effect(h, m, r, now) case None => None case Some(n) => EffectAll(h, n, rest, now)
  {
    hide Effect;
    assert ([r] + rest)[0] == r && ([r] + rest)[1..] == rest;
  }

  /** More than the limit can then have left, uncharged. */
  lemma MovedOutIsUncovered(h: Instance, m: Meter, s: Session, n: Meter, token: Token)
    requires Settled(h.native, m) && token in m.limits && token in n.limits && n.limits[token] == m.limits[token]
    requires Outgoing(h.native, s, token) > m.limits[token].maxAmount
    ensures !Covered(h.native, m, s, n)
  {
    hide Charge, Outgoing, Sane;
    LedgerIsSane(h.native, m, token);
    Overdrawn(m.ledgers[token], m.limits[token], s.now, Outgoing(h.native, s, token));
  }

  lemma LedgerIsSane(native: bool, m: Meter, t: Token)
    requires Settled(native, m)
    ensures Sane(m.ledgers[t]) && (t in m.limits ==> m.limits[t].maxAmount > 0)
  {
    hide Sane;
  }

  lemma Overdrawn(l: Ledger, config: LimitConfig, now: int, amount: int)
    requires Sane(l) && amount > config.maxAmount && amount > 0
    ensures Charge(l, config, now, amount) == None
  {
    LiveIsPositive(l.records, now - ONE_DAY_MS);
    PositiveTotal(Live(l.records, now - ONE_DAY_MS));
  }

  lemma NoEffects(h: Instance, m: Meter, now: int)
    ensures EffectAll(h, m, [], now) == Some(m)
  {
  }

  /** In the deployed profile a session changes no limit. */
  lemma SessionKeepsLimits(h: Instance, m: Meter, s: Session)
    requires !h.native && Unconfigured(h, s) && RunSession(h, m, s).Some?
    ensures RunSession(h, m, s).value.limits == m.limits
  {
    hide EffectAll, Admitted, ChargedAll, MayCallBack, RunSession;
    SessionUnfolds(h, m, s);
    EffectsKeepLimits(h, Snapshot(m, s.before), s.requests, s.now);
    ChargedFields(h.native, EffectAll(h, Snapshot(m, s.before), s.requests, s.now).value, s.operation, s.accepted, s.now, s.after);
  }

  lemma {:induction false} EffectsKeepLimits(h: Instance, m: Meter, requests: seq<Request>, now: int)
    requires !h.native && EffectAll(h, m, requests, now).Some?
    requires forall r | r in requests && !IsCallback(r.change) :: !MayConfigure(h, r.from)
    ensures EffectAll(h, m, requests, now).value.limits == m.limits
    decreases |requests|
  {
    hide Limited, MayConfigure, MayCallBack, Admitted, ChargedAll;
    if requests != [] {
      assert requests[0] in requests;
      var r := requests[0];
      if r.change.After? {
        ChargedFields(h.native, m, r.change.operation, r.change.accepted, now, r.change.balance);
      }
      EffectsKeepLimits(h, Effect(h, m, r, now).value, requests[1..], now);
    }
  }

  // ---------------------------------------------------------------------------
  // Sessions in which nothing moves
  // ---------------------------------------------------------------------------

  /** A callback that reads no balance and declares nothing. */
  ghost predicate Motionless(r: Request) {
    || (r.change.Before? && r.change.operation == Other && r.change.balance == NO_BALANCE)
    || (r.change.After? && r.change.operation == Other && !r.change.accepted && r.change.balance == NO_BALANCE)
  }

  const NO_BALANCE: Token -> int := (t: Token) => 0

  /** The snapshots, if there are any, are zero. */
  ghost predicate Unmoved(m: Meter, n: Meter) {
    && n.limits == m.limits && n.ledgers == m.ledgers && n.snapshots.Keys <= n.limits.Keys
    && forall t | t in n.snapshots :: n.snapshots[t] == 0
  }

  lemma UnmovedCharges(m: Meter, n: Meter, operation: Operation, now: int)
    requires Unmoved(m, n)
    ensures ChargedAll(false, n, operation, false, now, NO_BALANCE) == Some(n.(snapshots := map[]))
  {
    hide ChargedAll;
    forall t: Token ensures MeteredLedger(false, n, operation, false, now, NO_BALANCE, t) == Some(n.ledgers[t]) {
      ChargesNothing(n.ledgers[t], now);
    }
    ChargedAllIs(false, n, operation, false, now, NO_BALANCE, n.(snapshots := map[]));
  }

  lemma ChargesNothing(l: Ledger, now: int)
    ensures forall config: LimitConfig :: Charge(l, config, now, 0) == Some(l)
  {
  }

  lemma {:induction false} UnmovedEffects(h: Instance, m: Meter, n: Meter, requests: seq<Request>, now: int)
    requires !h.native && Unmoved(m, n) && forall r | r in requests :: Motionless(r) && MayCallBack(h, r.from)
    ensures EffectAll(h, n, requests, now).Some? && Unmoved(m, EffectAll(h, n, requests, now).value)
    decreases |requests|
  {
    hide MayCallBack, ChargedAll, Unmoved;
    if requests != [] {
      var r := requests[0];
      assert r in requests;
      UnmovedEffect(h, m, n, r, now);
      UnmovedEffects(h, m, Effect(h, n, r, now).value, requests[1..], now);
    }
  }

  lemma UnmovedEffect(h: Instance, m: Meter, n: Meter, r: Request, now: int)
    requires !h.native && Unmoved(m, n) && Motionless(r) && MayCallBack(h, r.from)
    ensures Effect(h, n, r, now).Some? && Unmoved(m, Effect(h, n, r, now).value)
  {
    hide MayCallBack, ChargedAll;
    if r.change.After? {
      UnmovedCharges(m, n, Other, now);
    }
  }

  /** Where nothing moves, an admitted session with authorized callbacks goes through and changes nothing. */
  lemma MotionlessSessionPasses(h: Instance, m: Meter, s: Session)
    requires !h.native && Settled(false, m) && s.ends && MayCallBack(h, s.first) && MayCallBack(h, s.last)
    requires Admitted(false, m, s.operation, s.now) && !s.accepted && s.before == NO_BALANCE && s.after == NO_BALANCE
    requires forall r | r in s.requests :: Motionless(r) && MayCallBack(h, r.from)
    ensures RunSession(h, m, s) == Some(m)
  {
    hide MayCallBack, EffectAll, Admitted, ChargedAll, RunSession, Configured;
    SessionUnfolds(h, m, s);
    var m1 := Snapshot(m, s.before);
    UnmovedEffects(h, m, m1, s.requests, s.now);
    var n := EffectAll(h, m1, s.requests, s.now).value;
    UnmovedCharges(m, n, s.operation, s.now);
    assert n.(snapshots := map[]) == m;
  }
}
