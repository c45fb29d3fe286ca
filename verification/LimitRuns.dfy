/**
 The daily limit over whole runs: any sequence of the account's operations and of other calls of the
 hook.  What the limit promises about what operations move out holds where no callback comes out of its
 place, which the wallet ensures as long as no operation of a callback tree is one.
 */
module LimitRuns {
  import opened Values
  import opened Records
  import opened Machine
  import opened Guarantee
  import opened Soundness
  import opened Runs
  import opened Effects
  import opened Callbacks
  import opened DailyLedger
  import opened DailyHistory
  import opened DailyLimit
  import opened Sessions
  import opened Metering

  /** What happens to the hook: an operation of the account, or a call of one of its entry points at another time. */
  datatype Turn = Operating(s: Session) | Calling(r: Request, now: nat)

  /** The change leaves the limit of `t` alone. */
  predicate Apart(c: Change, t: Token) {
    IsCallback(c) || (c.SetLimit? && c.token != t)
  }

  ghost predicate LeavesAlone(s: Session, t: Token) {
    forall r | r in s.requests :: Apart(r.change, t)
  }

  /** The session of an operation that the wallet executes and in whose whole tree no operation is a callback of the hook. */
  ghost predicate Avoiding(h: Instance, s: Session) {
    exists x: Execution :: Occurs(h, x) && MayExecute(x.at.w, h.account, x.at.plan) && AvoidsPlan(x.at.plan, CalleeOf(h)) && s == SessionOf(h, x)
  }

  // ---------------------------------------------------------------------------
  // Callbacks at other times
  // ---------------------------------------------------------------------------

  /** From the target's start to the return of the last of the operation's callees. */
  function WholeRun(h: Instance, at: Setting): World
    requires MayExecute(at.w, h.account, at.plan)
  {
    Machine.Run(at.env, TargetStart(h, at), at.w.book.accounts[h.account], at.plan).world
  }

  /** The request can be made then: not by the hook itself, and to a callback by the core only as a target call. */
  ghost predicate MadeDuring(h: Instance, at: Setting, r: Request)
    requires MayExecute(at.w, h.account, at.plan)
  {
    && r.from.caller != h.self
    && exists k: nat | |TargetStart(h, at).views| <= k < |WholeRun(h, at).views| ::
         WholeRun(h, at).views[k].contexts == r.from.contexts
         && (r.from.caller == h.core ==> CalleeOf(h).Returned(WholeRun(h, at).views[k]))
  }

  /** The request can be made during an operation of the account, one without callbacks in its whole tree. */
  ghost predicate MadeInside(h: Instance, r: Request) {
    exists at: Setting ::
      Hosts(h, at) && MayExecute(at.w, h.account, at.plan) && Executed(h, at).exit.Done? && AvoidsPlan(at.plan, CalleeOf(h)) && MadeDuring(h, at, r)
  }

  /** The request can be made at a moment of some history, committed or not, at which the account is not executing. */
  ghost predicate MadeOutside(h: Instance, r: Request) {
    exists txs: seq<Transaction>, k: nat ::
      && k < |Machine.History(txs).views| && r.from.contexts == Machine.History(txs).views[k].contexts
      && (Lock, h.account) !in r.from.contexts
  }

  /** At no moment of any history, committed or not, is a callback authorized for an account that is not executing. */
  lemma NoCallbackOutsideExecution(h: Instance, r: Request)
    requires !h.native && MadeOutside(h, r)
    ensures !MayCallBack(h, r.from)
  {
    var txs: seq<Transaction>, k: nat :|
      && k < |Machine.History(txs).views| && r.from.contexts == Machine.History(txs).views[k].contexts
      && (Lock, h.account) !in r.from.contexts;
    EveryViewIsBounded(txs);
    assert IsExecutionKey(Executing(Hook));
  }

  /** The hook's execution key stays until the operation's last callee has returned. */
  lemma ExecutingThroughout(h: Instance, at: Setting, k: nat)
    requires Hosts(h, at) && MayExecute(at.w, h.account, at.plan) && Executed(h, at).exit.Done?
    requires |TargetStart(h, at).views| <= k < |WholeRun(h, at).views|
    ensures ExecutingHook(h, WholeRun(h, at).views[k].contexts)
  {
    hide Inv, Machine.Run, TargetStart, ExecuteUserOp, Escrowed, ValidOperation, AccountKept, RosterKept, Frozen, LocksCover;
    TargetStartReady(h, at);
    var u := TargetStart(h, at);
    RunSound(at.env, u, at.w.book.accounts[h.account], at.plan);
    assert ViewFits(u, WholeRun(h, at).views[k], 0);
    assert StaysLocked(u.contexts, WholeRun(h, at).views[k].contexts, h.account);
  }

  /** Nor is one authorized at any moment of such an operation, the verifier's callback after the hook's last one included. */
  lemma NoCallbackInside(h: Instance, r: Request)
    requires !h.native && MadeInside(h, r)
    ensures !MayCallBack(h, r.from)
  {
    hide Hosts, Machine.Run, TargetStart, ExecuteUserOp, Escrowed, ValidOperation, AvoidsPlan, Uncalled;
    var at: Setting :|
      Hosts(h, at) && MayExecute(at.w, h.account, at.plan) && Executed(h, at).exit.Done? && AvoidsPlan(at.plan, CalleeOf(h)) && MadeDuring(h, at, r);
    var (u, v) := (TargetStart(h, at), WholeRun(h, at));
    var k: nat :| |u.views| <= k < |v.views| && v.views[k].contexts == r.from.contexts
                  && (r.from.caller == h.core ==> CalleeOf(h).Returned(v.views[k]));
    RunAvoids(at.env, u, at.w.book.accounts[h.account], at.plan, CalleeOf(h));
    NotReturnedAt(u, v, CalleeOf(h), k);
    ExecutingThroughout(h, at, k);
  }

  lemma NotReturnedAt(u: World, v: World, callee: Callee, k: nat)
    requires Uncalled(u, v, callee) && |u.views| <= k < |v.views|
    ensures !callee.Returned(v.views[k])
  {
  }

  // ---------------------------------------------------------------------------
  // Turns
  // ---------------------------------------------------------------------------

  /**
   The turn can occur and leaves the limit of `t` alone.  In the deployed profile no operation of a tree
   is a callback of the hook; in the native one the service grants no callback outside its place.
   */
  ghost predicate Possible(h: Instance, u: Turn, t: Token) {
    match u
    case Operating(s) => LeavesAlone(s, t) && if h.native then Undisturbed(h, s) else Avoiding(h, s)
    case Calling(r, _) =>
      Apart(r.change, t) && (IsCallback(r.change) ==> if h.native then !MayCallBack(h, r.from) else MadeOutside(h, r) || MadeInside(h, r))
  }

  lemma PossibleIsRefused(h: Instance, r: Request, now: nat, t: Token)
    requires Possible(h, Calling(r, now), t)
    ensures Apart(r.change, t) && (IsCallback(r.change) ==> !MayCallBack(h, r.from))
  {
    hide MayCallBack, MadeOutside, MadeInside;
    if IsCallback(r.change) && !h.native {
      if MadeOutside(h, r) {
        NoCallbackOutsideExecution(h, r);
      } else {
        NoCallbackInside(h, r);
      }
    }
  }

  predicate InTimeOrder(turns: seq<Turn>) {
    forall i, j | 0 <= i < j < |turns| && turns[i].Operating? && turns[j].Operating? :: turns[i].s.now <= turns[j].s.now
  }

  /** The outflows of `t` in the operations that went through, oldest first. */
  function OutflowsOf(turns: seq<Turn>, oks: seq<bool>, native: bool, t: Token): seq<Attempt>
    requires |oks| == |turns|
  {
    if turns == [] then []
    else
      var n := |turns| - 1;
      var before := OutflowsOf(turns[..n], oks[..n], native, t);
      if oks[n] && turns[n].Operating? then before + [Attempt(turns[n].s.now, Outgoing(native, turns[n].s, t))] else before
  }

  /** Every outflow has the time of its operation. */
  lemma {:induction false} OutflowTime(turns: seq<Turn>, oks: seq<bool>, native: bool, t: Token, k: nat) returns (i: nat)
    requires |oks| == |turns| && k < |OutflowsOf(turns, oks, native, t)|
    ensures i < |turns| && turns[i].Operating? && turns[i].s.now == OutflowsOf(turns, oks, native, t)[k].now
  {
    hide Outgoing;
    var n := |turns| - 1;
    if k < |OutflowsOf(turns[..n], oks[..n], native, t)| {
      i := OutflowTime(turns[..n], oks[..n], native, t, k);
    } else {
      i := n;
    }
  }

  lemma EarlierOutflows(turns: seq<Turn>, oks: seq<bool>, native: bool, t: Token)
    requires |oks| == |turns| && InTimeOrder(turns) && turns != [] && turns[|turns| - 1].Operating?
    ensures var n := |turns| - 1;
            forall a | a in OutflowsOf(turns[..n], oks[..n], native, t) :: a.now <= turns[n].s.now
  {
    var n := |turns| - 1;
    hide OutflowsOf;
    var before := OutflowsOf(turns[..n], oks[..n], native, t);
    forall k | 0 <= k < |before| ensures before[k].now <= turns[n].s.now {
      var i := OutflowTime(turns[..n], oks[..n], native, t, k);
      assert turns[..n][i] == turns[i];
    }
  }

  lemma OrderedAppend(attempts: seq<Attempt>, a: Attempt)
    requires Ordered(attempts) && forall b | b in attempts :: b.now <= a.now
    ensures Ordered(attempts + [a])
  {
  }

  lemma {:induction false} OutflowsAreOrdered(turns: seq<Turn>, oks: seq<bool>, native: bool, t: Token)
    requires |oks| == |turns| && InTimeOrder(turns)
    ensures Ordered(OutflowsOf(turns, oks, native, t))
  {
    hide Outgoing;
    if turns != [] {
      var n := |turns| - 1;
      OutflowsAreOrdered(turns[..n], oks[..n], native, t);
      var before := OutflowsOf(turns[..n], oks[..n], native, t);
      if turns[n].Operating? {
        EarlierOutflows(turns, oks, native, t);
        OrderedAppend(before, Attempt(turns[n].s.now, Outgoing(native, turns[n].s, t)));
      }
    }
  }

  /** What a turn does to the meter. */
  ghost function TurnEffect(h: Instance, m: Meter, u: Turn): Option<Meter> {
    match u
    case Operating(s) => RunSession(h, m, s)
    case Calling(r, now) => Effect(h, m, r, now)
  }

  lemma SteadyEffect(h: Instance, m: Meter, r: Request, t: Token, now: int)
    requires !IsCallback(r.change) && Apart(r.change, t) && t in m.limits && Effect(h, m, r, now).Some?
    ensures var n := Effect(h, m, r, now).value;
            t in n.limits && n.limits[t] == m.limits[t] && n.ledgers[t] == m.ledgers[t]
  {
  }

  lemma {:induction false} SteadyLimit(h: Instance, m: Meter, requests: seq<Request>, t: Token, now: int)
    requires (forall r | r in requests :: Apart(r.change, t) && (IsCallback(r.change) ==> !MayCallBack(h, r.from)))
    requires t in m.limits && EffectAll(h, m, requests, now).Some?
    ensures var n := EffectAll(h, m, requests, now).value;
            t in n.limits && n.limits[t] == m.limits[t]
    decreases |requests|
  {
    hide Effect, Apart, MayCallBack;
    if requests != [] {
      assert requests[0] in requests;
      CallbackRefused(h, m, requests[0], now);
      SteadyEffect(h, m, requests[0], t, now);
      SteadyLimit(h, Effect(h, m, requests[0], now).value, requests[1..], t, now);
    }
  }

  lemma CallbackRefused(h: Instance, m: Meter, r: Request, now: int)
    ensures IsCallback(r.change) && !MayCallBack(h, r.from) ==> Effect(h, m, r, now) == None
  {
    hide MayCallBack, ChargedAll, Admitted;
  }

  /** A session keeps the limit of a token that it leaves alone. */
  lemma SessionKeepsTheLimit(h: Instance, m: Meter, s: Session, t: Token)
    requires LeavesAlone(s, t) && Undisturbed(h, s) && t in m.limits && RunSession(h, m, s).Some?
    ensures var n := RunSession(h, m, s).value;
            t in n.limits && n.limits[t] == m.limits[t]
  {
    hide EffectAll, Admitted, ChargedAll, MayCallBack, Apart;
    SessionUnfolds(h, m, s);
    SteadyLimit(h, Snapshot(m, s.before), s.requests, t, s.now);
    ChargedFields(h.native, EffectAll(h, Snapshot(m, s.before), s.requests, s.now).value, s.operation, s.accepted, s.now, s.after);
  }

  lemma AvoidingIsUndisturbed(h: Instance, s: Session)
    requires Avoiding(h, s) && s.ends
    ensures Undisturbed(h, s) && Unconfigured(h, s)
  {
    hide Occurs, Avoids, Undisturbed, Unconfigured, FirstCallback, TargetEnd, ExecuteUserOp, CalledBack;
    var x: Execution :| Occurs(h, x) && MayExecute(x.at.w, h.account, x.at.plan) && AvoidsPlan(x.at.plan, CalleeOf(h)) && s == SessionOf(h, x);
    AvoidingIsUncalled(h, x.at);
    SessionIsUnconfigured(h, x);
    UncalledIsUndisturbed(h, x);
  }

  /** One turn, seen from a token that it leaves alone. */
  lemma TurnMeters(h: Instance, m: Meter, u: Turn, t: Token)
    requires Settled(h.native, m) && t in m.limits && Possible(h, u, t) && TurnEffect(h, m, u).Some?
    ensures var n := TurnEffect(h, m, u).value;
            && t in n.limits && n.limits[t] == m.limits[t]
            && if u.Operating? then Charge(m.ledgers[t], m.limits[t], u.s.now, Outgoing(h.native, u.s, t)) == Some(n.ledgers[t])
               else n.ledgers[t] == m.ledgers[t]
  {
    hide Effect, RunSession, Settled, Avoiding, Undisturbed, Unconfigured, LeavesAlone, MayCallBack, Charge, Covered, Outgoing, MadeOutside, MadeInside;
    match u
    case Operating(s) =>
      EndsNormally(h, m, s);
      if !h.native {
        AvoidingIsUndisturbed(h, s);
      }
      NativeIsUnconfigured(h, s);
      MeteringIsComplete(h, m, s);
      SessionKeepsTheLimit(h, m, s, t);
    case Calling(r, now) =>
      PossibleIsRefused(h, r, now, t);
      CallbackRefused(h, m, r, now);
      SteadyEffect(h, m, r, t, now);
  }

  lemma NativeIsUnconfigured(h: Instance, s: Session)
    ensures h.native ==> Unconfigured(h, s)
  {
  }

  method Take(hook: DailyLimitHook, u: Turn, ghost t: Token) returns (ok: bool)
    requires AtRest(hook) && t in hook.limits && Possible(hook.Identity(), u, t)
    modifies hook
    ensures AtRest(hook)
    ensures var (m, n) := (MeterOf(old(hook.State())), MeterOf(hook.State()));
            if ok then TurnEffect(hook.Identity(), m, u) == Some(n) else n == m
  {
    hide Effect, RunSession, Settled, MeterOf, Avoiding, Unconfigured, Undisturbed, LeavesAlone, MayCallBack, ValidHistory, MadeOutside, MadeInside;
    ghost var h, m := hook.Identity(), MeterOf(hook.State());
    match u
    case Operating(s) =>
      if s.ends {
        NativeIsUnconfigured(h, s);
        if !h.native { AvoidingIsUndisturbed(h, s); }
      }
      ok := Operate(hook, s);
    case Calling(r, now) =>
      var saved := hook.State();
      ok := Metering.Call(hook, r, now);
      if ok {
        PossibleIsRefused(h, r, now, t);
        CallbackRefused(h, m, r, now);
        ConfigurationSettles(h, m, r, now);
      } else {
        hook.Restore(saved);
      }
  }

  /** The accounting of a token is the run of these attempts, none of which was rejected. */
  ghost predicate RunsAs(l: Ledger, l0: Ledger, config: LimitConfig, attempts: seq<Attempt>) {
    l == RunLedger(l0, config, attempts) && Accepted(l0, config, attempts)
  }

  lemma NoAttempt(turns: seq<Turn>, native: bool, t: Token, l0: Ledger, config: LimitConfig)
    ensures RunsAs(l0, l0, config, OutflowsOf(turns[..0], [], native, t))
  {
  }

  lemma OutflowsGrow(turns: seq<Turn>, u: Turn, oks: seq<bool>, ok: bool, native: bool, t: Token)
    requires |oks| == |turns|
    ensures OutflowsOf(turns + [u], oks + [ok], native, t)
         == OutflowsOf(turns, oks, native, t)
            + (if ok && u.Operating? then [Attempt(u.s.now, Outgoing(native, u.s, t))] else [])
  {
    hide Outgoing;
    assert (turns + [u])[..|turns|] == turns && (oks + [ok])[..|turns|] == oks;
    assert OutflowsOf(turns, oks, native, t) + [] == OutflowsOf(turns, oks, native, t);
  }

  /** One more turn continues the run. */
  lemma OutflowsStep(turns: seq<Turn>, oks: seq<bool>, ok: bool, native: bool, t: Token,
                     config: LimitConfig, l0: Ledger, l: Ledger, next: Ledger)
    requires |oks| < |turns|
    requires RunsAs(l, l0, config, OutflowsOf(turns[..|oks|], oks, native, t))
    requires var u := turns[|oks|];
             if ok && u.Operating? then Charge(l, config, u.s.now, Outgoing(native, u.s, t)) == Some(next) else next == l
    ensures RunsAs(next, l0, config, OutflowsOf(turns[..|oks| + 1], oks + [ok], native, t))
  {
    hide Charge, Outgoing, OutflowsOf, RunLedger, Accepted;
    var i, before := |oks|, OutflowsOf(turns[..|oks|], oks, native, t);
    OutflowsGrow(turns[..i], turns[i], oks, ok, native, t);
    assert turns[..i] + [turns[i]] == turns[..i + 1];
    if ok && turns[i].Operating? {
      AcceptedGrows(l0, config, before, Attempt(turns[i].s.now, Outgoing(native, turns[i].s, t)));
    } else {
      assert before + [] == before;
    }
  }

  lemma OutflowsFollow(turns: seq<Turn>, oks: seq<bool>, native: bool, t: Token, l0: Ledger)
    requires |oks| == |turns| && forall i | 0 <= i < |turns| && turns[i].Operating? :: OrZero(l0.reset) <= turns[i].s.now
    ensures Follows(OutflowsOf(turns, oks, native, t), l0)
  {
    hide OutflowsOf;
    var attempts := OutflowsOf(turns, oks, native, t);
    forall k | 0 <= k < |attempts| ensures OrZero(l0.reset) <= attempts[k].now {
      var i := OutflowTime(turns, oks, native, t, k);
    }
  }

  /** One turn continues the run of a token that it leaves alone. */
  lemma TurnStep(h: Instance, turns: seq<Turn>, oks: seq<bool>, ok: bool, t: Token, config: LimitConfig, l0: Ledger, m: Meter, n: Meter)
    requires |oks| < |turns| && Settled(h.native, m) && t in m.limits && m.limits[t] == config && Possible(h, turns[|oks|], t)
    requires RunsAs(m.ledgers[t], l0, config, OutflowsOf(turns[..|oks|], oks, h.native, t))
    requires if ok then TurnEffect(h, m, turns[|oks|]) == Some(n) else n == m
    ensures t in n.limits && n.limits[t] == config
    ensures RunsAs(n.ledgers[t], l0, config, OutflowsOf(turns[..|oks| + 1], oks + [ok], h.native, t))
  {
    hide RunsAs, OutflowsOf, Settled, Possible, TurnEffect, Charge, Outgoing;
    if ok {
      TurnMeters(h, m, turns[|oks|], t);
    }
    OutflowsStep(turns, oks, ok, h.native, t, config, l0, m.ledgers[t], n.ledgers[t]);
  }

  /**
   The limit over a whole run.  From the moment the limit of an unlimited token is set, through any
   sequence of operations in whose whole trees no operation is a callback of the hook, and of other calls
   of the hook that do not change that limit, the token's accounting is the run of its outflows, and in every closed 24-hour
   interval the operations that went through moved out, between the hook's two callbacks, at most the
   limit, in at most 50 operations, under a rolling window, and at most twice the limit under a fixed one.
   */
  method Run(hook: DailyLimitHook, turns: seq<Turn>, ghost t: Token) returns (oks: seq<bool>)
    requires AtRest(hook) && t in hook.limits && Unused(hook.LedgerOf(t))
    requires forall i | 0 <= i < |turns| :: Possible(hook.Identity(), turns[i], t)
    requires InTimeOrder(turns)
    requires forall i | 0 <= i < |turns| && turns[i].Operating? :: OrZero(hook.LedgerOf(t).reset) <= turns[i].s.now
    modifies hook
    ensures |oks| == |turns| && AtRest(hook)
    ensures t in hook.limits && hook.limits[t] == old(hook.limits)[t]
    ensures var attempts := OutflowsOf(turns, oks, hook.native, t);
            && hook.LedgerOf(t) == RunLedger(old(hook.LedgerOf(t)), hook.limits[t], attempts)
            && SpendingIsBounded(hook.limits[t], Spending(attempts))
  {
    hide Possible, OutflowsOf, RunsAs, RunLedger, Spending, SpendingIsBounded, Ordered, Sane, LedgerIn, Settled, TurnEffect, ValidHistory;
    ghost var h, m0 := hook.Identity(), MeterOf(hook.State());
    ghost var (l0, config) := (hook.LedgerOf(t), hook.limits[t]);
    MeterFields(hook.State());
    NoAttempt(turns, hook.native, t, l0, config);
    LedgerIsSane(h.native, m0, t);
    oks := [];
    for i := 0 to |turns|
      invariant |oks| == i && AtRest(hook) && t in hook.limits && hook.limits[t] == config
      invariant RunsAs(MeterOf(hook.State()).ledgers[t], l0, config, OutflowsOf(turns[..i], oks, hook.native, t))
    {
      ghost var m := MeterOf(hook.State());
      var ok := Take(hook, turns[i], t);
      TurnStep(h, turns, oks, ok, t, config, l0, m, MeterOf(hook.State()));
      oks := oks + [ok];
    }
    assert turns[..|turns|] == turns;
    MeterFields(hook.State());
    OutflowsAreOrdered(turns, oks, hook.native, t);
    OutflowsFollow(turns, oks, hook.native, t, l0);
    RunIsBounded(hook.LedgerOf(t), l0, config, OutflowsOf(turns, oks, hook.native, t));
  }

  lemma RunIsBounded(l: Ledger, l0: Ledger, config: LimitConfig, attempts: seq<Attempt>)
    requires RunsAs(l, l0, config, attempts) && Ordered(attempts) && Follows(attempts, l0) && Unused(l0) && config.maxAmount >= 0
    ensures l == RunLedger(l0, config, attempts) && SpendingIsBounded(config, Spending(attempts))
  {
    AcceptedIsBounded(l0, config, attempts);
  }
}
