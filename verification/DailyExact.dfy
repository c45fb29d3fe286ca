/**
 Exactly when the daily limit lets an outflow through, said of the outflows that went through before and
 of the clock alone: a reference that keeps no ledger, and the proof that every run of the ledger agrees
 with it.
 */
module DailyExact {
  import opened DailyLedger

  // ---------------------------------------------------------------------------
  // Rolling window
  // ---------------------------------------------------------------------------

  /** The last 24 hours have room for the outflow: at most the limit in all, and in at most 50 records. */
  predicate RollingFits(past: seq<Record>, maxAmount: int, now: int, outflow: int) {
    var day := Within(past, now - 86_400_000, now);
    Total(day) + outflow <= maxAmount && |day| < 50
  }

  /** The outflows that a rolling limit lets through. */
  function RollingOutflows(maxAmount: int, attempts: seq<Attempt>): seq<Record> {
    if attempts == [] then []
    else
      var past, a := RollingOutflows(maxAmount, attempts[..|attempts| - 1]), attempts[|attempts| - 1];
      if a.outflow > 0 && RollingFits(past, maxAmount, a.now, a.outflow) then past + [Record(a.now, a.outflow)] else past
  }

  /** Records that are not in the future are live exactly when they are of the last 24 hours. */
  lemma {:induction false} LiveIsWithin(records: seq<Record>, lo: int, hi: int)
    requires forall r | r in records :: r.timestamp <= hi
    ensures Live(records, lo) == Within(records, lo, hi)
  {
    if records != [] {
      var init := records[..|records| - 1];
      assert forall r | r in init :: r in records;
      assert records[|records| - 1] in records;
      LiveIsWithin(init, lo, hi);
    }
  }

  lemma {:induction false} OutflowsArePast(l0: Ledger, config: LimitConfig, attempts: seq<Attempt>, now: int)
    requires forall a | a in attempts :: a.now <= now
    ensures forall r | r in Records(Outflows(l0, config, attempts)) :: r.timestamp <= now
  {
    hide RunLedger, Charge, Anchor;
    if attempts != [] {
      var before := attempts[..|attempts| - 1];
      assert forall a | a in before :: a in attempts;
      assert attempts[|attempts| - 1] in attempts;
      OutflowsArePast(l0, config, before, now);
      StepRecords(l0, config, attempts);
    }
  }

  /** One more attempt. */
  lemma RollingStepExactly(l: Ledger, config: LimitConfig, past: seq<Record>, now: int, outflow: int)
    requires config.useRollingWindow && outflow > 0
    requires Live(l.records, now - ONE_DAY_MS) == Within(past, now - 86_400_000, now)
    ensures Charge(l, config, now, outflow).Some? <==> RollingFits(past, config.maxAmount, now, outflow)
  {
    hide Live, Within, Total;
  }

  lemma OrderedPrefix(attempts: seq<Attempt>, now: int)
    requires Ordered(attempts) && attempts != []
    ensures Ordered(attempts[..|attempts| - 1]) && forall a | a in attempts[..|attempts| - 1] :: a.now <= attempts[|attempts| - 1].now
  {
  }

  /** From a ledger without records, an attempt goes through exactly when the last 24 hours of outflows have room for it. */
  lemma RollingChargeExactly(l0: Ledger, config: LimitConfig, attempts: seq<Attempt>, now: int, outflow: int)
    requires config.useRollingWindow && l0.records == [] && Ordered(attempts) && forall a | a in attempts :: a.now <= now
    ensures outflow > 0 ==>
              (Charge(RunLedger(l0, config, attempts), config, now, outflow).Some?
               <==> RollingFits(Records(Outflows(l0, config, attempts)), config.maxAmount, now, outflow))
  {
    hide Charge, RunLedger, Outflows, Live, Within;
    if attempts != [] {
      assert attempts[|attempts| - 1] in attempts;
    }
    HistoryIsComplete(l0, config, attempts, now - ONE_DAY_MS);
    OutflowsArePast(l0, config, attempts, now);
    LiveIsWithin(Records(Outflows(l0, config, attempts)), now - ONE_DAY_MS, now);
    if outflow > 0 {
      RollingStepExactly(RunLedger(l0, config, attempts), config, Records(Outflows(l0, config, attempts)), now, outflow);
    }
  }

  /** So over whole runs the ledger lets through exactly what the reference does. */
  lemma {:induction false} RollingRunExactly(l0: Ledger, config: LimitConfig, attempts: seq<Attempt>)
    requires config.useRollingWindow && l0.records == [] && Ordered(attempts)
    ensures Records(Outflows(l0, config, attempts)) == RollingOutflows(config.maxAmount, attempts)
  {
    hide Charge, RunLedger, Outflows, RollingFits;
    if attempts == [] {
      NothingWentThrough(l0, config);
    } else {
      var before, a := attempts[..|attempts| - 1], attempts[|attempts| - 1];
      OrderedPrefix(attempts, a.now);
      RollingRunExactly(l0, config, before);
      RollingChargeExactly(l0, config, before, a.now, a.outflow);
      StepRecords(l0, config, attempts);
      assert Records(Outflows(l0, config, before)) + [] == Records(Outflows(l0, config, before));
    }
  }

  lemma NothingWentThrough(l0: Ledger, config: LimitConfig)
    ensures Outflows(l0, config, []) == []
  {
  }

  // ---------------------------------------------------------------------------
  // Fixed window
  // ---------------------------------------------------------------------------

  /**
   The start of the fixed window that `now` falls into: the last window, or the one stored when the limit
   was set, if it began less than 24 hours ago, and otherwise a new one.
   */
  function WindowAt(l0: Ledger, charges: seq<Charged>, now: int): int {
    if charges != [] then
      var last := charges[|charges| - 1].anchor;
      if now < last + 86_400_000 then last else now
    else if l0.reset.Some? && now < l0.reset.value + 86_400_000 then l0.reset.value
    else now
  }

  /** The window that `now` falls into has room for the outflow, with what it carried over. */
  predicate FixedFits(l0: Ledger, charges: seq<Charged>, maxAmount: int, now: int, outflow: int) {
    var window := WindowAt(l0, charges, now);
    Total(OfWindow(charges, window)) + Carried(l0, window) + outflow <= maxAmount
  }

  /** The outflows that a fixed limit lets through, each with the start of its window. */
  function FixedOutflows(l0: Ledger, maxAmount: int, attempts: seq<Attempt>): seq<Charged> {
    if attempts == [] then []
    else
      var past, a := FixedOutflows(l0, maxAmount, attempts[..|attempts| - 1]), attempts[|attempts| - 1];
      if a.outflow > 0 && FixedFits(l0, past, maxAmount, a.now, a.outflow)
      then past + [Charged(Record(a.now, a.outflow), WindowAt(l0, past, a.now))] else past
  }

  /** The ledger's anchor is the start of that window, and its spent amount what the window holds. */
  lemma AnchorIsWindow(l0: Ledger, l: Ledger, charges: seq<Charged>, now: int)
    requires WindowIsCurrent(l0, l, charges)
    ensures Anchor(l, now) == WindowAt(l0, charges, now)
  {
    hide OfWindow, Total;
  }

  /** From any ledger that a token without a limit can have, an attempt goes through exactly when its window has room for it. */
  lemma FixedChargeExactly(l0: Ledger, config: LimitConfig, attempts: seq<Attempt>, now: int, outflow: int)
    requires !config.useRollingWindow && config.maxAmount >= 0 && Sane(l0) && Follows(attempts, l0) && OrZero(l0.reset) <= now
    requires Ordered(attempts) && forall a | a in attempts :: a.now <= now
    ensures Anchor(RunLedger(l0, config, attempts), now) == WindowAt(l0, Outflows(l0, config, attempts), now)
    ensures outflow > 0 ==>
              (Charge(RunLedger(l0, config, attempts), config, now, outflow).Some?
               <==> FixedFits(l0, Outflows(l0, config, attempts), config.maxAmount, now, outflow))
  {
    hide RunLedger, Outflows, OfWindow, Total, WellAnchored, WindowIsCurrent, Sane, Anchor, FixedSpent;
    var (l, charges) := (RunLedger(l0, config, attempts), Outflows(l0, config, attempts));
    FixedWindowsAreBounded(l0, config, attempts);
    if attempts != [] {
      assert attempts[|attempts| - 1] in attempts;
    } else {
      NothingWentThrough(l0, config);
    }
    AnchorIsWindow(l0, l, charges, now);
    SpentInWindow(l0, l, charges, now);
  }

  /** So over whole runs the ledger lets through exactly what the reference does, in the same windows. */
  lemma {:induction false} FixedRunExactly(l0: Ledger, config: LimitConfig, attempts: seq<Attempt>)
    requires !config.useRollingWindow && config.maxAmount >= 0 && Sane(l0) && Follows(attempts, l0) && Ordered(attempts)
    ensures Outflows(l0, config, attempts) == FixedOutflows(l0, config.maxAmount, attempts)
  {
    hide Charge, RunLedger, Outflows, FixedFits, Anchor, Sane;
    if attempts == [] {
      NothingWentThrough(l0, config);
    } else {
      var before, a := attempts[..|attempts| - 1], attempts[|attempts| - 1];
      OrderedPrefix(attempts, a.now);
      assert a in attempts && forall b | b in before :: b in attempts;
      FixedRunExactly(l0, config, before);
      FixedChargeExactly(l0, config, before, a.now, a.outflow);
      OutflowsStep(l0, config, attempts);
    }
  }

  // ---------------------------------------------------------------------------
  // Either window
  // ---------------------------------------------------------------------------

  /** The limit has room for the outflow after these attempts. */
  predicate Fits(l0: Ledger, config: LimitConfig, attempts: seq<Attempt>, now: int, outflow: int) {
    outflow > 0 ==>
      if config.useRollingWindow then RollingFits(RollingOutflows(config.maxAmount, attempts), config.maxAmount, now, outflow)
      else FixedFits(l0, FixedOutflows(l0, config.maxAmount, attempts), config.maxAmount, now, outflow)
  }

  /** A token's accounting since its limit was set: these attempts in time order, none after `now`. */
  ghost predicate Since(l: Ledger, l0: Ledger, config: LimitConfig, attempts: seq<Attempt>, now: int) {
    && config.maxAmount >= 0 && Unused(l0) && OrZero(l0.reset) <= now && l == RunLedger(l0, config, attempts)
    && Ordered(attempts) && Follows(attempts, l0) && forall a | a in attempts :: a.now <= now
  }

  /** A charge is accepted exactly when the limit has room for it. */
  lemma ChargeExactly(l: Ledger, l0: Ledger, config: LimitConfig, attempts: seq<Attempt>, now: int, outflow: int)
    requires Since(l, l0, config, attempts, now)
    ensures Charge(l, config, now, outflow).Some? <==> Fits(l0, config, attempts, now, outflow)
  {
    hide RunLedger, RollingFits, FixedFits, Sane, Charge;
    NothingToCharge(l, config, now, outflow);
    if outflow > 0 {
      if config.useRollingWindow {
        RollingRunExactly(l0, config, attempts);
        RollingChargeExactly(l0, config, attempts, now, outflow);
      } else {
        FixedRunExactly(l0, config, attempts);
        FixedChargeExactly(l0, config, attempts, now, outflow);
      }
    }
  }
}
