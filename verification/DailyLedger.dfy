/**
 The daily-limit accounting of one token, as values: the record history, the fixed window, and
 what charging an outflow does to them.  The bounds that the limit promises over whole runs are
 proved here; the hook's storage and loops are in module DailyLimit.
 */
module DailyLedger {
  import opened Values

  const ONE_DAY_MS: int := 24 * 60 * 60 * 1000
  const MAX_HISTORY_SIZE: int := 50

  datatype LimitConfig = LimitConfig(maxAmount: int, useRollingWindow: bool)

  datatype Record = Record(timestamp: int, amount: int)

  /** `records` is in recording order; `spent` and `reset` belong to the fixed window. */
  datatype Ledger = Ledger(records: seq<Record>, spent: Option<int>, reset: Option<int>)

  function OrZero(v: Option<int>): int {
    if v.Some? then v.value else 0
  }

  /** The records that are not older than `cutoff`. */
  function Live(records: seq<Record>, cutoff: int): (r: seq<Record>)
    ensures |r| <= |records|
  {
    if records == [] then []
    else
      var rest := Live(records[..|records| - 1], cutoff);
      var last := records[|records| - 1];
      if last.timestamp >= cutoff then rest + [last] else rest
  }

  function Total(records: seq<Record>): int {
    if records == [] then 0 else Total(records[..|records| - 1]) + records[|records| - 1].amount
  }

  function FixedSpent(l: Ledger, now: int): int {
    if now >= OrZero(l.reset) + ONE_DAY_MS then 0 else OrZero(l.spent)
  }

  function Spent(l: Ledger, config: LimitConfig, now: int): int {
    if config.useRollingWindow then Total(Live(l.records, now - ONE_DAY_MS)) else FixedSpent(l, now)
  }

  /** The ledger after charging `outflow`, or None when the limit rejects it. */
  function Charge(l: Ledger, config: LimitConfig, now: int, outflow: int): Option<Ledger> {
    if outflow <= 0 then Some(l)
    else if Spent(l, config, now) + outflow > config.maxAmount then None
    else if config.useRollingWindow then
      var live := Live(l.records, now - ONE_DAY_MS);
      if |live| >= MAX_HISTORY_SIZE then None
      else Some(l.(records := live + [Record(now, outflow)]))
    else
      Some(l.(spent := Some(FixedSpent(l, now) + outflow), reset := Some(Anchor(l, now))))
  }

  /** The start of the fixed window that a charge at `now` falls into. */
  function Anchor(l: Ledger, now: int): int {
    if l.reset.None? || now >= l.reset.value + ONE_DAY_MS then now else l.reset.value
  }

  // ---------------------------------------------------------------------------
  // Runs: attempts in time order; a rejected attempt is rolled back
  // ---------------------------------------------------------------------------

  datatype Attempt = Attempt(now: int, outflow: int)

  /** A charge that went through, with the anchor of its fixed window. */
  datatype Charged = Charged(record: Record, anchor: int)

  predicate Ordered(attempts: seq<Attempt>) {
    forall i, j | 0 <= i < j < |attempts| :: attempts[i].now <= attempts[j].now
  }

  const EMPTY_LEDGER: Ledger := Ledger([], None, None)

  /** Records are positive, and the fixed window is stored with its anchor and never negative. */
  predicate Sane(l: Ledger) {
    AllPositive(l.records) && OrZero(l.spent) >= 0 && (l.reset.None? ==> l.spent.None?)
  }

  /** The ledger of a token without a limit: no record, but perhaps an earlier fixed window. */
  predicate Unused(l: Ledger) {
    Sane(l) && l.records == []
  }

  /** The stored window did not start in the future. */
  predicate Follows(attempts: seq<Attempt>, l: Ledger) {
    forall a | a in attempts :: OrZero(l.reset) <= a.now
  }

  /** The ledger after the attempts on a token whose ledger was `l0` when its limit was set. */
  function RunLedger(l0: Ledger, config: LimitConfig, attempts: seq<Attempt>): Ledger {
    if attempts == [] then l0
    else
      var l, a := RunLedger(l0, config, attempts[..|attempts| - 1]), attempts[|attempts| - 1];
      match Charge(l, config, a.now, a.outflow)
      case Some(next) => next
      case None => l
  }

  predicate GoesThrough(l: Ledger, config: LimitConfig, a: Attempt) {
    a.outflow > 0 && Charge(l, config, a.now, a.outflow).Some?
  }

  /** All charges that went through, oldest first. */
  function Outflows(l0: Ledger, config: LimitConfig, attempts: seq<Attempt>): seq<Charged> {
    if attempts == [] then []
    else
      var before := attempts[..|attempts| - 1];
      var l, a := RunLedger(l0, config, before), attempts[|attempts| - 1];
      Outflows(l0, config, before) +
        (if GoesThrough(l, config, a) then [Charged(Record(a.now, a.outflow), Anchor(l, a.now))] else [])
  }

  /** No attempt was rejected. */
  predicate Accepted(l0: Ledger, config: LimitConfig, attempts: seq<Attempt>) {
    attempts != [] ==>
      var before, a := attempts[..|attempts| - 1], attempts[|attempts| - 1];
      Accepted(l0, config, before) && Charge(RunLedger(l0, config, before), config, a.now, a.outflow).Some?
  }

  /** The outflows themselves, as records. */
  function Spending(attempts: seq<Attempt>): seq<Record> {
    if attempts == [] then []
    else
      var a := attempts[|attempts| - 1];
      Spending(attempts[..|attempts| - 1]) + (if a.outflow > 0 then [Record(a.now, a.outflow)] else [])
  }

  function Records(charges: seq<Charged>): (r: seq<Record>)
    ensures |r| == |charges|
    ensures forall i | 0 <= i < |r| :: r[i] == charges[i].record
  {
    if charges == [] then [] else Records(charges[..|charges| - 1]) + [charges[|charges| - 1].record]
  }

  /** The records in the closed interval from `lo` to `hi`. */
  function Within(records: seq<Record>, lo: int, hi: int): (r: seq<Record>) {
    if records == [] then []
    else
      var rest := Within(records[..|records| - 1], lo, hi);
      var last := records[|records| - 1];
      if lo <= last.timestamp <= hi then rest + [last] else rest
  }

  predicate AllPositive(records: seq<Record>) {
    forall r | r in records :: r.amount > 0
  }

  lemma {:induction false} LiveOfLive(records: seq<Record>, c: int, d: int)
    requires c <= d
    ensures Live(Live(records, c), d) == Live(records, d)
  {
    if records != [] {
      LiveOfLive(records[..|records| - 1], c, d);
      var last := records[|records| - 1];
      if last.timestamp >= c {
        LiveAppend(Live(records[..|records| - 1], c), last, d);
      }
    }
  }

  lemma LiveAppend(records: seq<Record>, r: Record, c: int)
    ensures Live(records + [r], c) == Live(records, c) + (if r.timestamp >= c then [r] else [])
    ensures Total(records + [r]) == Total(records) + r.amount
  {
    assert (records + [r])[..|records|] == records;
    assert Live(records, c) + [] == Live(records, c);
  }

  lemma WithinAppend(records: seq<Record>, r: Record, lo: int, hi: int)
    ensures Within(records + [r], lo, hi) == Within(records, lo, hi) + (if lo <= r.timestamp <= hi then [r] else [])
  {
    assert (records + [r])[..|records|] == records;
    assert Within(records, lo, hi) + [] == Within(records, lo, hi);
  }

  lemma {:induction false} WithinIsLive(records: seq<Record>, lo: int, hi: int, cutoff: int)
    requires AllPositive(records) && cutoff <= lo
    ensures Total(Within(records, lo, hi)) <= Total(Live(records, cutoff))
    ensures |Within(records, lo, hi)| <= |Live(records, cutoff)|
  {
    if records != [] {
      var init, last := records[..|records| - 1], records[|records| - 1];
      assert records == init + [last];
      WithinIsLive(init, lo, hi, cutoff);
      WithinAppend(init, last, lo, hi);
      LiveAppend(init, last, cutoff);
      LiveAppend(Live(init, cutoff), last, cutoff);
      LiveAppend(Within(init, lo, hi), last, cutoff);
    }
  }

  lemma {:induction false} OutflowsArePositive(l0: Ledger, config: LimitConfig, attempts: seq<Attempt>)
    ensures AllPositive(Records(Outflows(l0, config, attempts)))
  {
    if attempts != [] {
      OutflowsArePositive(l0, config, attempts[..|attempts| - 1]);
      StepRecords(l0, config, attempts);
    }
  }

  /** What the last attempt adds to the outflow records. */
  lemma StepRecords(l0: Ledger, config: LimitConfig, attempts: seq<Attempt>)
    requires attempts != []
    ensures var before := attempts[..|attempts| - 1];
            var l, a := RunLedger(l0, config, before), attempts[|attempts| - 1];
            Records(Outflows(l0, config, attempts)) ==
              Records(Outflows(l0, config, before)) + (if GoesThrough(l, config, a) then [Record(a.now, a.outflow)] else [])
  {
    var before := Outflows(l0, config, attempts[..|attempts| - 1]);
    var all := Outflows(l0, config, attempts);
    if all == before + [] {
      assert all == before;
    } else {
      assert all[..|all| - 1] == before;
    }
  }

  // ---------------------------------------------------------------------------
  // Rolling window
  // ---------------------------------------------------------------------------

  /** What one attempt does to the record list. */
  lemma RollingRecords(l0: Ledger, config: LimitConfig, attempts: seq<Attempt>)
    requires config.useRollingWindow && attempts != []
    ensures var l, a := RunLedger(l0, config, attempts[..|attempts| - 1]), attempts[|attempts| - 1];
            RunLedger(l0, config, attempts).records ==
              if GoesThrough(l, config, a) then Live(l.records, a.now - ONE_DAY_MS) + [Record(a.now, a.outflow)] else l.records
  {
  }

  lemma NoAttempts(l0: Ledger, config: LimitConfig, cutoff: int)
    requires l0.records == []
    ensures Live(RunLedger(l0, config, []).records, cutoff) == Live(Records(Outflows(l0, config, [])), cutoff)
  {
  }

  /** Pruning never removes a record that a later charge still has to count. */
  lemma {:induction false} HistoryIsComplete(l0: Ledger, config: LimitConfig, attempts: seq<Attempt>, cutoff: int)
    requires config.useRollingWindow && Ordered(attempts) && l0.records == []
    requires attempts != [] ==> cutoff >= attempts[|attempts| - 1].now - ONE_DAY_MS
    ensures Live(RunLedger(l0, config, attempts).records, cutoff) == Live(Records(Outflows(l0, config, attempts)), cutoff)
  {
    hide Charge, RunLedger, Outflows, Live, GoesThrough;
    if attempts != [] {
      var before, a := attempts[..|attempts| - 1], attempts[|attempts| - 1];
      var l, past := RunLedger(l0, config, before), Records(Outflows(l0, config, before));
      HistoryIsComplete(l0, config, before, cutoff);
      StepRecords(l0, config, attempts);
      RollingRecords(l0, config, attempts);
      if GoesThrough(l, config, a) {
        var r, window := Record(a.now, a.outflow), Live(l.records, a.now - ONE_DAY_MS);
        LiveOfLive(l.records, a.now - ONE_DAY_MS, cutoff);
        LiveAppend(window, r, cutoff);
        LiveAppend(past, r, cutoff);
      } else {
        assert past + [] == past;
      }
    } else {
      NoAttempts(l0, config, cutoff);
    }
  }

  /**
   The rolling limit: in every closed 24-hour interval the charges that went through sum to at
   most the limit, and there are at most 50 of them.
   */
  lemma {:induction false} RollingWindowBound(l0: Ledger, config: LimitConfig, attempts: seq<Attempt>, start: int)
    requires config.useRollingWindow && config.maxAmount >= 0 && Ordered(attempts) && l0.records == []
    ensures var window := Within(Records(Outflows(l0, config, attempts)), start, start + ONE_DAY_MS);
            Total(window) <= config.maxAmount && |window| <= MAX_HISTORY_SIZE
  {
    if attempts != [] {
      var before, a := attempts[..|attempts| - 1], attempts[|attempts| - 1];
      var l, past := RunLedger(l0, config, before), Records(Outflows(l0, config, before));
      RollingWindowBound(l0, config, before, start);
      StepRecords(l0, config, attempts);
      if GoesThrough(l, config, a) {
        HistoryIsComplete(l0, config, before, a.now - ONE_DAY_MS);
        OutflowsArePositive(l0, config, before);
        RollingStep(l, config, past, a, start);
      } else {
        assert past + [] == past;
      }
    }
  }

  lemma RollingStep(l: Ledger, config: LimitConfig, past: seq<Record>, a: Attempt, start: int)
    requires config.useRollingWindow && AllPositive(past) && GoesThrough(l, config, a)
    requires Live(l.records, a.now - ONE_DAY_MS) == Live(past, a.now - ONE_DAY_MS)
    requires var window := Within(past, start, start + ONE_DAY_MS);
             Total(window) <= config.maxAmount && |window| <= MAX_HISTORY_SIZE
    ensures var window := Within(past + [Record(a.now, a.outflow)], start, start + ONE_DAY_MS);
            Total(window) <= config.maxAmount && |window| <= MAX_HISTORY_SIZE
  {
    hide Within, Live, Total, AllPositive;
    var r, window := Record(a.now, a.outflow), Within(past, start, start + ONE_DAY_MS);
    WithinAppend(past, r, start, start + ONE_DAY_MS);
    if start <= a.now <= start + ONE_DAY_MS {
      WithinIsLive(past, start, start + ONE_DAY_MS, a.now - ONE_DAY_MS);
      TotalAppend(window, r);
    } else {
      assert window + [] == window;
    }
  }

  // ---------------------------------------------------------------------------
  // Fixed window
  // ---------------------------------------------------------------------------

  /** The charges of the window anchored at `anchor`. */
  function OfWindow(charges: seq<Charged>, anchor: int): seq<Record> {
    if charges == [] then []
    else
      var rest := OfWindow(charges[..|charges| - 1], anchor);
      var last := charges[|charges| - 1];
      if last.anchor == anchor then rest + [last.record] else rest
  }

  lemma OfWindowAppend(charges: seq<Charged>, c: Charged, anchor: int)
    ensures OfWindow(charges + [c], anchor) == OfWindow(charges, anchor) + (if c.anchor == anchor then [c.record] else [])
  {
    assert (charges + [c])[..|charges|] == charges;
    assert OfWindow(charges, anchor) + [] == OfWindow(charges, anchor);
  }

  /** Charges lie within their windows; windows are ordered and start a day or more apart. */
  predicate WellAnchored(charges: seq<Charged>) {
    && (forall c | c in charges :: c.anchor <= c.record.timestamp < c.anchor + ONE_DAY_MS)
    && (forall i, j | 0 <= i < j < |charges| ::
          && charges[i].record.timestamp <= charges[j].record.timestamp
          && (charges[i].anchor == charges[j].anchor || charges[i].anchor + ONE_DAY_MS <= charges[j].anchor))
  }

  /** What the window stored when the limit was set counts towards the window anchored at `anchor`. */
  function Carried(l0: Ledger, anchor: int): int {
    if l0.reset == Some(anchor) then OrZero(l0.spent) else 0
  }

  /** What the stored window says about the charges made so far. */
  ghost predicate WindowIsCurrent(l0: Ledger, l: Ledger, charges: seq<Charged>) {
    && (forall c | c in charges :: l0.reset.Some? ==> l0.reset.value <= c.anchor)
    && if charges == [] then l == l0
       else
         var anchor := charges[|charges| - 1].anchor;
         l.reset == Some(anchor) && l.spent == Some(Total(OfWindow(charges, anchor)) + Carried(l0, anchor))
  }

  lemma {:induction false} OfWindowAbsent(charges: seq<Charged>, anchor: int)
    requires forall c | c in charges :: c.anchor != anchor
    ensures OfWindow(charges, anchor) == []
  {
    if charges != [] {
      OfWindowAbsent(charges[..|charges| - 1], anchor);
    }
  }

  /** What has been spent in the window that a charge at `now` falls into. */
  lemma SpentInWindow(l0: Ledger, l: Ledger, charges: seq<Charged>, now: int)
    requires Sane(l0) && WellAnchored(charges) && WindowIsCurrent(l0, l, charges)
    requires OrZero(l0.reset) <= now && forall c | c in charges :: c.record.timestamp <= now
    ensures FixedSpent(l, now) == Total(OfWindow(charges, Anchor(l, now))) + Carried(l0, Anchor(l, now))
  {
    AnchorsStep(charges, now);
    if l.reset.None? || now >= l.reset.value + ONE_DAY_MS {
      assert charges != [] ==> charges[|charges| - 1] in charges;
      OfWindowAbsent(charges, now);
    }
  }

  lemma LastAnchor(charges: seq<Charged>)
    requires WellAnchored(charges) && charges != []
    ensures forall c | c in charges ::
              var last := charges[|charges| - 1].anchor;
              c.anchor <= last && (c.anchor == last || c.anchor + ONE_DAY_MS <= last)
  {
    var last := charges[|charges| - 1].anchor;
    forall i | 0 <= i < |charges| ensures charges[i].anchor == last || charges[i].anchor + ONE_DAY_MS <= last {
    }
  }

  /** A window that starts a day after the last one is a new one. */
  lemma AnchorsStep(charges: seq<Charged>, now: int)
    requires WellAnchored(charges) && forall c | c in charges :: c.record.timestamp <= now
    ensures charges != [] && now >= charges[|charges| - 1].anchor + ONE_DAY_MS ==>
              forall c | c in charges :: c.anchor + ONE_DAY_MS <= now
  {
    if charges != [] {
      LastAnchor(charges);
    }
  }

  lemma AnchoredAppend(charges: seq<Charged>, c: Charged)
    requires WellAnchored(charges) && c.anchor <= c.record.timestamp < c.anchor + ONE_DAY_MS
    requires forall b | b in charges ::
               b.record.timestamp <= c.record.timestamp && (b.anchor == c.anchor || b.anchor + ONE_DAY_MS <= c.anchor)
    ensures WellAnchored(charges + [c])
  {
    var all := charges + [c];
    forall i | 0 <= i < |charges|
      ensures all[i] in charges
    {
    }
  }

  /** One accepted charge keeps the window structure. */
  lemma FixedStep(l0: Ledger, l: Ledger, config: LimitConfig, charges: seq<Charged>, a: Attempt)
    requires !config.useRollingWindow && Sane(l0) && WellAnchored(charges) && WindowIsCurrent(l0, l, charges)
    requires OrZero(l0.reset) <= a.now && (forall c | c in charges :: c.record.timestamp <= a.now) && GoesThrough(l, config, a)
    ensures var all := charges + [Charged(Record(a.now, a.outflow), Anchor(l, a.now))];
            WellAnchored(all) && WindowIsCurrent(l0, Charge(l, config, a.now, a.outflow).value, all)
    ensures Total(OfWindow(charges, Anchor(l, a.now))) + a.outflow <= config.maxAmount
  {
    hide OfWindow, Total;
    var here := Anchor(l, a.now);
    var c := Charged(Record(a.now, a.outflow), here);
    SpentInWindow(l0, l, charges, a.now);
    AnchorsStep(charges, a.now);
    if charges != [] {
      LastAnchor(charges);
      assert charges[|charges| - 1] in charges;
    }
    AnchoredAppend(charges, c);
    OfWindowAppend(charges, c, here);
    TotalAppend(OfWindow(charges, here), c.record);
  }

  /** A charge that fits its window leaves every window within the limit. */
  lemma WindowsStayBounded(charges: seq<Charged>, c: Charged, max: int)
    requires forall anchor :: Total(OfWindow(charges, anchor)) <= max
    requires Total(OfWindow(charges, c.anchor)) + c.record.amount <= max
    ensures forall anchor :: Total(OfWindow(charges + [c], anchor)) <= max
  {
    hide OfWindow, Total;
    forall anchor ensures Total(OfWindow(charges + [c], anchor)) <= max {
      OfWindowAppend(charges, c, anchor);
      TotalAppend(OfWindow(charges, anchor), c.record);
      assert OfWindow(charges, anchor) + [] == OfWindow(charges, anchor);
    }
  }

  lemma TotalAppend(records: seq<Record>, r: Record)
    ensures Total(records + [r]) == Total(records) + r.amount
  {
    assert (records + [r])[..|records|] == records;
  }

  /** Over whole runs: anchors are at least a day apart and no window exceeds the limit. */
  lemma {:induction false} FixedWindowsAreBounded(l0: Ledger, config: LimitConfig, attempts: seq<Attempt>)
    requires !config.useRollingWindow && config.maxAmount >= 0 && Ordered(attempts) && Sane(l0) && Follows(attempts, l0)
    ensures var charges := Outflows(l0, config, attempts);
            && WellAnchored(charges) && WindowIsCurrent(l0, RunLedger(l0, config, attempts), charges)
            && forall anchor :: Total(OfWindow(charges, anchor)) <= config.maxAmount
    ensures attempts != [] ==>
              forall c | c in Outflows(l0, config, attempts) :: c.record.timestamp <= attempts[|attempts| - 1].now
  {
    hide OfWindow, Total, WellAnchored, WindowIsCurrent, Charge, Anchor;
    if attempts != [] {
      var before, a := attempts[..|attempts| - 1], attempts[|attempts| - 1];
      assert a in attempts && forall b | b in before :: b in attempts;
      FixedWindowsAreBounded(l0, config, before);
      var l, charges := RunLedger(l0, config, before), Outflows(l0, config, before);
      OutflowsStep(l0, config, attempts);
      if GoesThrough(l, config, a) {
        FixedStep(l0, l, config, charges, a);
        WindowsStayBounded(charges, Charged(Record(a.now, a.outflow), Anchor(l, a.now)), config.maxAmount);
      }
    } else {
      NoCharges(l0, config);
    }
  }

  lemma NoCharges(l0: Ledger, config: LimitConfig)
    ensures WellAnchored([]) && WindowIsCurrent(l0, RunLedger(l0, config, []), []) && Outflows(l0, config, []) == []
    ensures forall anchor :: Total(OfWindow([], anchor)) == 0
  {
  }

  /** What the last attempt does to the ledger and to the charges. */
  lemma OutflowsStep(l0: Ledger, config: LimitConfig, attempts: seq<Attempt>)
    requires attempts != []
    ensures var before := attempts[..|attempts| - 1];
            var l, a := RunLedger(l0, config, before), attempts[|attempts| - 1];
            if GoesThrough(l, config, a) then
              && RunLedger(l0, config, attempts) == Charge(l, config, a.now, a.outflow).value
              && Outflows(l0, config, attempts) == Outflows(l0, config, before) + [Charged(Record(a.now, a.outflow), Anchor(l, a.now))]
            else RunLedger(l0, config, attempts) == l && Outflows(l0, config, attempts) == Outflows(l0, config, before)
  {
    var charges := Outflows(l0, config, attempts[..|attempts| - 1]);
    assert charges + [] == charges;
  }

  /** Between two charges of one interval there is no third window. */
  lemma OuterWindows(charges: seq<Charged>, start: int, i: nat, j: nat, k: nat)
    requires WellAnchored(charges) && i <= j <= k < |charges|
    requires Inside(charges[i], start) && Inside(charges[j], start) && Inside(charges[k], start)
    ensures charges[j].anchor == charges[i].anchor || charges[j].anchor == charges[k].anchor
  {
    assert charges[i] in charges && charges[k] in charges;
  }

  /** Two windows cover every closed 24-hour interval. */
  lemma TwoWindowsCover(charges: seq<Charged>, start: int)
    requires WellAnchored(charges) && AllPositive(Records(charges))
    ensures exists a, b :: Total(Within(Records(charges), start, start + ONE_DAY_MS))
                          <= Total(OfWindow(charges, a)) + (if a == b then 0 else Total(OfWindow(charges, b)))
  {
    hide Total, Within, OfWindow, AllPositive, WellAnchored;
    var i := 0;
    while i < |charges| && !Inside(charges[i], start)
      invariant i <= |charges| && forall j | 0 <= j < i :: !Inside(charges[j], start)
    {
      i := i + 1;
    }
    if i == |charges| {
      WithinTwo(charges, start, 0, 1);
    } else {
      var k := |charges| - 1;
      while !Inside(charges[k], start)
        decreases k
        invariant i <= k < |charges| && forall j | k < j < |charges| :: !Inside(charges[j], start)
      {
        k := k - 1;
      }
      forall j | 0 <= j < |charges| && Inside(charges[j], start)
        ensures charges[j].anchor == charges[i].anchor || charges[j].anchor == charges[k].anchor
      {
        OuterWindows(charges, start, i, j, k);
      }
      WithinTwo(charges, start, charges[i].anchor, charges[k].anchor);
    }
  }

  predicate Inside(c: Charged, start: int) {
    start <= c.record.timestamp <= start + ONE_DAY_MS
  }

  lemma {:induction false} WithinTwo(charges: seq<Charged>, start: int, a: int, b: int)
    requires AllPositive(Records(charges))
    requires forall j | 0 <= j < |charges| && Inside(charges[j], start) ::
               charges[j].anchor == a || charges[j].anchor == b
    ensures Total(Within(Records(charges), start, start + ONE_DAY_MS))
              <= Total(OfWindow(charges, a)) + (if a == b then 0 else Total(OfWindow(charges, b)))
  {
    hide Total, Within, OfWindow;
    if charges != [] {
      var init, c := charges[..|charges| - 1], charges[|charges| - 1];
      assert charges == init + [c] && Records(charges) == Records(init) + [c.record];
      assert c.record in Records(charges);
      WithinTwo(init, start, a, b);
      OneMoreWithin(init, c, start);
      OneMoreOfWindow(init, c, a);
      OneMoreOfWindow(init, c, b);
    } else {
      NothingWithin(start, a, b);
    }
  }

  lemma NothingWithin(start: int, a: int, b: int)
    ensures Total(Within(Records([]), start, start + ONE_DAY_MS)) == 0 && Total(OfWindow([], a)) == 0 && Total(OfWindow([], b)) == 0
  {
  }

  lemma OneMoreWithin(charges: seq<Charged>, c: Charged, start: int)
    ensures Total(Within(Records(charges) + [c.record], start, start + ONE_DAY_MS))
         == Total(Within(Records(charges), start, start + ONE_DAY_MS)) + (if Inside(c, start) then c.record.amount else 0)
  {
    hide Total, Within, Records;
    var window := Within(Records(charges), start, start + ONE_DAY_MS);
    WithinAppend(Records(charges), c.record, start, start + ONE_DAY_MS);
    TotalAppend(window, c.record);
    assert window + [] == window;
  }

  lemma OneMoreOfWindow(charges: seq<Charged>, c: Charged, anchor: int)
    ensures Total(OfWindow(charges + [c], anchor))
         == Total(OfWindow(charges, anchor)) + (if c.anchor == anchor then c.record.amount else 0)
  {
    hide Total, OfWindow;
    OfWindowAppend(charges, c, anchor);
    TotalAppend(OfWindow(charges, anchor), c.record);
    assert OfWindow(charges, anchor) + [] == OfWindow(charges, anchor);
  }

  /** The fixed limit: any closed 24-hour interval charges at most twice the limit. */
  lemma FixedWindowBound(l0: Ledger, config: LimitConfig, attempts: seq<Attempt>, start: int)
    requires !config.useRollingWindow && config.maxAmount >= 0 && Ordered(attempts) && Sane(l0) && Follows(attempts, l0)
    ensures Total(Within(Records(Outflows(l0, config, attempts)), start, start + ONE_DAY_MS)) <= 2 * config.maxAmount
  {
    var charges := Outflows(l0, config, attempts);
    FixedWindowsAreBounded(l0, config, attempts);
    OutflowsArePositive(l0, config, attempts);
    TwoWindowsCover(charges, start);
    var a, b :| Total(Within(Records(charges), start, start + ONE_DAY_MS))
                  <= Total(OfWindow(charges, a)) + (if a == b then 0 else Total(OfWindow(charges, b)));
  }

  // ---------------------------------------------------------------------------
  // Runs without rejected attempts
  // ---------------------------------------------------------------------------

  lemma AcceptedGrows(l0: Ledger, config: LimitConfig, attempts: seq<Attempt>, a: Attempt)
    requires Accepted(l0, config, attempts) && Charge(RunLedger(l0, config, attempts), config, a.now, a.outflow).Some?
    ensures Accepted(l0, config, attempts + [a])
    ensures RunLedger(l0, config, attempts + [a]) == Charge(RunLedger(l0, config, attempts), config, a.now, a.outflow).value
  {
    hide Charge;
    assert (attempts + [a])[..|attempts|] == attempts;
  }

  lemma {:induction false} AcceptedSpending(l0: Ledger, config: LimitConfig, attempts: seq<Attempt>)
    requires Accepted(l0, config, attempts)
    ensures Records(Outflows(l0, config, attempts)) == Spending(attempts)
  {
    hide Charge;
    if attempts != [] {
      AcceptedSpending(l0, config, attempts[..|attempts| - 1]);
      StepRecords(l0, config, attempts);
    }
  }

  /** The promise of a limit for the closed 24-hour interval from `start`. */
  predicate DayIsBounded(config: LimitConfig, spending: seq<Record>, start: int) {
    var window := Within(spending, start, start + ONE_DAY_MS);
    if config.useRollingWindow then Total(window) <= config.maxAmount && |window| <= MAX_HISTORY_SIZE
    else Total(window) <= 2 * config.maxAmount
  }

  ghost predicate SpendingIsBounded(config: LimitConfig, spending: seq<Record>) {
    forall start: int :: DayIsBounded(config, spending, start)
  }

  lemma AcceptedIsBounded(l0: Ledger, config: LimitConfig, attempts: seq<Attempt>)
    requires Accepted(l0, config, attempts) && Ordered(attempts) && Follows(attempts, l0)
    requires Unused(l0) && config.maxAmount >= 0
    ensures SpendingIsBounded(config, Spending(attempts))
  {
    hide Accepted, Ordered, Follows, Outflows, Spending, Records, Within, Total;
    AcceptedSpending(l0, config, attempts);
    forall start: int ensures DayIsBounded(config, Spending(attempts), start) {
      if config.useRollingWindow {
        RollingWindowBound(l0, config, attempts, start);
      } else {
        FixedWindowBound(l0, config, attempts, start);
      }
    }
  }

  lemma NothingToCharge(l: Ledger, config: LimitConfig, now: int, outflow: int)
    ensures outflow <= 0 ==> Charge(l, config, now, outflow) == Some(l)
  {
  }

  lemma {:induction false} LiveIsPositive(records: seq<Record>, cutoff: int)
    requires AllPositive(records)
    ensures AllPositive(Live(records, cutoff))
  {
    if records != [] {
      var init, last := records[..|records| - 1], records[|records| - 1];
      assert forall r | r in init :: r in records;
      assert last in records;
      LiveIsPositive(init, cutoff);
    }
  }

  lemma {:induction false} PositiveTotal(records: seq<Record>)
    requires AllPositive(records)
    ensures Total(records) >= 0
  {
    if records != [] {
      var init, last := records[..|records| - 1], records[|records| - 1];
      assert forall r | r in init :: r in records;
      assert last in records;
      PositiveTotal(init);
    }
  }

  lemma ChargeKeepsSane(l: Ledger, config: LimitConfig, now: int, outflow: int)
    requires Sane(l) && Charge(l, config, now, outflow).Some?
    ensures Sane(Charge(l, config, now, outflow).value)
  {
    LiveIsPositive(l.records, now - ONE_DAY_MS);
  }
}
