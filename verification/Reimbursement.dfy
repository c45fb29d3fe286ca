/**
 The reimbursement budget: what the sponsored calls of one transaction settle, over any sequence or
 nesting of them, never exceeds the fee the transaction pays.
 */
module Reimbursement {
  import opened Records
  import opened Machine
  import opened Journal
  import opened Guarantee
  import opened Runs
  import opened Effects

  /** The sum of what the log settles for a transaction. */
  function SettledFor(log: seq<Event>, tx: nat): int {
    if log == [] then 0
    else
      var e := log[|log| - 1];
      SettledFor(log[..|log| - 1], tx) + (if e.Reserved? && e.tx == tx then e.settled else 0)
  }

  /** The largest signed 256-bit integer, 2^255 - 1. */
  const LARGEST: int := 0x7FFF_FFFF_FFFF_FFFF_FFFF_FFFF_FFFF_FFFF_FFFF_FFFF_FFFF_FFFF_FFFF_FFFF_FFFF_FFFF

  /** What a sponsored call is to settle: the request, or as much of it as the transaction's fee leaves. */
  function Settleable(w: World, requested: nat): int {
    if w.header.cost == 0 then requested else Min(requested, w.header.cost - ReservedBy(w.book, w.header.tx))
  }

  /** A reservation succeeds exactly when something is left to settle, and settles as much of the request as is left. */
  lemma ReservationDecision(w: World, requested: nat)
    ensures var (o, sofar) := (Reserve(w, requested), ReservedBy(w.book, w.header.tx));
            var settled := Settleable(w, requested);
            && (o.exit.Done? <==> settled > 0 && sofar + settled <= LARGEST)
            && (o.exit.Done? ==> ReservedBy(o.world.book, w.header.tx) == sofar + settled)
  {
    if w.header.cost > 0 {
      assert 1 - Min(w.header.cost, 1) == 0;
    }
  }

  /**
   A sponsored call returns exactly when it is well-formed, the fee leaves something to settle that fits
   the VM's integers, the paymaster is bound to this core, the execution returns from the world with
   the reservation, and the paymaster's settlement returns after it.
   */
  lemma SponsorshipReturnsExactly(env: Env, who: Caller, w: World, call: Call)
    requires call.Sponsor?
    ensures DoSponsor(env, who, w, call).exit.Done? <==>
              && call.a != 0 && call.paymaster != 0 && call.sponsor != 0 && call.amount > 0
              && (if call.batch then 1 <= |call.plans| <= 32 else |call.plans| == 1)
              && (forall p | p in call.plans ::
                    ValidOperation(p.op) && p.op.target == call.plans[0].op.target && p.op.name == call.plans[0].op.name)
              && call.core == Answer(env.self)
              && 0 < Settleable(w, call.amount) <= LARGEST - ReservedBy(w.book, w.header.tx)
              && var o := Sponsored(env, who, Reserve(w, call.amount).world, call);
              && o.exit.Done? && External(env, o.world, call.settlement).exit.Done?
  {
    hide Apply, Emit, Reserve, ExecuteUserOps, ExecuteUserOp, External;
    if ValidSponsorship(call) {
      ReservationDecision(w, call.amount);
    }
  }

  predicate ReservedUnder(e: Event, tx: nat, cost: nat) {
    && e.Reserved? && e.tx == tx && e.cost == cost
    && 0 < e.settled <= e.requested
    && (cost == 0 ==> e.settled == e.requested)
  }

  ghost predicate ForeignFrom(log: seq<Event>, n: nat, tx: nat) {
    forall i | n <= i < |log| && log[i].Reserved? :: log[i].tx != tx
  }

  ghost predicate Foreign(log: seq<Event>, tx: nat) {
    ForeignFrom(log, 0, tx)
  }

  /** From position `n` on, every reservation is the transaction's; before it none is. */
  ghost predicate OwnSegment(log: seq<Event>, n: nat, header: Header) {
    && n <= |log|
    && Foreign(log[..n], header.tx)
    && forall i | n <= i < |log| && log[i].Reserved? :: log[i].tx == header.tx && log[i].cost == header.cost
  }

  lemma {:induction false} ForeignSettlesNothing(log: seq<Event>, tx: nat)
    requires Foreign(log, tx)
    ensures SettledFor(log, tx) == 0 && ReservedBy(Replay(log), tx) == 0
  {
    if log != [] {
      var past := log[..|log| - 1];
      assert forall i | 0 <= i < |past| :: past[i] == log[i];
      ForeignSettlesNothing(past, tx);
      BudgetStep(Replay(past), log[|past|]);
    }
  }

  lemma BudgetStep(b: Book, e: Event)
    ensures Apply(b, e).budget == BudgetAfter(b, e)
  {
  }

  predicate WithinFee(settled: int, header: Header) {
    0 <= settled <= LARGEST && (header.cost > 0 ==> settled <= header.cost)
  }

  lemma SegmentPrefix(log: seq<Event>, n: nat, header: Header)
    requires OwnSegment(log, n, header) && n < |log|
    ensures var past := log[..|log| - 1];
            OwnSegment(past, n, header) && forall i | 0 <= i < |past| :: past[i] == log[i]
    ensures var e := log[|log| - 1];
            e.Reserved? ==> e.tx == header.tx && e.cost == header.cost
  {
    assert log[..|log| - 1][..n] == log[..n];
  }

  lemma EmptySegment(log: seq<Event>, header: Header)
    requires OwnSegment(log, |log|, header)
    ensures ReservedBy(Replay(log), header.tx) == SettledFor(log, header.tx) && WithinFee(SettledFor(log, header.tx), header)
  {
    assert log[..|log|] == log;
    ForeignSettlesNothing(log, header.tx);
  }

  /** While one transaction runs, the reservation is the sum it has settled, and it stays within the fee. */
  lemma {:induction false} SegmentStaysWithinFee(log: seq<Event>, n: nat, header: Header)
    requires LegalLog(log) && n <= |log| && OwnSegment(log, n, header)
    ensures ReservedBy(Replay(log), header.tx) == SettledFor(log, header.tx)
    ensures WithinFee(SettledFor(log, header.tx), header)
    ensures forall i | n <= i < |log| && log[i].Reserved? :: ReservedUnder(log[i], header.tx, header.cost)
    decreases |log|
  {
    hide Legal, Apply, LegalLog, Replay, OwnSegment, ReservedBy, ReservedUnder, WithinFee;
    if n == |log| {
      EmptySegment(log, header);
    } else {
      var past, e := log[..|log| - 1], log[|log| - 1];
      assert past == log[..|past|] && log[..|past| + 1] == log;
      SegmentPrefix(log, n, header);
      StepAt(log, |past|);
      SegmentStaysWithinFee(past, n, header);
      ReservationStep(Replay(past), past, e, header, SettledFor(past, header.tx));
    }
  }

  lemma ReservationStep(b: Book, past: seq<Event>, e: Event, header: Header, settled: int)
    requires Legal(b, past, e) && ReservedBy(b, header.tx) == settled && WithinFee(settled, header)
    requires e.Reserved? ==> e.tx == header.tx && e.cost == header.cost
    ensures var next := settled + (if e.Reserved? then e.settled else 0);
            ReservedBy(Apply(b, e), header.tx) == next && WithinFee(next, header)
    ensures e.Reserved? ==> ReservedUnder(e, header.tx, header.cost)
  {
    BudgetStep(b, e);
    hide Apply;
  }

  // ---------------------------------------------------------------------------
  // Over a history
  // ---------------------------------------------------------------------------

  ghost predicate DistinctIds(txs: seq<Transaction>) {
    forall i, j | 0 <= i < j < |txs| :: txs[i].header.tx != txs[j].header.tx
  }

  /** Transaction `k` reserves under its own identity and fee only. */
  lemma ReservesAsItself(txs: seq<Transaction>, k: nat)
    requires k < |txs|
    ensures var (x, y, header) := (History(txs[..k]).log, History(txs[..k + 1]).log, txs[k].header);
            && Extends(x, y) && (forall i | 0 <= i < |x| :: y[i] == x[i])
            && forall i | |x| <= i < |y| && y[i].Reserved? :: y[i].tx == header.tx && y[i].cost == header.cost
  {
    hide History, Inv, ViewsFit, StampFits;
    HistoryStep(txs, k);
    var (w, y) := (Started(txs, k), History(txs[..k + 1]));
    forall i | |w.log| <= i < |y.log| && y.log[i].Reserved? ensures y.log[i].tx == txs[k].header.tx && y.log[i].cost == txs[k].header.cost {
      StampedReservation(w, y.log[i], i, y.views);
    }
  }

  lemma StampedReservation(w: World, e: Event, i: nat, views: seq<View>)
    requires StampFits(w, e, i, views) && e.Reserved?
    ensures e.tx == w.header.tx && e.cost == w.header.cost
  {
  }

  /** A history without transaction `tx` has no reservation of it. */
  lemma {:induction false} OthersAreForeign(txs: seq<Transaction>, tx: nat)
    requires forall i | 0 <= i < |txs| :: txs[i].header.tx != tx
    ensures Foreign(History(txs).log, tx)
  {
    if txs != [] {
      var before := txs[..|txs| - 1];
      OthersAreForeign(before, tx);
      ReservesAsItself(txs, |txs| - 1);
      assert txs[..|txs|] == txs;
      hide History;
    }
  }

  /** Later events of other transactions settle nothing for `tx`. */
  lemma {:induction false} SettledIsFinal(log: seq<Event>, n: nat, tx: nat)
    requires n <= |log| && ForeignFrom(log, n, tx)
    ensures SettledFor(log, tx) == SettledFor(log[..n], tx)
    decreases |log|
  {
    if n == |log| {
      assert log[..n] == log;
    } else {
      assert log[..|log| - 1][..n] == log[..n];
      SettledIsFinal(log[..|log| - 1], n, tx);
    }
  }

  /** After transaction `k` no later transaction reserves under its identity. */
  lemma {:induction false} LaterAreForeign(txs: seq<Transaction>, k: nat)
    requires DistinctIds(txs) && k < |txs|
    ensures var n := |History(txs[..k + 1]).log|;
            n <= |History(txs).log| && History(txs).log[..n] == History(txs[..k + 1]).log
    ensures var (n, log) := (|History(txs[..k + 1]).log|, History(txs).log);
            ForeignFrom(log, n, txs[k].header.tx)
    decreases |txs|
  {
    hide History;
    HistoriesExtend(txs, k + 1);
    if |txs| > k + 1 {
      var before := txs[..|txs| - 1];
      assert before[..k + 1] == txs[..k + 1] && txs[..|txs|] == txs;
      LaterAreForeign(before, k);
      ReservesAsItself(txs, |txs| - 1);
      assert txs[|txs| - 1].header.tx != before[k].header.tx;
    } else {
      assert txs[..k + 1] == txs;
    }
  }

  /** The settlements of one transaction, whose own reservations are those of `y` after `x`, in a longer log. */
  lemma SettledInSegment(x: seq<Event>, y: seq<Event>, log: seq<Event>, header: Header)
    requires LegalLog(y) && Foreign(x, header.tx) && Extends(x, y) && |y| <= |log| && log[..|y|] == y && ForeignFrom(log, |y|, header.tx)
    requires forall i | |x| <= i < |y| && y[i].Reserved? :: y[i].tx == header.tx && y[i].cost == header.cost
    ensures WithinFee(SettledFor(log, header.tx), header) && ReservedBy(Replay(y), header.tx) == SettledFor(log, header.tx)
    ensures forall i | 0 <= i < |log| && log[i].Reserved? && log[i].tx == header.tx :: ReservedUnder(log[i], header.tx, header.cost)
  {
    hide LegalLog, Replay, SettledFor, WithinFee, ReservedUnder, ReservedBy;
    SegmentStaysWithinFee(y, |x|, header);
    SettledIsFinal(log, |y|, header.tx);
    forall i | 0 <= i < |log| && log[i].Reserved? && log[i].tx == header.tx ensures ReservedUnder(log[i], header.tx, header.cost) {
      assert i < |y| && log[i] == log[..|y|][i];
    }
  }

  /**
   Conservation.  In every history of distinct transactions, over all accounts, paymasters, batches
   and nestings: what transaction `k` settles sums to at most the fee it pays (and to at most
   2^255 - 1 in a zero-fee container), each settlement is positive and at most its request, and the
   reservation it leaves equals the sum.
   */
  lemma ReimbursementIsConserved(txs: seq<Transaction>, k: nat)
    requires DistinctIds(txs) && k < |txs|
    ensures var (log, header) := (History(txs).log, txs[k].header);
            && WithinFee(SettledFor(log, header.tx), header)
            && ReservedBy(History(txs[..k + 1]).book, header.tx) == SettledFor(log, header.tx)
            && forall i | 0 <= i < |log| && log[i].Reserved? && log[i].tx == header.tx :: ReservedUnder(log[i], header.tx, header.cost)
  {
    hide History, Inv, LegalLog, Replay, Foreign, ForeignFrom, SettledFor, WithinFee, ReservedUnder, ReservedBy;
    var before, upto, header := txs[..k], txs[..k + 1], txs[k].header;
    OthersAreForeign(before, header.tx);
    HistoriesAreLegal(upto);
    ReservesAsItself(txs, k);
    LaterAreForeign(txs, k);
    SettledInSegment(History(before).log, History(upto).log, History(txs).log, header);
  }
}
