/**
 Batches in order.  A batch returns exactly when its operations, one after the other, each return in the
 world that the one before it left; and its own nonces are used in the order of the batch.
 */
module Batches {
  import opened Records
  import opened Machine
  import opened Journal
  import opened Guarantee
  import opened Soundness
  import opened Runs

  // ---------------------------------------------------------------------------
  // By positions
  // ---------------------------------------------------------------------------

  /** `ws[i + 1]` is what operation `i` makes of `ws[i]`. */
  predicate Chain(env: Env, who: Caller, a: Hash, plans: seq<Plan>, ws: seq<World>) {
    && |ws| == |plans| + 1
    && forall i | 0 <= i < |plans| :: ExecuteUserOp(env, who, ws[i], a, plans[i]) == Finish(ws[i + 1])
  }

  ghost predicate Chained(env: Env, who: Caller, w: World, a: Hash, plans: seq<Plan>, v: World) {
    exists ws :: Chain(env, who, a, plans, ws) && ws[0] == w && ws[|plans|] == v
  }

  lemma {:induction false} EachIsChained(env: Env, who: Caller, w: World, a: Hash, plans: seq<Plan>, v: World)
    requires ExecuteEach(env, who, w, a, plans) == Finish(v)
    ensures Chained(env, who, w, a, plans, v)
    decreases |plans|
  {
    hide ExecuteUserOp;
    if plans == [] {
      assert Chain(env, who, a, plans, [w]);
    } else {
      var u := ExecuteUserOp(env, who, w, a, plans[0]).world;
      EachIsChained(env, who, u, a, plans[1..], v);
      var rest :| Chain(env, who, a, plans[1..], rest) && rest[0] == u && rest[|plans| - 1] == v;
      var ws := [w] + rest;
      forall i | 0 <= i < |plans| ensures ExecuteUserOp(env, who, ws[i], a, plans[i]) == Finish(ws[i + 1]) {
        if i > 0 {
          assert ws[i] == rest[i - 1] && plans[i] == plans[1..][i - 1];
        }
      }
      assert Chain(env, who, a, plans, ws);
    }
  }

  lemma {:induction false} ChainIsEach(env: Env, who: Caller, a: Hash, plans: seq<Plan>, ws: seq<World>)
    requires Chain(env, who, a, plans, ws)
    ensures ExecuteEach(env, who, ws[0], a, plans) == Finish(ws[|plans|])
    decreases |plans|
  {
    hide ExecuteUserOp;
    if plans != [] {
      assert ExecuteUserOp(env, who, ws[0], a, plans[0]) == Finish(ws[1]);
      forall i | 0 <= i < |plans[1..]| ensures ExecuteUserOp(env, who, ws[1..][i], a, plans[1..][i]) == Finish(ws[1..][i + 1]) {
        assert ExecuteUserOp(env, who, ws[i + 1], a, plans[i + 1]) == Finish(ws[i + 2]);
      }
      ChainIsEach(env, who, a, plans[1..], ws[1..]);
    }
  }

  /** A batch of 1 to 32 operations returns exactly when they do, first to last, and ends where the last one does. */
  lemma BatchReturnsExactly(env: Env, who: Caller, w: World, a: Hash, plans: seq<Plan>, v: World)
    ensures ExecuteUserOps(env, who, w, a, plans) == Finish(v) <==>
              a != 0 && 1 <= |plans| <= 32 && Chained(env, who, w, a, plans, v)
  {
    hide ExecuteEach, ExecuteUserOp;
    if a != 0 && 1 <= |plans| <= 32 {
      if ExecuteEach(env, who, w, a, plans) == Finish(v) {
        EachIsChained(env, who, w, a, plans, v);
      }
      if Chained(env, who, w, a, plans, v) {
        var ws :| Chain(env, who, a, plans, ws) && ws[0] == w && ws[|plans|] == v;
        ChainIsEach(env, who, a, plans, ws);
      }
    }
  }

  // ---------------------------------------------------------------------------
  // In the log
  // ---------------------------------------------------------------------------

  /** The event that uses an operation's nonce: its upper 192 bits name the channel, its lower 64 the sequence. */
  function Use(a: Hash, nonce: nat): Event {
    NonceConsumed(a, nonce / 0x1_0000_0000_0000_0000, nonce % 0x1_0000_0000_0000_0000)
  }

  /** If a cursor has moved, the first event that moved it used the number that it showed. */
  lemma {:induction false} CursorMoved(log: seq<Event>, n: nat, a: Hash, channel: nat) returns (p: nat)
    requires LegalLog(log) && n <= |log|
    requires NextNonce(Replay(log), a, channel) > NextNonce(Replay(log[..n]), a, channel)
    ensures n <= p < |log| && log[p] == NonceConsumed(a, channel, NextNonce(Replay(log[..n]), a, channel))
    decreases |log|
  {
    hide Apply, Legal, LegalLog, Replay;
    assert log[..|log|] == log;
    if n == |log| {
      assert false;
    } else {
      var past, e := log[..|log| - 1], log[|log| - 1];
      assert past == log[..|past|] && log[..|past| + 1] == log && past[..n] == log[..n];
      StepAt(log, |past|);
      if NextNonce(Replay(past), a, channel) > NextNonce(Replay(log[..n]), a, channel) {
        p := CursorMoved(past, n, a, channel);
      } else {
        CursorsGrow(past, n, a, channel);
        CursorStep(Replay(past), past, e, a, channel);
        p := |past|;
      }
    }
  }

  lemma {:induction false} CursorsGrow(log: seq<Event>, n: nat, a: Hash, channel: nat)
    requires LegalLog(log) && n <= |log|
    ensures NextNonce(Replay(log), a, channel) >= NextNonce(Replay(log[..n]), a, channel)
    decreases |log|
  {
    hide Apply, Legal, LegalLog, Replay;
    if n == |log| {
      assert log[..n] == log;
    } else {
      var past, e := log[..|log| - 1], log[|log| - 1];
      assert past == log[..|past|] && log[..|past| + 1] == log && past[..n] == log[..n];
      StepAt(log, |past|);
      CursorsGrow(past, n, a, channel);
      CursorStep(Replay(past), past, e, a, channel);
    }
  }

  lemma CursorStep(b: Book, past: seq<Event>, e: Event, a: Hash, channel: nat)
    requires Legal(b, past, e)
    ensures NextNonce(Apply(b, e), a, channel)
         == NextNonce(b, a, channel) + (if e.NonceConsumed? && e.a == a && e.channel == channel then 1 else 0)
    ensures e.NonceConsumed? && e.a == a && e.channel == channel ==> e.sequence == NextNonce(b, a, channel)
  {
    NoncesOnly(b, e);
    hide Apply;
  }

  lemma NoncesOnly(b: Book, e: Event)
    ensures Apply(b, e).nonces == NoncesAfter(b.nonces, e)
  {
  }

  /** An operation that returns has logged the use of its own nonce. */
  lemma OperationUsesItsNonce(env: Env, who: Caller, w: World, a: Hash, plan: Plan, v: World) returns (p: nat)
    requires Inv(w) && ExecuteUserOp(env, who, w, a, plan) == Finish(v)
    ensures Inv(v) && Extends(w.log, v.log) && plan.op.nonce >= 0
    ensures |w.log| <= p < |v.log| && v.log[p] == Use(a, plan.op.nonce)
  {
    hide ExecuteUserOp, Sound, Step, Frozen, Escrowed, LegalLog, Replay, LocksCover;
    ExecuteSound(env, who, w, a, plan);
    Arrives(w, Finish(v), 0);
    OperationRunsOnce(env, who, w, a, plan);
    p := CursorMoved(v.log, |w.log|, a, Channel(plan.op.nonce));
  }

  /** Where the batch's own nonces were used: one position for each, in the order of the batch. */
  ghost predicate UsedInOrder(log: seq<Event>, from: nat, a: Hash, plans: seq<Plan>, ps: seq<nat>) {
    && |ps| == |plans|
    && (forall i | 0 <= i < |plans| :: from <= ps[i] < |log| && plans[i].op.nonce >= 0 && log[ps[i]] == Use(a, plans[i].op.nonce))
    && forall i, j | 0 <= i < j < |ps| :: ps[i] < ps[j]
  }

  lemma {:induction false} ChainUsesInOrder(env: Env, who: Caller, a: Hash, plans: seq<Plan>, ws: seq<World>) returns (ps: seq<nat>)
    requires Chain(env, who, a, plans, ws) && Inv(ws[0])
    ensures Inv(ws[|plans|]) && Extends(ws[0].log, ws[|plans|].log)
    ensures UsedInOrder(ws[|plans|].log, |ws[0].log|, a, plans, ps)
    decreases |plans|
  {
    hide ExecuteUserOp, Inv, Use;
    if plans == [] {
      ps := [];
    } else {
      var n := |plans| - 1;
      var (before, u, v) := (plans[..n], ws[n], ws[n + 1]);
      assert Chain(env, who, a, before, ws[..n + 1]);
      var earlier := ChainUsesInOrder(env, who, a, before, ws[..n + 1]);
      assert ExecuteUserOp(env, who, u, a, plans[n]) == Finish(v);
      var p := OperationUsesItsNonce(env, who, u, a, plans[n], v);
      ps := earlier + [p];
      UsesAppend(ws[0].log, u.log, v.log, a, plans, earlier, p);
    }
  }

  lemma UsesAppend(start: seq<Event>, past: seq<Event>, log: seq<Event>, a: Hash, plans: seq<Plan>, earlier: seq<nat>, p: nat)
    requires plans != [] && Extends(start, past) && Extends(past, log) && UsedInOrder(past, |start|, a, plans[..|plans| - 1], earlier)
    requires |past| <= p < |log| && plans[|plans| - 1].op.nonce >= 0 && log[p] == Use(a, plans[|plans| - 1].op.nonce)
    ensures Extends(start, log) && UsedInOrder(log, |start|, a, plans, earlier + [p])
  {
    hide Use;
    assert log[..|start|] == log[..|past|][..|start|];
    var n, ps := |plans| - 1, earlier + [p];
    forall i | 0 <= i < |plans| ensures |start| <= ps[i] < |log| && plans[i].op.nonce >= 0 && log[ps[i]] == Use(a, plans[i].op.nonce) {
      if i < n {
        assert plans[..n][i] == plans[i] && past[earlier[i]] == log[..|past|][earlier[i]];
      }
    }
  }

  /** A batch that returns has used the nonces of its operations, first to last. */
  lemma BatchUsesItsNoncesInOrder(env: Env, who: Caller, w: World, a: Hash, plans: seq<Plan>, v: World) returns (ps: seq<nat>)
    requires Inv(w) && ExecuteUserOps(env, who, w, a, plans) == Finish(v)
    ensures UsedInOrder(v.log, |w.log|, a, plans, ps)
  {
    hide ExecuteUserOps, ExecuteUserOp, Inv, UsedInOrder;
    BatchReturnsExactly(env, who, w, a, plans, v);
    var ws :| Chain(env, who, a, plans, ws) && ws[0] == w && ws[|plans|] == v;
    ps := ChainUsesInOrder(env, who, a, plans, ws);
  }
}
