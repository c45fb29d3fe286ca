/**
 What every piece of wallet code keeps and guarantees, whatever calls back into it: the invariant
 of a world, and the relation between the world an entry point starts in and the one it leaves.
 */
module Guarantee {
  import opened Records
  import opened Machine

  predicate IsExecutionKey(slot: Slot) {
    slot.Target? || slot.Executing?
  }

  /** Execution keys of an account are present only while it is locked. */
  ghost predicate LocksCover(contexts: Contexts) {
    forall k | k in contexts && IsExecutionKey(k.0) :: (Lock, k.1) in contexts
  }

  /**
   The invariant: present context keys never outnumber the depth counter, execution keys are
   covered by their lock, and the book is the replay of a legal log.
   */
  ghost predicate Inv(w: World) {
    && |w.contexts| <= w.depth
    && LocksCover(w.contexts) && !Locked(w, 0)
    && LegalLog(w.log) && Replay(w.log) == w.book
  }

  /**
   What cannot change while any context is active: everything but nonces, rosters and the budget, and
   an escape timer can only be stopped.
   */
  ghost predicate Frozen(b: Book, c: Book) {
    && c.updates == b.updates && c.calls == b.calls
    && c.markets == b.markets && c.listings == b.listings && c.reclaims == b.reclaims
    && c.escapes == b.escapes && c.bindings == b.bindings
    && c.accounts.Keys == b.accounts.Keys
    && forall a | a in b.accounts :: SameAuthority(b.accounts[a], c.accounts[a]) && TimerOnlyStops(b.accounts[a], c.accounts[a])
  }

  predicate TimerOnlyStops(a: Account, b: Account) {
    b.escapeAt == a.escapeAt || b.escapeAt == 0
  }

  predicate RosterKept(b: Book, c: Book, role: Role, a: Hash) {
    && ((role, a) in b.rosters <==> (role, a) in c.rosters)
    && ((role, a) in b.rosters ==> b.rosters[(role, a)] == c.rosters[(role, a)])
  }

  /** The account record and all its nonce cursors. */
  ghost predicate AccountKept(b: Book, c: Book, a: Hash) {
    && (a in b.accounts <==> a in c.accounts)
    && (a in b.accounts ==> b.accounts[a] == c.accounts[a])
    && forall channel: nat :: Get(b.nonces, (a, channel), 0) == Get(c.nonces, (a, channel), 0)
  }

  /** A roster may change only where no maintenance is active and only at rest or in its own root context. */
  predicate RosterOpen(w: World, role: Role, a: Hash) {
    a !in w.maintenance && (w.depth == 0 || (w.depth == 1 && (Config(role), a) in w.contexts))
  }

  /** Context keys may only disappear, and only configuration keys do. */
  ghost predicate ContextsShrink(c: Contexts, d: Contexts) {
    && (forall k | k in d :: k in c && d[k] == c[k])
    && (forall k | k in c && !k.0.Config? :: k in d)
  }

  ghost predicate HasConfigKey(c: Contexts) {
    exists k :: k in c && k.0.Config?
  }

  /** Context keys stay, but for a configuration key that is the only context: its own nested cleanup may delete it. */
  ghost predicate ContextsKept(w: World, d: Contexts) {
    d == w.contexts || (w.depth == 1 && |w.contexts| == 1 && HasConfigKey(w.contexts) && d == map[])
  }

  /** By how much the depth exceeds the number of present keys. */
  function Missing(c: Contexts, depth: nat): int {
    depth - |c|
  }

  /** Keys and depth move together; once, at depth one, a configuration key may be lost. */
  ghost predicate CountFits(w: World, x: View) {
    var (before, after) := (Missing(w.contexts, w.depth), Missing(x.contexts, x.depth));
    || after == before
    || (after == before + 1 && (w.depth == 0 || (w.depth == 1 && HasConfigKey(w.contexts))))
  }

  predicate Extends<T(==)>(past: seq<T>, log: seq<T>) {
    |past| <= |log| && log[..|past|] == past
  }

  // ---------------------------------------------------------------------------
  // Events
  // ---------------------------------------------------------------------------

  predicate HasSince(e: Event) {
    e.UpdateConfirmed? || e.RosterSet? || e.RosterCleared? || e.EscapeFinalized? || e.EscrowSettled?
  }

  predicate HasTime(e: Event) {
    || e.UpdateRequested? || e.UpdateConfirmed? || e.CallStaged? || e.CallConfirmed?
    || e.EscapeInitiated? || e.EscapeFinalized? || e.ReclaimInitiated? || e.EscrowReclaimed?
  }

  /** The only events that an active context leaves possible. */
  predicate Quiet(e: Event) {
    e.Cleaned? || e.Reserved? || e.NonceConsumed? || e.EscapeCancelled? || e.RosterSet? || e.RosterCleared?
  }

  /** The module's first view of the wallet during its cleanup shows its own configuration context. */
  predicate RanInContext(e: Event, i: nat, views: seq<View>)
    requires e.Cleaned?
  {
    && e.view < |views| && views[e.view].at <= i
    && (Config(e.role), e.a) in views[e.view].contexts && views[e.view].contexts[(Config(e.role), e.a)] == e.module_
  }

  /**
   How an event at position `i` is tied to the step that began in `w`: it is quiet under any active
   context, reservations carry the running transaction's identity and fee, every recorded time is that
   of the running transaction's block, `since` lies within the step, and a cleanup ran within the step.
   */
  predicate StampFits(w: World, e: Event, i: nat, views: seq<View>) {
    && (w.depth > 0 ==> Quiet(e))
    && (e.Reserved? ==> e.tx == w.header.tx && e.cost == w.header.cost)
    && (HasTime(e) ==> e.time == w.header.time)
    && (HasSince(e) ==> |w.log| <= e.since <= i)
    && (e.Cleaned? ==> |w.views| <= e.view && RanInContext(e, i, views) && |w.log| <= views[e.view].at)
  }

  ghost predicate Stamped(w: World, v: World) {
    forall i | |w.log| <= i < |v.log| :: StampFits(w, v.log[i], i, v.views)
  }

  // ---------------------------------------------------------------------------
  // Views
  // ---------------------------------------------------------------------------

  /**
   What foreign code sees during a step that began in `w`: never more keys than the depth counts, and
   nothing that the step itself may not change has changed.  An executing account keeps its lock and its
   execution keys, and no configuration context of it appears.
   */
  ghost predicate ViewFits(w: World, x: View, self: Hash) {
    && |x.contexts| <= x.depth && LocksCover(x.contexts) && CountFits(w, x) && x.at >= |w.log|
    && (w.depth > 0 ==> Frozen(w.book, x.book))
    && (forall a | Locked(w, a) && a != self :: AccountKept(w.book, x.book, a))
    && (forall role, a | !RosterOpen(w, role, a) :: RosterKept(w.book, x.book, role, a))
    && (forall a | Locked(w, a) :: StaysLocked(w.contexts, x.contexts, a))
  }

  ghost predicate StaysLocked(c: Contexts, d: Contexts, a: Hash) {
    && (forall slot: Slot | !slot.Config? && (slot, a) in c :: (slot, a) in d && d[(slot, a)] == c[(slot, a)])
    && forall role | (Config(role), a) in d :: (Config(role), a) in c && d[(Config(role), a)] == c[(Config(role), a)]
  }

  ghost predicate ViewsFit(w: World, v: World, self: Hash) {
    && Extends(w.views, v.views)
    && forall k | |w.views| <= k < |v.views| :: ViewFits(w, v.views[k], self)
  }

  // ---------------------------------------------------------------------------
  // Steps
  // ---------------------------------------------------------------------------

  /**
   What any step that returns or throws may have changed.  `self` is the account whose own execution
   this is (0 for none): its lock protects it from everybody else.
   */
  ghost predicate Moves(w: World, v: World, self: Hash) {
    && Inv(v)
    && v.depth == w.depth
    && ContextsShrink(w.contexts, v.contexts) && ContextsKept(w, v.contexts)
    && v.maintenance == w.maintenance
    && Extends(w.log, v.log)
    && v.header == w.header
    && (w.depth > 0 ==> Frozen(w.book, v.book))
    && (forall a | Locked(w, a) && a != self :: AccountKept(w.book, v.book, a))
    && (forall role, a | !RosterOpen(w, role, a) :: RosterKept(w.book, v.book, role, a))
  }

  /** The guarantee of any step that returns or throws. */
  ghost predicate Step(w: World, v: World, self: Hash) {
    Moves(w, v, self) && Stamped(w, v) && ViewsFit(w, v, self)
  }

  /** An outcome is sound: it never underflows, what foreign code saw fits, and unless it aborts it keeps the guarantee. */
  ghost predicate Sound(w: World, o: Outcome, self: Hash) {
    && o.exit != Aborted(Underflow)
    && ViewsFit(w, o.world, self)
    && (!o.exit.Aborted? ==> Step(w, o.world, self))
  }

  lemma MovesReflexive(w: World, self: Hash)
    requires Inv(w)
    ensures Moves(w, w, self)
  {
  }

  lemma StepReflexive(w: World, self: Hash)
    requires Inv(w)
    ensures Step(w, w, self)
  {
    hide Inv, Moves;
    MovesReflexive(w, self);
  }

  lemma MovesTransitive(u: World, v: World, w: World, self: Hash)
    requires Moves(u, v, self) && Moves(v, w, self)
    ensures Moves(u, w, self)
  {
    hide Inv;
    assert w.log[..|u.log|] == w.log[..|v.log|][..|u.log|];
    forall role, a | !RosterOpen(u, role, a) ensures RosterKept(u.book, w.book, role, a) {
      assert !RosterOpen(v, role, a);
    }
    forall a | Locked(u, a) && a != self ensures AccountKept(u.book, w.book, a) {
      assert Locked(v, a);
    }
  }

  lemma StampKept(w: World, e: Event, i: nat, views: seq<View>, more: seq<View>)
    requires StampFits(w, e, i, views) && Extends(views, more)
    ensures StampFits(w, e, i, more)
  {
    if e.Cleaned? {
      assert more[e.view] == more[..|views|][e.view];
    }
  }

  lemma StampWidens(u: World, v: World, e: Event, i: nat, views: seq<View>)
    requires StampFits(v, e, i, views) && |u.log| <= |v.log| && |u.views| <= |v.views| && u.header == v.header && u.depth == v.depth
    ensures StampFits(u, e, i, views)
  {
  }

  lemma StampedTransitive(u: World, v: World, w: World)
    requires Stamped(u, v) && Stamped(v, w) && v.header == u.header && v.depth == u.depth
    requires Extends(u.log, v.log) && Extends(v.log, w.log) && Extends(u.views, v.views) && Extends(v.views, w.views)
    ensures Stamped(u, w)
  {
    hide StampFits;
    forall i | |u.log| <= i < |w.log| ensures StampFits(u, w.log[i], i, w.views) {
      if i < |v.log| {
        assert w.log[i] == w.log[..|v.log|][i];
        StampKept(u, v.log[i], i, v.views, w.views);
      } else {
        StampWidens(u, v, w.log[i], i, w.views);
      }
    }
  }

  /** What fits a later start fits an earlier one. */
  lemma ViewWidens(u: World, v: World, x: View, self: Hash)
    requires Moves(u, v, self) && ViewFits(v, x, self)
    ensures ViewFits(u, x, self)
  {
    hide Inv, LocksCover;
    forall role, a | !RosterOpen(u, role, a) ensures RosterKept(u.book, x.book, role, a) {
      assert !RosterOpen(v, role, a);
    }
    forall a | Locked(u, a) ensures StaysLocked(u.contexts, x.contexts, a) && (a != self ==> AccountKept(u.book, x.book, a)) {
      assert Locked(v, a);
    }
  }

  lemma ViewsTransitive(u: World, v: World, w: World, self: Hash)
    requires Moves(u, v, self) && ViewsFit(u, v, self) && ViewsFit(v, w, self)
    ensures ViewsFit(u, w, self)
  {
    hide Moves, ViewFits;
    assert w.views[..|u.views|] == w.views[..|v.views|][..|u.views|];
    forall k | |u.views| <= k < |w.views| ensures ViewFits(u, w.views[k], self) {
      if k < |v.views| {
        assert w.views[k] == w.views[..|v.views|][k];
      } else {
        ViewWidens(u, v, w.views[k], self);
      }
    }
  }

  lemma StepTransitive(u: World, v: World, w: World, self: Hash)
    requires Step(u, v, self) && Step(v, w, self)
    ensures Step(u, w, self)
  {
    hide Inv, Stamped, ViewFits, Frozen, AccountKept, RosterKept;
    MovesTransitive(u, v, w, self);
    StampedTransitive(u, v, w);
    ViewsTransitive(u, v, w, self);
  }

  lemma StepWeaken(w: World, v: World, self: Hash)
    requires Step(w, v, 0) && Inv(w)
    ensures Step(w, v, self)
  {
    hide Stamped, LegalLog, Replay;
    ViewsWeaken(w, v, self);
  }

  lemma ViewsWeaken(w: World, v: World, self: Hash)
    requires ViewsFit(w, v, 0) && Inv(w)
    ensures ViewsFit(w, v, self)
  {
    hide LegalLog, Replay;
    assert !Locked(w, 0);
  }

  lemma {:induction false} SubsetSize<T>(s: set<T>, t: set<T>)
    requires s <= t
    ensures |s| <= |t|
  {
    if s != {} {
      var x :| x in s;
      SubsetSize(s - {x}, t - {x});
    }
  }

  lemma ShrinkKeepsShape(c: Contexts, d: Contexts)
    requires ContextsShrink(c, d) && LocksCover(c)
    ensures LocksCover(d) && |d| <= |c|
    ensures forall a :: (Lock, a) in d <==> (Lock, a) in c
  {
    assert d.Keys <= c.Keys;
    SubsetSize(d.Keys, c.Keys);
  }
}
