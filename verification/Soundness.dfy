/**
 Soundness of the reentrant wallet: for every callback tree and every way it ends, each entry point
 keeps the invariant and the guarantee of module Guarantee.  The lemmas follow the machine function
 by function; a callback is used only through its own guarantee, by induction over the tree.
 */
module Soundness {
  import opened Bytes
  import opened Values
  import opened Records
  import opened Machine
  import opened Journal
  import opened Guarantee

  // ---------------------------------------------------------------------------
  // Emissions
  // ---------------------------------------------------------------------------

  lemma LogGrows(past: seq<Event>, e: Event)
    ensures (past + [e])[..|past|] == past && (past + [e])[|past|] == e
  {
  }

  lemma EmitKeepsInv(w: World, e: Event)
    requires Inv(w) && Legal(w.book, w.log, e)
    ensures Inv(Emit(w, e))
  {
    LogGrows(w.log, e);
  }

  predicate TouchesRosters(e: Event) {
    e.RosterSet? || e.RosterCleared?
  }

  lemma ApplyKeepsRosters(b: Book, e: Event)
    requires !TouchesRosters(e)
    ensures Apply(b, e).rosters == b.rosters
  {
  }

  lemma RestIsEmpty(w: World)
    requires Inv(w) && w.depth == 0
    ensures w.contexts == map[] && forall a: Hash :: !Locked(w, a)
  {
  }

  /** At rest no context key is present, so any legal event keeps the guarantee. */
  lemma EmitAtRest(w: World, e: Event)
    requires Inv(w) && w.depth == 0 && Legal(w.book, w.log, e) && !TouchesRosters(e)
    ensures Moves(w, Emit(w, e), 0) && Inv(Emit(w, e))
  {
    hide Inv, Apply, Legal, LegalLog, Replay;
    EmitKeepsInv(w, e);
    LogGrows(w.log, e);
    ApplyKeepsRosters(w.book, e);
    RestIsEmpty(w);
  }

  /** One more event that fits the step begun in `w`. */
  lemma EmitStamped(w: World, v: World, e: Event, self: Hash)
    requires Stamped(w, v) && ViewsFit(w, v, self) && Extends(w.log, v.log) && StampFits(w, e, |v.log|, v.views)
    ensures Stamped(w, Emit(v, e)) && ViewsFit(w, Emit(v, e), self)
  {
    hide StampFits, ViewFits, Apply;
    LogGrows(v.log, e);
    assert forall i | 0 <= i < |v.log| :: Emit(v, e).log[i] == v.log[i];
  }

  lemma HarmlessWrites(b: Book, e: Event)
    requires e.Cleaned? || e.Reserved?
    ensures Apply(b, e) == b.(budget := BudgetAfter(b, e))
  {
  }

  /** Events that touch neither accounts nor configuration are possible at any depth. */
  lemma EmitHarmless(w: World, e: Event, self: Hash)
    requires Inv(w) && Legal(w.book, w.log, e) && (e.Cleaned? || e.Reserved?)
    ensures Moves(w, Emit(w, e), self) && Frozen(w.book, Emit(w, e).book)
  {
    hide Inv, Apply;
    EmitKeepsInv(w, e);
    HarmlessWrites(w.book, e);
    LogGrows(w.log, e);
  }

  predicate Own(e: Event, a: Hash) {
    e == EscapeCancelled(a) || (e.NonceConsumed? && e.a == a)
  }

  lemma OwnWrites(b: Book, e: Event, a: Hash)
    requires Own(e, a)
    ensures var c := Apply(b, e);
            && c == b.(accounts := c.accounts, nonces := c.nonces)
            && Frozen(b, c)
            && forall other: Hash | other != a :: AccountKept(b, c, other)
  {
  }

  /** The writes of an account's own execution. */
  lemma EmitOwn(w: World, e: Event, a: Hash)
    requires Inv(w) && Legal(w.book, w.log, e) && Own(e, a)
    ensures Step(w, Emit(w, e), a) && Inv(Emit(w, e))
  {
    hide Inv, Apply, Frozen, AccountKept, ViewFits;
    EmitKeepsInv(w, e);
    OwnWrites(w.book, e, a);
    LogGrows(w.log, e);
    EmitStamped(w, w, e, a);
  }

  // ---------------------------------------------------------------------------
  // Composition
  // ---------------------------------------------------------------------------

  lemma ThenStep(w: World, v: World, o: Outcome, self: Hash)
    requires Step(w, v, self) && Sound(v, o, self)
    ensures Sound(w, o, self)
  {
    hide Moves, Stamped, ViewsFit;
    ViewsTransitive(w, v, o.world, self);
    if !o.exit.Aborted? {
      StepTransitive(w, v, o.world, self);
    }
  }

  lemma Then(w: World, first: Outcome, o: Outcome, self: Hash)
    requires Sound(w, first, self) && !first.exit.Aborted? && Sound(first.world, o, self)
    ensures Sound(w, o, self)
  {
    hide Step;
    ThenStep(w, first.world, o, self);
  }

  lemma Arrives(w: World, o: Outcome, self: Hash)
    requires Sound(w, o, self) && !o.exit.Aborted?
    ensures Step(w, o.world, self) && Inv(o.world) && o.world.depth == w.depth && Extends(w.log, o.world.log)
    ensures forall b: Hash :: Locked(o.world, b) <==> Locked(w, b)
  {
    hide Inv, Stamped, ViewsFit;
  }

  /** An abort needs nothing but that what foreign code saw fits. */
  lemma AbortSound(w: World, o: Outcome, self: Hash)
    requires ViewsFit(w, o.world, self) && o.exit.Aborted? && o.exit != Aborted(Underflow)
    ensures Sound(w, o, self)
  {
  }

  /** One more event at rest, after which the entry point returns. */
  lemma ThenEmit(w: World, first: Outcome, e: Event)
    requires Sound(w, first, 0) && !first.exit.Aborted?
    requires w.depth == 0 && Legal(first.world.book, first.world.log, e) && !TouchesRosters(e)
    requires StampFits(w, e, |first.world.log|, first.world.views)
    ensures Sound(w, Finish(Emit(first.world, e)), 0) && Inv(Emit(first.world, e))
    ensures Emit(first.world, e).depth == 0 && forall b: Hash :: !Locked(Emit(first.world, e), b)
  {
    hide Apply, Legal, StampFits, ViewsFit, Stamped, LegalLog, Replay;
    var v := Emit(first.world, e);
    EmitAtRest(first.world, e);
    MovesTransitive(w, first.world, v, 0);
    EmitStamped(w, first.world, e, 0);
    RestIsEmpty(v);
  }

  /** A step may end in any way but an underflow. */
  lemma StepSound(w: World, v: World, self: Hash)
    requires Step(w, v, self)
    ensures forall exit: Exit :: exit != Aborted(Underflow) ==> Sound(w, Outcome(v, exit), self)
  {
  }

  lemma StopSound(w: World, self: Hash)
    requires Inv(w)
    ensures Step(w, w, self)
    ensures forall exit: Exit :: exit != Aborted(Underflow) ==> Sound(w, Outcome(w, exit), self)
  {
    StepReflexive(w, self);
  }

  // ---------------------------------------------------------------------------
  // Contexts
  // ---------------------------------------------------------------------------

  predicate MayEnter(w: World, slot: Slot, a: Hash) {
    match slot
    case Config(_) => !Locked(w, a) && ((slot, a) in w.contexts ==> w.depth == 1)
    case Lock => a != 0 && !Locked(w, a)
    case _ => Locked(w, a) && (slot, a) !in w.contexts
  }

  /** At rest any configuration context may be opened. */
  lemma RestMayConfigure(w: World, role: Role, a: Hash)
    requires Inv(w) && w.depth == 0
    ensures MayEnter(w, Config(role), a)
  {
  }

  /** A step takes the right to open a configuration context from nobody. */
  lemma StillConfigurable(w: World, v: World, role: Role, a: Hash)
    requires Step(w, v, 0) && MayEnter(w, Config(role), a)
    ensures MayEnter(v, Config(role), a)
  {
    hide Inv, Stamped, ViewsFit;
  }

  lemma SetContextKeepsInv(w: World, slot: Slot, a: Hash, h: Hash)
    requires Inv(w) && MayEnter(w, slot, a)
    ensures Inv(SetContext(w, slot, a, h))
  {
    var d := w.contexts[(slot, a) := h];
    assert d.Keys == w.contexts.Keys + {(slot, a)};
  }

  lemma ViewAfterSetting(w: World, slot: Slot, a: Hash, h: Hash, x: View, self: Hash)
    requires Inv(w) && MayEnter(w, slot, a) && (slot.Lock? ==> self == a)
    requires ViewFits(SetContext(w, slot, a, h), x, self)
    ensures ViewFits(w, x, if slot.Lock? then 0 else self)
  {
    hide LegalLog, Replay, LocksCover;
    var w1 := SetContext(w, slot, a, h);
    forall role, b | !RosterOpen(w, role, b) ensures RosterKept(w.book, x.book, role, b) {
      assert !RosterOpen(w1, role, b);
    }
    forall b | Locked(w, b)
      ensures StaysLocked(w.contexts, x.contexts, b) && (b != (if slot.Lock? then 0 else self) ==> AccountKept(w.book, x.book, b))
    {
      assert Locked(w1, b);
    }
  }

  lemma ViewsAfterSetting(w: World, slot: Slot, a: Hash, h: Hash, v: World, self: Hash)
    requires Inv(w) && MayEnter(w, slot, a) && (slot.Lock? ==> self == a)
    requires ViewsFit(SetContext(w, slot, a, h), v, self)
    ensures ViewsFit(w, v, if slot.Lock? then 0 else self)
  {
    hide ViewFits, Inv, MayEnter;
    forall k | |w.views| <= k < |v.views| ensures ViewFits(w, v.views[k], if slot.Lock? then 0 else self) {
      ViewAfterSetting(w, slot, a, h, v.views[k], self);
    }
  }

  /** What the clearing leaves of the contexts. */
  lemma ContextsAfterFinally(w: World, slot: Slot, a: Hash, h: Hash, v: World)
    requires |w.contexts| <= w.depth && MayEnter(w, slot, a)
    requires var u := SetContext(w, slot, a, h); ContextsShrink(u.contexts, v.contexts) && ContextsKept(u, v.contexts)
    ensures var d := v.contexts - {(slot, a)};
            && ContextsShrink(w.contexts, d) && ContextsKept(w, d)
            && forall k | k in w.contexts && k.0 == Lock :: k in v.contexts
  {
    var (k, d) := ((slot, a), v.contexts - {(slot, a)});
    if w.depth == 0 {
      assert w.contexts == map[];
      assert d == map[];
    } else if k !in w.contexts {
      assert d == w.contexts;
    } else {
      OnlyContext(w, k);
      assert d == map[];
    }
  }

  lemma OnlyContext(w: World, k: (Slot, Hash))
    requires |w.contexts| <= 1 && k in w.contexts
    ensures |w.contexts| == 1 && w.contexts.Keys == {k}
  {
    assert w.contexts.Keys == {k} + (w.contexts.Keys - {k});
  }

  lemma MovesAfterFinally(w: World, slot: Slot, a: Hash, h: Hash, o: Outcome, self: Hash)
    requires Inv(w) && MayEnter(w, slot, a) && (slot.Lock? ==> self == a)
    requires !o.exit.Aborted? && Moves(SetContext(w, slot, a, h), o.world, self)
    ensures var r := Finally(o, slot, a);
            r.exit == o.exit && Moves(w, r.world, if slot.Lock? then 0 else self) && Frozen(w.book, r.world.book)
  {
    hide ContextsShrink, ContextsKept, Frozen, AccountKept, RosterKept, LegalLog, Replay, MayEnter, LocksCover;
    var w1, v := SetContext(w, slot, a, h), o.world;
    var r := Finally(o, slot, a).world;
    ContextsAfterFinally(w, slot, a, h, v);
    ShrinkKeepsShape(w.contexts, r.contexts);
    assert Inv(r);
    forall role, b | !RosterOpen(w, role, b) ensures RosterKept(w.book, r.book, role, b) {
      StillClosed(w, slot, a, h, role, b);
    }
    forall b | Locked(w, b) && b != (if slot.Lock? then 0 else self) ensures AccountKept(w.book, r.book, b) {
      StillLocked(w, slot, a, h, b, self);
    }
  }

  /** Entering a context opens no other roster. */
  lemma StillClosed(w: World, slot: Slot, a: Hash, h: Hash, role: Role, b: Hash)
    requires Inv(w) && MayEnter(w, slot, a) && !RosterOpen(w, role, b)
    ensures !RosterOpen(SetContext(w, slot, a, h), role, b)
  {
    hide LegalLog, Replay, LocksCover;
  }

  lemma StillLocked(w: World, slot: Slot, a: Hash, h: Hash, b: Hash, self: Hash)
    requires MayEnter(w, slot, a) && Locked(w, b) && (slot.Lock? ==> self == a) && b != (if slot.Lock? then 0 else self)
    ensures Locked(SetContext(w, slot, a, h), b) && b != self
  {
  }

  lemma FinallyKeeps(o: Outcome, slot: Slot, a: Hash)
    ensures var r := Finally(o, slot, a);
            r.world.book == o.world.book && r.world.log == o.world.log && r.world.views == o.world.views
    ensures o.exit.Aborted? ==> Finally(o, slot, a) == o
  {
  }

  /** Setting a context, doing anything sound, and clearing it in a `finally` block. */
  lemma FinallySound(w: World, slot: Slot, a: Hash, h: Hash, o: Outcome, self: Hash)
    requires Inv(w) && MayEnter(w, slot, a) && (slot.Lock? ==> self == a)
    requires Sound(SetContext(w, slot, a, h), o, self)
    ensures Sound(w, Finally(o, slot, a), if slot.Lock? then 0 else self)
    ensures var r := Finally(o, slot, a);
            && (r.exit == o.exit)
            && (!r.exit.Aborted? ==> Frozen(w.book, r.world.book) && r.world.book == o.world.book && r.world.log == o.world.log)
  {
    hide Inv, Moves, Frozen, Finally, MayEnter, StampFits, ViewFits;
    FinallyKeeps(o, slot, a);
    ViewsAfterSetting(w, slot, a, h, o.world, self);
    if !o.exit.Aborted? {
      MovesAfterFinally(w, slot, a, h, o, self);
      StampsAfterSetting(w, slot, a, h, o.world, Finally(o, slot, a).world);
    }
  }

  lemma StampsAfterSetting(w: World, slot: Slot, a: Hash, h: Hash, v: World, r: World)
    requires Stamped(SetContext(w, slot, a, h), v) && r.log == v.log && r.views == v.views
    ensures Stamped(w, r)
  {
    forall i | |w.log| <= i < |r.log| ensures StampFits(w, r.log[i], i, r.views) {
      assert StampFits(SetContext(w, slot, a, h), v.log[i], i, v.views);
    }
  }

  // ---------------------------------------------------------------------------
  // External calls
  // ---------------------------------------------------------------------------

  lemma LookFits(w: World, self: Hash, returned: Option<UserOperation>)
    requires Inv(w)
    ensures ViewFits(w, View(w.book, w.contexts, w.depth, |w.log|, true, returned), self)
  {
    hide LegalLog, Replay;
  }

  /** Giving foreign code control changes nothing. */
  lemma LookSound(w: World, self: Hash)
    requires Inv(w)
    ensures Step(w, Look(w), self) && Inv(Look(w))
  {
    hide ViewFits, LegalLog, Replay;
    LookFits(w, self, None);
  }

  lemma RegainSound(w: World, op: UserOperation, self: Hash)
    requires Inv(w)
    ensures Step(w, Regain(w, op), self) && Inv(Regain(w, op))
  {
    hide ViewFits, LegalLog, Replay;
    LookFits(w, self, Some(op));
  }

  /** Dropping the writes of a sound call leaves what was seen. */
  lemma UndoSound(w: World, o: Outcome, self: Hash)
    requires Inv(w) && Sound(w, o, self)
    ensures Sound(w, Outcome(Undo(w, o.world), Thrown), self)
  {
    hide LegalLog, Replay, ViewFits;
    MovesReflexive(w, self);
    DroppedViewsFit(w, o.world, self);
  }

  lemma DroppedViewsFit(w: World, v: World, self: Hash)
    requires ViewsFit(w, v, self)
    ensures ViewsFit(w, Undo(w, v), self)
  {
    hide ViewFits;
    var dropped := Undo(w, v).views;
    assert dropped[..|w.views|] == v.views[..|w.views|];
    forall k | |w.views| <= k < |dropped| ensures ViewFits(w, dropped[k], self) {
      DroppedViewFits(w, v.views[k], self);
    }
  }

  lemma DroppedViewFits(w: World, x: View, self: Hash)
    requires ViewFits(w, x, self)
    ensures ViewFits(w, x.(kept := false), self)
  {
  }

  lemma {:induction false} PerformSound(env: Env, w: World, b: Behaviour)
    requires Inv(w)
    ensures Sound(w, Perform(env, w, b), 0)
    ensures Extends(Look(w).views, Perform(env, w, b).world.views)
    decreases b, 0
  {
    hide Inv, Sound, Step, Enter;
    var u := Look(w);
    LookSound(w, 0);
    StepSound(w, u, 0);
    match b
    case Return =>
    case Throw =>
    case Abort =>
    case Invoke(who, call, caught, rest) =>
      EnterSound(env, who, u, call);
      var o := Enter(env, who, u, call);
      ThenStep(w, u, o, 0);
      SoundViews(u, o, 0);
      if o.exit.Done? || (o.exit.Thrown? && caught) {
        Arrives(u, o, 0);
        PerformSound(env, o.world, rest);
        var r := Perform(env, o.world, rest);
        Then(w, o, r, 0);
        SoundViews(o.world, r, 0);
        assert r.world.views[..|u.views|] == r.world.views[..|o.world.views|][..|u.views|];
      }
  }

  lemma SoundViews(w: World, o: Outcome, self: Hash)
    requires Sound(w, o, self)
    ensures Extends(w.views, o.world.views)
  {
  }

  lemma {:induction false} ExternalSound(env: Env, w: World, b: Behaviour)
    requires Inv(w)
    ensures Sound(w, External(env, w, b), 0)
    ensures External(env, w, b).exit.Done? ==> Extends(Look(w).views, External(env, w, b).world.views)
    decreases b, 1
  {
    hide Inv, Sound, Perform;
    PerformSound(env, w, b);
    UndoSound(w, Perform(env, w, b), 0);
  }

  lemma {:induction false} WithinSound(env: Env, w: World, role: Role, a: Hash, m: Hash, b: Behaviour)
    requires Inv(w) && MayEnter(w, Config(role), a)
    ensures var o := Within(env, w, Config(role), a, m, b);
            && Sound(w, o, 0) && (!o.exit.Aborted? ==> Frozen(w.book, o.world.book))
            && (o.exit.Done? ==>
                  && |w.views| < |o.world.views|
                  && o.world.views[|w.views|] == View(w.book, w.contexts[(Config(role), a) := m], w.depth + 1, |w.log|, true, None))
    decreases b, 2
  {
    hide Inv, Sound, External, Frozen, Finally;
    var u := SetContext(w, Config(role), a, m);
    SetContextKeepsInv(w, Config(role), a, m);
    ExternalSound(env, u, b);
    var o := External(env, u, b);
    FinallySound(w, Config(role), a, m, o, 0);
    FinallyKeeps(o, Config(role), a);
    if o.exit.Done? {
      assert o.world.views[|w.views|] == o.world.views[..|Look(u).views|][|w.views|];
    }
  }

  lemma FrozenTransitive(b: Book, c: Book, d: Book)
    requires Frozen(b, c) && Frozen(c, d)
    ensures Frozen(b, d)
  {
  }

  /** A module's cleanup that returned, on record with the module's first view. */
  lemma ThenCleaned(w: World, v: World, role: Role, a: Hash, m: Hash)
    requires Step(w, v, 0) && Frozen(w.book, v.book) && |w.views| < |v.views|
    requires v.views[|w.views|] == View(w.book, w.contexts[(Config(role), a) := m], w.depth + 1, |w.log|, true, None)
    ensures var u := Emit(v, Cleaned(role, a, m, |w.views|));
            Sound(w, Finish(u), 0) && Frozen(w.book, u.book) && CleanedSince(u.log, |w.log|, role, a, m)
  {
    hide Inv, Apply, Frozen, LegalLog, Replay, ViewFits, ViewsFit, Stamped;
    var e := Cleaned(role, a, m, |w.views|);
    var u := Emit(v, e);
    EmitHarmless(v, e, 0);
    MovesTransitive(w, v, u, 0);
    EmitStamped(w, v, e, 0);
    FrozenTransitive(w.book, v.book, u.book);
    LogGrows(v.log, e);
    hide Moves;
    StepSound(w, u, 0);
  }

  lemma {:induction false} CleanupSound(env: Env, w: World, role: Role, a: Hash, m: Hash, b: Behaviour)
    requires Inv(w) && MayEnter(w, Config(role), a)
    ensures var o := Cleanup(env, w, role, a, m, b);
            && Sound(w, o, 0)
            && (!o.exit.Aborted? ==> Frozen(w.book, o.world.book))
            && (o.exit.Done? ==> CleanedSince(o.world.log, |w.log|, role, a, m))
    decreases b, 3
  {
    hide Sound, Step, Inv, Apply, Within, Frozen, LegalLog, Replay;
    WithinSound(env, w, role, a, m, b);
    var o := Within(env, w, Config(role), a, m, b);
    if o.exit.Done? {
      Arrives(w, o, 0);
      ThenCleaned(w, o.world, role, a, m);
    }
  }

  lemma {:induction false} CleanRootSound(env: Env, w: World, role: Role, a: Hash, m: Hash, b: Behaviour)
    requires Inv(w) && MayEnter(w, Config(role), a)
    ensures var o := CleanRoot(env, w, role, a, m, b);
            && Sound(w, o, 0)
            && (!o.exit.Aborted? ==> Frozen(w.book, o.world.book))
            && (o.exit.Done? ==> m == 0 || CleanedSince(o.world.log, |w.log|, role, a, m))
    decreases b, 4
  {
    if m == 0 {
      StopSound(w, 0);
    } else {
      CleanupSound(env, w, role, a, m, b);
    }
  }

  lemma {:induction false} SetUpSound(env: Env, w: World, a: Hash, verifier: Hash, params: seq<Byte>, b: Behaviour)
    requires Inv(w) && MayEnter(w, Config(Verifier), a)
    ensures var o := SetUp(env, w, a, verifier, params, b);
            Sound(w, o, 0) && (!o.exit.Aborted? ==> Frozen(w.book, o.world.book))
    decreases b, 4
  {
    if verifier == 0 || params == [] {
      StopSound(w, 0);
    } else {
      WithinSound(env, w, Verifier, a, verifier, b);
    }
  }

  lemma {:induction false} EnterSound(env: Env, who: Caller, w: World, call: Call)
    requires Inv(w)
    ensures Sound(w, Enter(env, who, w, call), 0)
    decreases call, 9
  {
    hide Inv, Sound, Dispatch;
    DispatchSound(env, who, w, call);
    UndoSound(w, Dispatch(env, who, w, call), 0);
  }

  lemma {:induction false} DispatchSound(env: Env, who: Caller, w: World, call: Call)
    requires Inv(w)
    ensures Sound(w, Dispatch(env, who, w, call), 0)
    decreases call, 8
  {
    hide Sound, Step, Inv, Apply, Emit, LegalLog, Replay, ExecuteUserOp, ExecuteUserOps,
         DoRegister, DoRegisterPlatform, DoRotateOwner, DoUpdateModule, DoConfirmModule, DoCancelModule, DoCallModule,
         DoCallChild, DoSetDependencies, DoClearDependencies, DoInitiateEscape, DoFinalizeEscape, DoEnterEscrow,
         DoCancelEscrow, DoSettleEscrow, DoInitiateReclaim, DoReclaim, DoSponsor;
    match call
    case Register(_, _, _, _, _, _, _, _, _, _) => RegisterSound(env, who, w, call);
    case RegisterPlatform(_, _, _, _, _) => PlatformSound(env, who, w, call);
    case RotateOwner(_, _, _) => PlatformSound(env, who, w, call);
    case UpdateModule(_, _, _, _, _, _) => UpdateSound(env, who, w, call);
    case ConfirmModule(_, _, _, _, _) => ConfirmSound(env, who, w, call);
    case CancelModule(_, _) => RestSound(env, who, w, call);
    case CallModule(_, _, _, _, _, _, _) => CallModuleSound(env, who, w, call);
    case CallChild(_, _, _, _, _, _, _, _, _, _) => CallChildSound(env, who, w, call);
    case SetDependencies(_, _, _, _, _) => SetDependenciesSound(env, who, w, call);
    case ClearDependencies(_, _, _, _, _) => ClearDependenciesSound(env, who, w, call);
    case InitiateEscape(_) => RestSound(env, who, w, call);
    case FinalizeEscape(_, _, _, _, _, _, _) => FinalizeSound(env, who, w, call);
    case EnterEscrow(_, _, _) => RestSound(env, who, w, call);
    case CancelEscrow(_, _, _) => EscrowExitSound(env, who, w, call);
    case SettleEscrow(_, _, _, _, _) => SettleSound(env, who, w, call);
    case InitiateReclaim(_) => RestSound(env, who, w, call);
    case Reclaim(_, _) => EscrowExitSound(env, who, w, call);
    case Execute(a, plan) => ExecuteSound(env, who, w, a, plan);
    case ExecuteBatch(a, plans) => ExecuteAllSound(env, who, w, a, plans);
    case Sponsor(_, _, _, _, _, _, _, _) => SponsorSound(env, who, w, call);
  }

  // ---------------------------------------------------------------------------
  // Entry points without callees
  // ---------------------------------------------------------------------------

  lemma RestSound(env: Env, who: Caller, w: World, call: Call)
    requires Inv(w)
    requires call.CancelModule? || call.InitiateEscape? || call.EnterEscrow? || call.InitiateReclaim?
    ensures Sound(w, Dispatch(env, who, w, call), 0)
  {
    hide Sound, Step, Inv, Apply, Emit, LegalLog, Replay;
    StopSound(w, 0);
    var e :=
      if call.CancelModule? then UpdateDropped(call.role, call.a)
      else if call.InitiateEscape? then EscapeInitiated(call.a, w.header.time)
      else if call.EnterEscrow? then EscrowEntered(call.a, call.market, Max(call.listing, 0))
      else ReclaimInitiated(call.a, w.header.time);
    if Idle(w, call.a) && Legal(w.book, w.log, e) {
      ThenEmit(w, Finish(w), e);
    }
  }

  lemma PlatformSound(env: Env, who: Caller, w: World, call: Call)
    requires Inv(w)
    requires call.RegisterPlatform? || call.RotateOwner?
    ensures Sound(w, Dispatch(env, who, w, call), 0)
  {
    hide Sound, Step, Inv, Apply, Emit, LegalLog, Replay;
    StopSound(w, 0);
    if call.RegisterPlatform? {
      var e := Registered(call.a, Account(0, 0, call.owner, call.timelock, 0), call.binding);
      if Idle(w, call.a) && Legal(w.book, w.log, e) {
        ThenEmit(w, Finish(w), e);
      }
    } else {
      var e := OwnerRotated(call.a, call.owner);
      if Idle(w, call.a) && Legal(w.book, w.log, e) {
        ThenEmit(w, Finish(w), e);
      }
    }
  }

  // ---------------------------------------------------------------------------
  // Registration and module rotation
  // ---------------------------------------------------------------------------

  lemma {:induction false} RegisterSound(env: Env, who: Caller, w: World, call: Call)
    requires Inv(w) && call.Register?
    ensures Sound(w, DoRegister(env, who, w, call), 0)
    decreases call, 7
  {
    hide Sound, Step, Inv, Apply, Emit, LegalLog, Replay, SetUp;
    StopSound(w, 0);
    var e := Registered(call.a, Account(call.verifier, call.hook, call.owner, call.timelock, 0), []);
    if ValidRegistration(w, call.a, call.owner, call.timelock, call.expected) && call.a !in w.book.accounts {
      ThenEmit(w, Finish(w), e);
      RestMayConfigure(Emit(w, e), Verifier, call.a);
      SetUpSound(env, Emit(w, e), call.a, call.verifier, call.params, call.setup);
      Then(w, Finish(Emit(w, e)), SetUp(env, Emit(w, e), call.a, call.verifier, call.params, call.setup), 0);
    }
  }

  lemma UpdateIsLegal(w: World, role: Role, a: Hash, m: Hash, params: seq<Byte>)
    requires a in w.book.accounts && !Escrowed(w.book, a)
    ensures Pointer(w.book.accounts[a], role) == 0 ==> Legal(w.book, w.log, Installed(role, a, m))
    ensures Pointer(w.book.accounts[a], role) != 0 && (role, a) !in w.book.updates ==>
              Legal(w.book, w.log, UpdateRequested(role, a, m, params, w.header.time))
  {
  }

  lemma {:induction false} UpdateSound(env: Env, who: Caller, w: World, call: Call)
    requires Inv(w) && call.UpdateModule?
    ensures Sound(w, DoUpdateModule(env, who, w, call), 0)
    decreases call, 7
  {
    hide Sound, Step, Inv, Apply, Emit, Legal, LegalLog, Replay, SetUp, Frozen, Escrowed;
    StopSound(w, 0);
    var (role, a, m) := (call.role, call.a, call.module_);
    if Configurable(w, who, a) {
      UpdateIsLegal(w, role, a, m, if role.Verifier? then call.params else []);
      if Pointer(w.book.accounts[a], role) == 0 {
        var v := Emit(w, Installed(role, a, m));
        ThenEmit(w, Finish(w), Installed(role, a, m));
        RestMayConfigure(v, Verifier, a);
        SetUpSound(env, v, a, m, call.params, call.setup);
        Then(w, Finish(v), SetUp(env, v, a, m, call.params, call.setup), 0);
      } else if (role, a) !in w.book.updates {
        ThenEmit(w, Finish(w), UpdateRequested(role, a, m, if role.Verifier? then call.params else [], w.header.time));
      }
    }
  }

  /** The loaded record is still current after a cleanup, and its timer has a source. */
  lemma StillCurrent(w: World, v: World, a: Hash)
    requires Inv(w) && a in w.book.accounts && Frozen(w.book, v.book) && Extends(w.log, v.log)
    ensures var record := w.book.accounts[a];
            && Current(v.book, a, record)
            && Escrowed(v.book, a) == Escrowed(w.book, a)
            && (record.escapeAt > 0 ==> EscapeStartedAt(v.log, a, record.escapeAt))
  {
    EscapeTimerHasASource(w.log, a);
    if w.book.accounts[a].escapeAt > 0 {
      StartedLater(w.log, v.log, a, w.book.accounts[a].escapeAt);
    }
  }

  /** The end of a confirmation: configure a new verifier and drop the pending record. */
  lemma {:induction false} InstalledSound(env: Env, w: World, v: World, role: Role, a: Hash, pending: PendingUpdate, setup: Behaviour)
    requires Inv(w) && w.depth == 0 && Sound(w, Finish(v), 0) && Inv(v) && v.depth == 0
    ensures var o := if role.Verifier? then SetUp(env, v, a, pending.module_, pending.params, setup) else Finish(v);
            Sound(w, if o.exit.Done? then Finish(Emit(o.world, UpdateDropped(role, a))) else o, 0)
    decreases setup, 5
  {
    hide Sound, Step, Inv, Apply, Emit, LegalLog, Replay, SetUp;
    var o := if role.Verifier? then SetUp(env, v, a, pending.module_, pending.params, setup) else Finish(v);
    RestMayConfigure(v, Verifier, a);
    SetUpSound(env, v, a, pending.module_, pending.params, setup);
    if role.Verifier? {
      Then(w, Finish(v), o, 0);
    }
    if o.exit.Done? {
      ThenEmit(w, o, UpdateDropped(role, a));
    }
  }

  /** After the cleanup the confirmation is due as before, and the loaded record is still current. */
  lemma ConfirmationIsLegal(env: Env, w: World, v: World, role: Role, a: Hash)
    requires Inv(w) && a in w.book.accounts && (role, a) in w.book.updates && !Escrowed(w.book, a)
    requires w.header.time >= w.book.updates[(role, a)].since + CONFIG_TIMELOCK_MS
    requires Frozen(w.book, v.book) && Extends(w.log, v.log)
    requires Pointer(w.book.accounts[a], role) == 0 || CleanedSince(v.log, |w.log|, role, a, Pointer(w.book.accounts[a], role))
    ensures Legal(v.book, v.log, UpdateConfirmed(role, a, w.book.accounts[a], w.book.updates[(role, a)].module_, |w.log|, w.header.time))
  {
    hide Inv, Current, CleanedSince, EscapeStartedAt, Escrowed;
    StillCurrent(w, v, a);
  }

  lemma {:induction false} ConfirmSound(env: Env, who: Caller, w: World, call: Call)
    requires Inv(w) && call.ConfirmModule?
    ensures Sound(w, DoConfirmModule(env, who, w, call), 0)
    decreases call, 7
  {
    hide Sound, Step, Inv, Apply, Emit, LegalLog, Replay, SetUp, CleanRoot, Legal, Frozen, Escrowed, CleanedSince;
    StopSound(w, 0);
    var (role, a) := (call.role, call.a);
    if Configurable(w, who, a) && (role, a) in w.book.updates && w.header.time >= w.book.updates[(role, a)].since + CONFIG_TIMELOCK_MS {
      var pending, record := w.book.updates[(role, a)], w.book.accounts[a];
      CleanRootSound(env, w, role, a, Pointer(record, role), call.cleanup);
      var o2 := CleanRoot(env, w, role, a, Pointer(record, role), call.cleanup);
      if o2.exit.Done? {
        Arrives(w, o2, 0);
        ConfirmationIsLegal(env, w, o2.world, role, a);
        var e := UpdateConfirmed(role, a, record, pending.module_, |w.log|, w.header.time);
        ThenEmit(w, o2, e);
        InstalledSound(env, w, Emit(o2.world, e), role, a, pending, call.setup);
      }
    }
  }

  // ---------------------------------------------------------------------------
  // Staged calls
  // ---------------------------------------------------------------------------

  lemma TryConfirmSound(env: Env, w: World, role: Role, a: Hash, m: Hash, name: string, args: seq<Argument>)
    requires Inv(w) && w.depth == 0 && a in w.book.accounts && m != 0 && Pointer(w.book.accounts[a], role) == m
    requires !Escrowed(w.book, a)
    ensures var (o, confirmed) := TryConfirm(env, w, role, a, m, name, args);
            Sound(w, o, 0) && (confirmed ==> o.exit.Done?)
  {
    hide Sound, Step, Inv, Apply, Emit, LegalLog, Replay;
    StopSound(w, 0);
    var digest := Sha256(name, args);
    if (role, a) !in w.book.calls || w.book.calls[(role, a)].module_ != m || w.book.calls[(role, a)].digest != digest {
      ThenEmit(w, Finish(w), CallStaged(role, a, m, digest, w.header.time));
    } else if w.header.time >= w.book.calls[(role, a)].since + CONFIG_TIMELOCK_MS {
      ThenEmit(w, Finish(w), CallConfirmed(role, a, m, digest, w.header.time));
    }
  }

  lemma ChildrenAreLegal(env: Env, children: seq<Hash>, root: Hash, cleanable: set<Hash>)
    requires ValidChildren(env, children, root, cleanable)
    ensures Distinct(children) && |children| <= MAX_DEPENDENCIES && 0 !in children
  {
  }

  lemma RosterWritten(b: Book, role: Role, a: Hash, children: seq<Hash>, since: nat)
    ensures Apply(b, RosterSet(role, a, children, since)) == b.(rosters := b.rosters[(role, a) := children])
  {
  }

  lemma AdoptedSound(w: World, role: Role, a: Hash, children: seq<Hash>)
    requires Inv(w) && w.depth == 0 && a !in w.maintenance && (role, a) !in w.book.rosters
    requires Distinct(children) && |children| <= MAX_DEPENDENCIES && 0 !in children
    ensures var v := Emit(w, RosterSet(role, a, children, |w.log|));
            Sound(w, Finish(v), 0) && v.book == w.book.(rosters := v.book.rosters)
  {
    hide Inv, Apply, LegalLog, Replay, ViewFits;
    var e := RosterSet(role, a, children, |w.log|);
    EmitKeepsInv(w, e);
    LogGrows(w.log, e);
    RosterWritten(w.book, role, a, children, |w.log|);
    RestIsEmpty(w);
    EmitStamped(w, w, e, 0);
  }

  lemma AdoptSound(env: Env, w: World, role: Role, a: Hash, root: Hash, legacy: Reply<seq<Hash>>, cleanable: set<Hash>)
    requires Inv(w) && w.depth == 0
    ensures var o := AdoptLegacy(env, w, role, a, root, legacy, cleanable);
            && Sound(w, o, 0)
            && (o.exit.Done? ==> o.world.book == w.book.(rosters := o.world.book.rosters) && o.world.depth == 0)
  {
    hide Sound, Step, Inv, Apply, LegalLog, Replay;
    StopSound(w, 0);
    if (role, a) !in w.book.rosters && a !in w.maintenance && legacy.Answer? && legacy.value != []
       && ValidChildren(env, legacy.value, root, cleanable) {
      ChildrenAreLegal(env, legacy.value, root, cleanable);
      AdoptedSound(w, role, a, legacy.value);
    }
  }

  lemma {:induction false} CallModuleSound(env: Env, who: Caller, w: World, call: Call)
    requires Inv(w) && call.CallModule?
    ensures Sound(w, DoCallModule(env, who, w, call), 0)
    decreases call, 7
  {
    hide Sound, Step, Inv, Apply, Emit, LegalLog, Replay, AdoptLegacy, TryConfirm, Within;
    StopSound(w, 0);
    var (role, a) := (call.role, call.a);
    if call.name in AllowedMethods(role) && Configurable(w, who, a) && Pointer(w.book.accounts[a], role) != 0 {
      var root := Pointer(w.book.accounts[a], role);
      var o1 := if call.name == (if role.Verifier? then "setConfig" else "setHooks")
                then AdoptLegacy(env, w, role, a, root, call.legacy, call.cleanable) else Finish(w);
      AdoptSound(env, w, role, a, root, call.legacy, call.cleanable);
      if o1.exit.Done? {
        Arrives(w, o1, 0);
        TryConfirmSound(env, o1.world, role, a, root, call.name, call.args);
        var (o, confirmed) := TryConfirm(env, o1.world, role, a, root, call.name, call.args);
        Then(w, o1, o, 0);
        if confirmed {
          Arrives(w, o, 0);
          RestMayConfigure(o.world, role, a);
          WithinSound(env, o.world, role, a, root, call.body);
          Then(w, o, Within(env, o.world, Config(role), a, root, call.body), 0);
        }
      }
    }
  }

  lemma {:induction false} CallChildSound(env: Env, who: Caller, w: World, call: Call)
    requires Inv(w) && call.CallChild?
    ensures Sound(w, DoCallChild(env, who, w, call), 0)
    decreases call, 7
  {
    hide Sound, Step, Inv, Apply, Emit, LegalLog, Replay, TryConfirm, Within, ChildArguments, ValidTopology, ValidChildCall;
    StopSound(w, 0);
    var (role, a, child) := (call.role, call.a, call.child);
    if Configurable(w, who, a) && Pointer(w.book.accounts[a], role) != 0 && call.topology.Answer? {
      var root, t := Pointer(w.book.accounts[a], role), call.topology.value;
      var (name, args) := (ChildCallName(role), ChildArguments(role, child, call.name, call.args, t));
      TryConfirmSound(env, w, role, a, root, name, args);
      var (o, confirmed) := TryConfirm(env, w, role, a, root, name, args);
      if confirmed {
        Arrives(w, o, 0);
        RestMayConfigure(o.world, role, a);
        WithinSound(env, o.world, role, a, child, call.body);
        Then(w, o, Within(env, o.world, Config(role), a, child, call.body), 0);
      }
    }
  }

  // ---------------------------------------------------------------------------
  // Rosters
  // ---------------------------------------------------------------------------

  lemma CleanedLater(past: seq<Event>, log: seq<Event>, since: nat, role: Role, a: Hash, m: Hash)
    requires Extends(past, log) && CleanedSince(past, since, role, a, m)
    ensures CleanedSince(log, since, role, a, m)
  {
    var i :| since <= i < |past| && IsCleanup(past[i], role, a, m);
    assert log[i] == past[i];
  }

  lemma CleanedEarlier(log: seq<Event>, since: nat, after: nat, role: Role, a: Hash, m: Hash)
    requires since <= after && CleanedSince(log, after, role, a, m)
    ensures CleanedSince(log, since, role, a, m)
  {
  }

  lemma {:induction false} CleanAllSound(env: Env, w: World, role: Role, a: Hash, leaving: seq<Hash>, cleanups: seq<Behaviour>, since: nat)
    requires Inv(w) && since <= |w.log| && MayEnter(w, Config(role), a)
    ensures var o := CleanAll(env, w, role, a, leaving, cleanups);
            && Sound(w, o, 0)
            && (!o.exit.Aborted? ==> Frozen(w.book, o.world.book))
            && (o.exit.Done? ==> forall c | c in leaving :: CleanedSince(o.world.log, since, role, a, c))
    decreases cleanups, 0
  {
    hide Sound, Step, Inv, Apply, Emit, LegalLog, Replay, Cleanup;
    StopSound(w, 0);
    if leaving != [] && cleanups != [] {
      var first := Cleanup(env, w, role, a, leaving[0], cleanups[0]);
      CleanupSound(env, w, role, a, leaving[0], cleanups[0]);
      if first.exit.Done? {
        Arrives(w, first, 0);
        StillConfigurable(w, first.world, role, a);
        CleanAllSound(env, first.world, role, a, leaving[1..], cleanups[1..], since);
        var o := CleanAll(env, first.world, role, a, leaving[1..], cleanups[1..]);
        Then(w, first, o, 0);
        if o.exit.Done? {
          Arrives(first.world, o, 0);
          CleanedEarlier(first.world.log, since, |w.log|, role, a, leaving[0]);
          CleanedLater(first.world.log, o.world.log, since, role, a, leaving[0]);
          assert leaving == [leaving[0]] + leaving[1..];
        }
      }
    }
  }

  lemma {:induction false} RemovedIsTheDifference(previous: seq<Hash>, children: seq<Hash>)
    ensures forall c :: c in Removed(previous, children) <==> c in previous && c !in children
  {
    if previous != [] {
      RemovedIsTheDifference(previous[1..], children);
      assert previous == [previous[0]] + previous[1..];
    }
  }

  lemma AcquireKeepsInv(w: World, a: Hash)
    requires Inv(w)
    ensures Inv(Acquire(w, a))
  {
  }

  /** Roster maintenance may clean up: it runs at rest, or under the root's own context and no other. */
  lemma MaintenanceMayConfigure(w: World, who: Caller, role: Role, a: Hash, clearing: bool)
    requires Inv(w) && ValidDependencyCall(w, who, role, a, clearing)
    ensures MayEnter(Acquire(w, a), Config(role), a)
  {
  }

  /** A roster write under the maintenance lock touches nothing but that roster. */
  lemma RosterWrite(b: Book, e: Event)
    requires TouchesRosters(e)
    ensures Frozen(b, Apply(b, e))
    ensures forall a: Hash :: AccountKept(b, Apply(b, e), a)
    ensures forall r, a: Hash :: (r, a) != (e.role, e.a) ==> RosterKept(b, Apply(b, e), r, a)
  {
  }

  /** Taking the maintenance lock closes rosters, so whatever fits then fits before. */
  lemma ViewsWhileHeld(w: World, a: Hash, v: World)
    requires ViewsFit(Acquire(w, a), v, 0)
    ensures ViewsFit(w, v, 0)
  {
    forall k | |w.views| <= k < |v.views| ensures ViewFits(w, v.views[k], 0) {
      ViewWhileHeld(w, a, v.views[k]);
    }
  }

  lemma ViewWhileHeld(w: World, a: Hash, x: View)
    requires ViewFits(Acquire(w, a), x, 0)
    ensures ViewFits(w, x, 0)
  {
    var acquired := Acquire(w, a);
    forall r, b | !RosterOpen(w, r, b) ensures RosterKept(w.book, x.book, r, b) {
      assert !RosterOpen(acquired, r, b);
    }
    forall b | Locked(w, b) ensures StaysLocked(w.contexts, x.contexts, b) && (b != 0 ==> AccountKept(w.book, x.book, b)) {
      assert Locked(acquired, b);
    }
  }

  /** What the lock itself changes: the set of maintained accounts, so which rosters are open. */
  lemma Released(w: World, a: Hash, c: World, v: World)
    requires Inv(w) && a !in w.maintenance && Moves(Acquire(w, a), c, 0) && Inv(v)
    requires v.header == c.header
    requires v.depth == c.depth && v.contexts == c.contexts && v.maintenance == c.maintenance - {a} && Extends(c.log, v.log)
    requires c.depth > 0 ==> Frozen(c.book, v.book)
    requires forall b: Hash :: AccountKept(c.book, v.book, b)
    requires forall r, b: Hash :: !RosterOpen(w, r, b) ==> RosterKept(c.book, v.book, r, b)
    ensures Moves(w, v, 0)
  {
    hide Inv, LegalLog, Replay;
    var acquired := Acquire(w, a);
    assert v.log[..|w.log|] == c.log[..|w.log|];
    forall r, b | !RosterOpen(w, r, b) ensures RosterKept(w.book, v.book, r, b) {
      assert !RosterOpen(acquired, r, b);
    }
    forall b: Hash | Locked(w, b) && b != 0 ensures AccountKept(w.book, v.book, b) {
      assert Locked(acquired, b);
      assert AccountKept(w.book, c.book, b) && AccountKept(c.book, v.book, b);
    }
  }

  lemma Same(b: Book)
    ensures Frozen(b, b) && (forall a: Hash :: AccountKept(b, b, a)) && forall r, a: Hash :: RosterKept(b, b, r, a)
  {
  }

  lemma StampedSame(w: World, u: World, v: World, r: World)
    requires Stamped(w, v) && u.log == w.log && u.views == w.views && u.header == w.header && u.depth == w.depth && r.log == v.log && r.views == v.views
    ensures Stamped(u, r)
  {
    forall i | |u.log| <= i < |r.log| ensures StampFits(u, r.log[i], i, r.views) {
      assert StampFits(w, v.log[i], i, v.views);
    }
  }

  /** Between acquiring and releasing the maintenance lock, a sound cleanup and one roster write. */
  lemma MaintenanceSound(w: World, role: Role, a: Hash, cleaned: Outcome, e: Event)
    requires Inv(w) && RosterOpen(w, role, a)
    requires Sound(Acquire(w, a), cleaned, 0)
    requires e.RosterSet? || e.RosterCleared?
    requires e.role == role && e.a == a && e.since == |w.log|
    requires cleaned.exit.Done? ==> Legal(cleaned.world.book, cleaned.world.log, e)
    ensures Sound(w, Release(if cleaned.exit.Done? then Finish(Emit(cleaned.world, e)) else cleaned, a), 0)
  {
    hide Inv, Moves, LegalLog, Replay, Frozen, AccountKept, RosterKept, ViewFits, StampFits, Apply, Legal;
    var done := if cleaned.exit.Done? then Finish(Emit(cleaned.world, e)) else cleaned;
    var o, acquired := Release(done, a), Acquire(w, a);
    ViewsWhileHeld(w, a, cleaned.world);
    if o.exit.Aborted? {
      AbortSound(w, o, 0);
    } else {
      RosterStored(w, role, a, cleaned, e);
      if cleaned.exit.Done? {
        RosterStamps(w, a, cleaned.world, e);
      }
      StampedSame(acquired, w, done.world, o.world);
    }
  }

  lemma RosterStamps(w: World, a: Hash, c: World, e: Event)
    requires (e.RosterSet? || e.RosterCleared?) && e.since == |w.log|
    requires Stamped(Acquire(w, a), c) && ViewsFit(Acquire(w, a), c, 0) && Extends(w.log, c.log)
    ensures Stamped(Acquire(w, a), Emit(c, e))
  {
    hide ViewsFit, Stamped, Apply;
    EmitStamped(Acquire(w, a), c, e, 0);
  }

  lemma RosterStored(w: World, role: Role, a: Hash, cleaned: Outcome, e: Event)
    requires Inv(w) && RosterOpen(w, role, a) && !cleaned.exit.Aborted?
    requires Moves(Acquire(w, a), cleaned.world, 0)
    requires TouchesRosters(e) && e.role == role && e.a == a
    requires cleaned.exit.Done? ==> Legal(cleaned.world.book, cleaned.world.log, e)
    ensures var o := Release(if cleaned.exit.Done? then Finish(Emit(cleaned.world, e)) else cleaned, a);
            Moves(w, o.world, 0) && Extends(w.log, cleaned.world.log)
  {
    hide Moves, LegalLog, Replay, Frozen, AccountKept, RosterKept, Apply, Legal;
    var c := cleaned.world;
    var o := Release(if cleaned.exit.Done? then Finish(Emit(c, e)) else cleaned, a);
    MovesKeepInv(Acquire(w, a), c);
    Same(c.book);
    if cleaned.exit.Done? {
      EmitKeepsInv(c, e);
      LogGrows(c.log, e);
      RosterWrite(c.book, e);
    }
    Released(w, a, c, o.world);
  }

  lemma MovesKeepInv(w: World, v: World)
    requires Moves(w, v, 0)
    ensures Inv(v) && v.maintenance == w.maintenance && Extends(w.log, v.log)
  {
  }

  /** While the lock is held nobody else writes the account's rosters. */
  lemma RosterHeld(w: World, v: World, role: Role, a: Hash)
    requires Step(Acquire(w, a), v, 0)
    ensures Get(v.book.rosters, (role, a), []) == Get(w.book.rosters, (role, a), [])
  {
    assert !RosterOpen(Acquire(w, a), role, a);
  }

  lemma {:induction false} SetDependenciesSound(env: Env, who: Caller, w: World, call: Call)
    requires Inv(w) && call.SetDependencies?
    ensures Sound(w, DoSetDependencies(env, who, w, call), 0)
    decreases call, 7
  {
    hide Sound, Step, Inv, LegalLog, Apply, Replay, CleanAll;
    StopSound(w, 0);
    var (role, a, children) := (call.role, call.a, call.children);
    if ValidDependencyCall(w, who, role, a, false)
       && ValidChildren(env, children, Pointer(w.book.accounts[a], role), call.cleanable) && a !in w.maintenance {
      var v := Acquire(w, a);
      AcquireKeepsInv(w, a);
      var leaving := Removed(Get(v.book.rosters, (role, a), []), children);
      CleanAllSound(env, v, role, a, leaving, call.cleanups, |w.log|);
      var cleaned := CleanAll(env, v, role, a, leaving, call.cleanups);
      var e := RosterSet(role, a, children, |w.log|);
      if cleaned.exit.Done? {
        Arrives(v, cleaned, 0);
        RosterHeld(w, cleaned.world, role, a);
        RemovedIsTheDifference(Get(w.book.rosters, (role, a), []), children);
        ChildrenAreLegal(env, children, Pointer(w.book.accounts[a], role), call.cleanable);
      }
      MaintenanceSound(w, role, a, cleaned, e);
    }
  }

  lemma {:induction false} ClearDependenciesSound(env: Env, who: Caller, w: World, call: Call)
    requires Inv(w) && call.ClearDependencies?
    ensures Sound(w, DoClearDependencies(env, who, w, call), 0)
    decreases call, 7
  {
    hide Sound, Step, Inv, LegalLog, Apply, Replay, CleanAll;
    StopSound(w, 0);
    var (role, a) := (call.role, call.a);
    if ValidDependencyCall(w, who, role, a, true) && a !in w.maintenance {
      var v := Acquire(w, a);
      AcquireKeepsInv(w, a);
      StopSound(v, 0);
      var e := RosterCleared(role, a, |w.log|);
      var reply := if (role, a) in v.book.rosters then Answer(v.book.rosters[(role, a)]) else call.legacy;
      if reply.Answer? && ValidChildren(env, reply.value, Pointer(w.book.accounts[a], role), call.cleanable) {
        CleanAllSound(env, v, role, a, reply.value, call.cleanups, |w.log|);
        var cleaned := CleanAll(env, v, role, a, reply.value, call.cleanups);
        if cleaned.exit.Done? {
          Arrives(v, cleaned, 0);
          RosterHeld(w, cleaned.world, role, a);
        }
        MaintenanceSound(w, role, a, cleaned, e);
      } else if reply.Raises? {
        MaintenanceSound(w, role, a, Outcome(v, Thrown), e);
      }
    }
  }

  // ---------------------------------------------------------------------------
  // Escape and escrow
  // ---------------------------------------------------------------------------

  /** Cleaning both roots in turn. */
  lemma {:induction false} CleanBothSound(env: Env, w: World, a: Hash, record: Account, cleanV: Behaviour, cleanH: Behaviour, call: Call)
    requires Inv(w) && w.depth == 0 && cleanV < call && cleanH < call
    ensures var o2 := CleanRoot(env, w, Verifier, a, record.verifier, cleanV);
            && Sound(w, o2, 0)
            && (o2.exit.Done? ==>
                  var o3 := CleanRoot(env, o2.world, Hook, a, record.hook, cleanH);
                  && Sound(w, o3, 0)
                  && (o3.exit.Done? ==>
                        && Frozen(w.book, o3.world.book)
                        && RootCleaned(o3.world.log, |w.log|, Verifier, a, record)
                        && RootCleaned(o3.world.log, |w.log|, Hook, a, record)))
    decreases call, 6
  {
    hide Sound, Step, Inv, Apply, Emit, LegalLog, Replay, CleanRoot;
    var o2 := CleanRoot(env, w, Verifier, a, record.verifier, cleanV);
    RestMayConfigure(w, Verifier, a);
    CleanRootSound(env, w, Verifier, a, record.verifier, cleanV);
    if o2.exit.Done? {
      Arrives(w, o2, 0);
      var o3 := CleanRoot(env, o2.world, Hook, a, record.hook, cleanH);
      RestMayConfigure(o2.world, Hook, a);
      CleanRootSound(env, o2.world, Hook, a, record.hook, cleanH);
      Then(w, o2, o3, 0);
      if o3.exit.Done? && record.verifier != 0 {
        Arrives(o2.world, o3, 0);
        CleanedLater(o2.world.log, o3.world.log, |w.log|, Verifier, a, record.verifier);
      }
    }
  }

  /** The end of a recovery: configure the new verifier and sweep what was pending. */
  lemma {:induction false} RecoveredSound(env: Env, w: World, v: World, call: Call)
    requires call.FinalizeEscape? && Inv(w) && w.depth == 0 && Sound(w, Finish(v), 0) && Inv(v) && v.depth == 0
    ensures var o := SetUp(env, v, call.a, call.verifier, call.params, call.setup);
            Sound(w, if o.exit.Done? then Finish(Emit(o.world, EscapeSwept(call.a))) else o, 0)
    decreases call, 6
  {
    hide Sound, Step, Inv, Apply, Emit, LegalLog, Replay, SetUp;
    var o := SetUp(env, v, call.a, call.verifier, call.params, call.setup);
    RestMayConfigure(v, Verifier, call.a);
    SetUpSound(env, v, call.a, call.verifier, call.params, call.setup);
    Then(w, Finish(v), o, 0);
    if o.exit.Done? {
      ThenEmit(w, o, EscapeSwept(call.a));
    }
  }

  lemma {:induction false} FinalizeSound(env: Env, who: Caller, w: World, call: Call)
    requires Inv(w) && call.FinalizeEscape?
    ensures Sound(w, DoFinalizeEscape(env, who, w, call), 0)
    decreases call, 7
  {
    hide Sound, Step, Inv, Apply, Emit, LegalLog, Replay, SetUp, CleanRoot, Frozen, Escrowed, CleanedSince;
    StopSound(w, 0);
    var a := call.a;
    if a in w.book.accounts && Idle(w, a) && !Escrowed(w.book, a) && w.book.accounts[a].escapeAt > 0
       && w.header.time >= w.book.accounts[a].escapeAt + w.book.accounts[a].escapeTimelock * 1000 {
      var record := w.book.accounts[a];
      CleanBothSound(env, w, a, record, call.verifierCleanup, call.hookCleanup, call);
      var o2 := CleanRoot(env, w, Verifier, a, record.verifier, call.verifierCleanup);
      if o2.exit.Done? {
        var o3 := CleanRoot(env, o2.world, Hook, a, record.hook, call.hookCleanup);
        if o3.exit.Done? {
          Arrives(w, o3, 0);
          StillCurrent(w, o3.world, a);
          var e := EscapeFinalized(a, record, call.verifier, |w.log|, w.header.time);
          ThenEmit(w, o3, e);
          RecoveredSound(env, w, Emit(o3.world, e), call);
        }
      }
    }
  }

  lemma {:induction false} SettleSound(env: Env, who: Caller, w: World, call: Call)
    requires Inv(w) && call.SettleEscrow?
    ensures Sound(w, DoSettleEscrow(env, who, w, call), 0)
    decreases call, 7
  {
    hide Sound, Step, Inv, Apply, Emit, LegalLog, Replay, CleanRoot;
    StopSound(w, 0);
    var a := call.a;
    if ByMarket(w.book, who, a, call.listing) && Idle(w, a) && call.owner != 0 && a in w.book.accounts {
      var record := w.book.accounts[a];
      CleanBothSound(env, w, a, record, call.verifierCleanup, call.hookCleanup, call);
      var o2 := CleanRoot(env, w, Verifier, a, record.verifier, call.verifierCleanup);
      if o2.exit.Done? {
        var o3 := CleanRoot(env, o2.world, Hook, a, record.hook, call.hookCleanup);
        if o3.exit.Done? {
          Arrives(w, o3, 0);
          StillCurrent(w, o3.world, a);
          ThenEmit(w, o3, EscrowSettled(a, record, call.owner, |w.log|));
        }
      }
    }
  }

  lemma {:induction false} NotifySound(env: Env, w: World, market: Hash, listing: int, notified: Option<Behaviour>)
    requires Inv(w)
    ensures Sound(w, Notify(env, w, market, listing, notified), 0)
    decreases notified, 5
  {
    hide Sound, Step, Inv, External, Frozen;
    StopSound(w, 0);
    if notified.Some? {
      ExternalSound(env, w, notified.value);
      var o := External(env, w, notified.value);
      if !o.exit.Aborted? {
        Arrives(w, o, 0);
        StepSound(w, o.world, 0);
      }
    }
  }

  lemma {:induction false} EscrowExitSound(env: Env, who: Caller, w: World, call: Call)
    requires Inv(w) && (call.CancelEscrow? || call.Reclaim?)
    ensures Sound(w, Dispatch(env, who, w, call), 0)
    decreases call, 7
  {
    hide Sound, Step, Inv, Apply, Emit, LegalLog, Replay, Notify;
    StopSound(w, 0);
    var a := call.a;
    var e := if call.CancelEscrow? then EscrowCancelled(a) else EscrowReclaimed(a, w.header.time);
    var listing := if call.CancelEscrow? then call.listing else Get(w.book.listings, a, 0);
    if Idle(w, a) && Legal(w.book, w.log, e) {
      ThenEmit(w, Finish(w), e);
      NotifySound(env, Emit(w, e), Get(w.book.markets, a, 0), listing, call.notified);
      Then(w, Finish(Emit(w, e)), Notify(env, Emit(w, e), Get(w.book.markets, a, 0), listing, call.notified), 0);
    }
  }

  // ---------------------------------------------------------------------------
  // Execution
  // ---------------------------------------------------------------------------

  lemma SoundFor(w: World, o: Outcome, a: Hash)
    requires Inv(w) && Sound(w, o, 0)
    ensures Sound(w, o, a)
  {
    if !o.exit.Aborted? {
      StepWeaken(w, o.world, a);
    }
  }

  lemma {:induction false} RunSound(env: Env, w: World, state: Account, plan: Plan)
    requires Inv(w)
    ensures Sound(w, Run(env, w, state, plan), 0)
    decreases plan, 4
  {
    StepReflexive(w, 0);
    ExternalSound(env, w, plan.body);
    var o0 := External(env, w, plan.body);
    if o0.exit.Done? {
      var o1 := Finish(Regain(o0.world, plan.op));
      RegainSound(o0.world, plan.op, 0);
      ThenStep(w, o0.world, o1, 0);
      ExternalSound(env, o1.world, plan.postHook);
      var o2 := if state.hook != 0 then External(env, o1.world, plan.postHook) else Finish(o1.world);
      StepReflexive(o1.world, 0);
      ThenStep(w, o1.world, o2, 0);
      if o2.exit.Done? {
        ExternalSound(env, o2.world, plan.postVerifier);
        StepReflexive(o2.world, 0);
        ThenStep(w, o2.world, if state.verifier != 0 then External(env, o2.world, plan.postVerifier) else Finish(o2.world), 0);
      }
    }
  }

  lemma {:induction false} InTargetSound(env: Env, w: World, a: Hash, state: Account, plan: Plan)
    requires Inv(w) && MayEnter(w, Target, a)
    ensures Sound(w, InTarget(env, w, a, state, plan), 0)
    decreases plan, 5
  {
    var w1 := SetContext(w, Target, a, plan.op.target);
    SetContextKeepsInv(w, Target, a, plan.op.target);
    RunSound(env, w1, state, plan);
    FinallySound(w, Target, a, plan.op.target, Run(env, w1, state, plan), 0);
  }

  /** From the pre-execution hook to the end of the target phase. */
  lemma {:induction false} HookedSound(env: Env, w: World, a: Hash, state: Account, plan: Plan)
    requires Inv(w) && MayEnter(w, Target, a) && MayEnter(w, Executing(Hook), a)
    ensures Sound(w, Hooked(env, w, a, state, plan), 0)
    decreases plan, 6
  {
    hide Sound, Inv, External, InTarget, Finally, Frozen, LegalLog, Replay;
    var w7 := SetContext(w, Executing(Hook), a, state.hook);
    SetContextKeepsInv(w, Executing(Hook), a, state.hook);
    ExternalSound(env, w7, plan.pre);
    var pre := External(env, w7, plan.pre);
    if pre.exit.Aborted? {
      FinallySound(w, Executing(Hook), a, state.hook, pre, 0);
      FinallyKeeps(pre, Executing(Hook), a);
    } else if pre.exit.Thrown? {
      FinallySound(w, Executing(Hook), a, state.hook, pre, 0);
    } else {
      Arrives(w7, pre, 0);
      InTargetSound(env, pre.world, a, state, plan);
      var o := InTarget(env, pre.world, a, state, plan);
      Then(w7, pre, o, 0);
      FinallySound(w, Executing(Hook), a, state.hook, o, 0);
    }
  }

  /** The account's own writes: cancelling the escape timer and consuming the nonce. */
  lemma OwnWritesSound(w: World, a: Hash, nonce: nat)
    requires Inv(w) && Locked(w, a) && a in w.book.accounts && !Escrowed(w.book, a)
    requires NonceAcceptable(w.book, a, nonce)
    ensures var w4 := if w.book.accounts[a].escapeAt > 0 then Emit(w, EscapeCancelled(a)) else w;
            var w6 := Emit(w4, NonceConsumed(a, Channel(nonce), Sequence(nonce)));
            NonceAcceptable(w4.book, a, nonce) && Step(w, w6, a) && Inv(w6) && w6.contexts == w.contexts && w6.depth == w.depth
  {
    hide Step, Apply, LegalLog, Replay;
    StepReflexive(w, a);
    OwnWrites(w.book, EscapeCancelled(a), a);
    TimerCancelled(w.book, a);
    if w.book.accounts[a].escapeAt > 0 {
      EmitOwn(w, EscapeCancelled(a), a);
      EmitKeepsInv(w, EscapeCancelled(a));
    }
    var w4 := if w.book.accounts[a].escapeAt > 0 then Emit(w, EscapeCancelled(a)) else w;
    EmitOwn(w4, NonceConsumed(a, Channel(nonce), Sequence(nonce)), a);
    StepTransitive(w, w4, Emit(w4, NonceConsumed(a, Channel(nonce), Sequence(nonce))), a);
  }

  lemma TimerCancelled(b: Book, a: Hash)
    requires a in b.accounts
    ensures Apply(b, EscapeCancelled(a)) == b.(accounts := b.accounts[a := b.accounts[a].(escapeAt := 0)])
  {
  }

  /** What an admitted operation may have written. */
  lemma AdmitSound(env: Env, who: Caller, w: World, a: Hash, state: Account, plan: Plan)
    requires Inv(w) && Locked(w, a) && a in w.book.accounts && state == w.book.accounts[a] && !Escrowed(w.book, a)
    requires ValidOperation(plan.op)
    ensures var o := Admit(env, who, w, a, state, plan);
            && Sound(w, o, a)
            && (o.exit.Done? ==>
                  && Inv(o.world) && o.world.contexts == w.contexts && NonceAcceptable(w.book, a, plan.op.nonce)
                  && var v := if state.escapeAt > 0 then Emit(w, EscapeCancelled(a)) else w;
                     o.world == Emit(v, NonceConsumed(a, Channel(plan.op.nonce), Sequence(plan.op.nonce))))
  {
    hide Sound, Step, Inv, Apply, Emit, LegalLog, Replay;
    StopSound(w, a);
    var nonce := plan.op.nonce;
    if NonceAcceptable(w.book, a, nonce) {
      OwnWritesSound(w, a, nonce);
      var w4 := if state.escapeAt > 0 then Emit(w, EscapeCancelled(a)) else w;
      StepSound(w, Emit(w4, NonceConsumed(a, Channel(nonce), Sequence(nonce))), a);
    }
  }

  lemma {:induction false} ValidateSound(env: Env, who: Caller, w: World, a: Hash, state: Account, plan: Plan)
    requires Inv(w) && Locked(w, a) && a in w.book.accounts && state == w.book.accounts[a] && !Escrowed(w.book, a)
    requires MayEnter(w, Target, a) && MayEnter(w, Executing(Hook), a) && ValidOperation(plan.op)
    ensures Sound(w, Validate(env, who, w, a, state, plan), a)
    decreases plan, 7
  {
    hide Sound, Step, Inv, Apply, Emit, LegalLog, Replay, Admit, InTarget, Hooked;
    AdmitSound(env, who, w, a, state, plan);
    var first := Admit(env, who, w, a, state, plan);
    if first.exit.Done? {
      var v := first.world;
      var o := if state.hook == 0 then InTarget(env, v, a, state, plan) else Hooked(env, v, a, state, plan);
      InTargetSound(env, v, a, state, plan);
      HookedSound(env, v, a, state, plan);
      SoundFor(v, o, a);
      Then(w, first, o, a);
    }
  }

  lemma UnlockedIsClear(w: World, a: Hash)
    requires Inv(w) && !Locked(w, a)
    ensures (Target, a) !in w.contexts && forall role: Role :: (Executing(role), a) !in w.contexts
  {
  }

  lemma {:induction false} ExecuteSound(env: Env, who: Caller, w: World, a: Hash, plan: Plan)
    requires Inv(w)
    ensures Sound(w, ExecuteUserOp(env, who, w, a, plan), 0)
    decreases plan, 8
  {
    hide Sound, Step, Inv, Apply, Emit, LegalLog, Replay, Validate, Finally;
    StopSound(w, 0);
    if a != 0 && !Locked(w, a) && ValidOperation(plan.op) && a in w.book.accounts && !Escrowed(w.book, a) {
      var state := w.book.accounts[a];
      var w1 := SetContext(w, Lock, a, a);
      SetContextKeepsInv(w, Lock, a, a);
      UnlockedIsClear(w, a);
      if state.verifier == 0 {
        ValidateSound(env, who, w1, a, state, plan);
        FinallySound(w, Lock, a, a, Validate(env, who, w1, a, state, plan), a);
      } else {
        var w2 := SetContext(w1, Executing(Verifier), a, state.verifier);
        SetContextKeepsInv(w1, Executing(Verifier), a, state.verifier);
        ValidateSound(env, who, w2, a, state, plan);
        var o := Validate(env, who, w2, a, state, plan);
        FinallySound(w1, Executing(Verifier), a, state.verifier, o, a);
        FinallySound(w, Lock, a, a, Finally(o, Executing(Verifier), a), a);
      }
    }
  }

  lemma {:induction false} ExecuteAllSound(env: Env, who: Caller, w: World, a: Hash, plans: seq<Plan>)
    requires Inv(w)
    ensures Sound(w, ExecuteUserOps(env, who, w, a, plans), 0)
    decreases plans, 2
  {
    ExecuteEachSound(env, who, w, a, plans);
  }

  lemma {:induction false} ExecuteEachSound(env: Env, who: Caller, w: World, a: Hash, plans: seq<Plan>)
    requires Inv(w)
    ensures Sound(w, ExecuteEach(env, who, w, a, plans), 0)
    decreases plans, 1
  {
    StepReflexive(w, 0);
    if plans != [] {
      ExecuteSound(env, who, w, a, plans[0]);
      var first := ExecuteUserOp(env, who, w, a, plans[0]);
      if first.exit.Done? {
        ExecuteEachSound(env, who, first.world, a, plans[1..]);
        ThenStep(w, first.world, ExecuteEach(env, who, first.world, a, plans[1..]), 0);
      }
    }
  }

  /** The reservation's arithmetic meets the protocol's cap. */
  lemma ReserveSound(w: World, requested: nat)
    requires Inv(w)
    ensures Sound(w, Reserve(w, requested), 0)
  {
    hide Sound, Step, Inv, Apply, Emit, LegalLog, Replay;
    StopSound(w, 0);
    var reserved := ReservedBy(w.book, w.header.tx);
    var settled := SettledAmount(w.header.cost, reserved, requested);
    if settled > 0 && reserved <= VM_MAX - settled {
      if w.header.cost == 0 {
        assert settled == requested;
      } else {
        assert settled == Min(requested, w.header.cost - reserved);
      }
      ReservedSound(w, Reserved(w.header.tx, w.header.cost, requested, settled));
    }
  }

  lemma ReservedSound(w: World, e: Event)
    requires Inv(w) && e.Reserved? && e.tx == w.header.tx && e.cost == w.header.cost && Legal(w.book, w.log, e)
    ensures Sound(w, Finish(Emit(w, e)), 0)
  {
    hide Inv, Moves, Stamped, ViewsFit, Apply, Legal;
    StepReflexive(w, 0);
    EmitHarmless(w, e, 0);
    ReservedStamps(w, e);
  }

  lemma ReservedStamps(w: World, e: Event)
    requires Inv(w) && e.Reserved? && e.tx == w.header.tx && e.cost == w.header.cost
    ensures Stamped(w, Emit(w, e)) && ViewsFit(w, Emit(w, e), 0)
  {
    hide Inv, Moves, ViewFits, Apply;
    StepReflexive(w, 0);
    EmitStamped(w, w, e, 0);
  }

  lemma {:induction false} SponsorSound(env: Env, who: Caller, w: World, call: Call)
    requires Inv(w) && call.Sponsor?
    ensures Sound(w, DoSponsor(env, who, w, call), 0)
    decreases call, 7
  {
    hide Sound, Step, Inv, Apply, Emit, LegalLog, Replay, Reserve, ExecuteUserOps, ExecuteUserOp, External;
    StopSound(w, 0);
    if ValidSponsorship(call) {
      ReserveSound(w, call.amount);
      var o1 := Reserve(w, call.amount);
      if o1.exit.Done? {
        Arrives(w, o1, 0);
        var w1 := o1.world;
        StepSound(w, w1, 0);
        ExecuteAllSound(env, who, w1, call.a, call.plans);
        ExecuteSound(env, who, w1, call.a, call.plans[0]);
        var o3 := if call.batch then ExecuteUserOps(env, who, w1, call.a, call.plans)
                  else ExecuteUserOp(env, who, w1, call.a, call.plans[0]);
        Then(w, o1, o3, 0);
        if o3.exit.Done? {
          Arrives(w, o3, 0);
          ExternalSound(env, o3.world, call.settlement);
          Then(w, o3, External(env, o3.world, call.settlement), 0);
        }
      }
    }
  }
}
