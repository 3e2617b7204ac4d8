/**
 * Ownership of the process-wide terminal slot.
 *
 * Any number of threads enter the terminal, hold a guard, drop it, retry a
 * deferred restoration or run the abnormal-exit path. Each mutex critical
 * section is one atomic step; everything between two critical sections is a
 * program counter. Native calls answer through an oracle, so every call may
 * fail, and an enter may take effect and still report failure.
 */
module TerminalProtocol {
  import opened Prelude

  datatype Stage = RawMode | AlternateScreen | HideCursor | BracketedPaste

  const ENTER_STAGES: seq<Stage> := [RawMode, AlternateScreen, HideCursor, BracketedPaste]
  const CP_UTF8: nat := 65001
  const MAX_OWNER: nat := 0xFFFF_FFFF_FFFF_FFFF

  /** `switchable` says that a code-page backend is present. */
  datatype Lease = Lease(switchable: bool, acquired: bool, unicode: bool, restoreTo: Option<nat>)

  /** The shared state of one guard: obligations, cancellation and the output lease. */
  datatype Inner = Inner(entered: set<Stage>, cancelled: bool, restoreStarted: bool, restoreCount: nat, lease: Lease)

  /** What is really switched on in the terminal. */
  datatype World = World(modes: set<Stage>, page: nat)

  datatype SetOutcome = SetOk | SetFailed | SetPanicked(applied: bool)

  /** Answers of the native calls a critical section may make. */
  datatype Native = Native(
    enterOk: bool, enterApplied: bool,
    leaveOk: set<Stage>, leaveApplied: set<Stage>,
    glyphs: bool, pageKnown: bool, setPage: SetOutcome)

  datatype Slot = Vacant | Entering(owner: nat) | Active(owner: nat) | PendingGuard(owner: nat)

  /** Why a thread runs `restore`, which decides what it does with the slot afterwards. */
  datatype Why =
    | ForClaim(switchable: bool)   // a claimant retries somebody's deferred restoration
    | Rollback                     // the entry transaction is dropped
    | Explicit(holder: bool)       // `TerminalGuard::restore`
    | ForDrop                      // the guard is dropped
    | AbnormalEntering | AbnormalGuard

  datatype PC =
    | Idle
    | Claim(switchable: bool)
    | OutputCheck(o: nat) | OutputAcquire(o: nat) | OutputRecheck(o: nat)
    | StageCheck(o: nat, k: nat) | StageEnter(o: nat, k: nat) | StageRecheck(o: nat, k: nat)
    | Finish(o: nat)
    | Unwind(o: nat)
    | Guarding(o: nat)
    | Abnormal
    | RestoreModes(o: nat, why: Why)
    | RestoreOutput(o: nat, why: Why, modesRestored: bool)
    | Release(o: nat, why: Why, restored: bool)

  /** `abandoned` is the owners whose releasing thread unwound out of the restoration before it reached the slot. */
  datatype State = State(
    nextOwner: nat, slot: Slot, inners: map<nat, Inner>, world: World, threads: map<nat, PC>, abandoned: set<nat>)

  function NewInner(switchable: bool): Inner {
    Inner({}, false, false, 0, Lease(switchable, !switchable, !switchable, None))
  }

  // ----- critical sections ---------------------------------------------------

  /** `enter_stage` under the terminal-state lock: the obligation is recorded before the native call. */
  function EnterStageSection(i: Inner, w: World, g: Stage, n: Native): (r: (Inner, World, bool)) {
    if i.cancelled then (i, w, false)
    else (i.(entered := i.entered + {g}),
          if n.enterOk || n.enterApplied then w.(modes := w.modes + {g}) else w,
          n.enterOk)
  }

  /** The terminal half of `restore`: only an obligation whose leave succeeded is cleared. */
  function RestoreModesSection(i: Inner, w: World, n: Native): (r: (Inner, World, bool)) {
    var starts := i.entered != {} && !i.restoreStarted;
    (i.(entered := i.entered - n.leaveOk,
        restoreStarted := i.restoreStarted || starts,
        restoreCount := i.restoreCount + (if starts then 1 else 0)),
     w.(modes := w.modes - i.entered * (n.leaveOk + n.leaveApplied)),
     i.entered - n.leaveOk == {})
  }

  /** `Utf8OutputLease::acquire`; the last component says that the backend panicked. */
  function AcquireSection(l: Lease, w: World, n: Native): (r: (Lease, World, bool)) {
    if l.acquired then (l, w, false)
    else if !l.switchable || !n.glyphs || !n.pageKnown then (l.(acquired := true), w, false)
    else if w.page == CP_UTF8 then (l.(acquired := true, unicode := true), w, false)
    else match n.setPage
      case SetOk => (l.(acquired := true, unicode := true, restoreTo := Some(w.page)), w.(page := CP_UTF8), false)
      case SetFailed => (l.(acquired := true, restoreTo := None), w, false)
      case SetPanicked(applied) =>
        (l.(restoreTo := Some(w.page)), if applied then w.(page := CP_UTF8) else w, true)
  }

  datatype OutputResult = OutputClear | OutputOwed | OutputPanicked

  /** `Utf8OutputLease::restore`: no obligation remains, one is retained, or the backend panicked. */
  function RestoreOutputSection(l: Lease, w: World, n: Native): (r: (Lease, World, OutputResult)) {
    match l.restoreTo
    case None => (l, w, OutputClear)
    case Some(original) =>
      if !l.switchable then (l, w, OutputOwed)
      else match n.setPage
        case SetOk => (l.(restoreTo := None), w.(page := original), OutputClear)
        case SetFailed => (l, w, OutputOwed)
        case SetPanicked(applied) => (l, if applied then w.(page := original) else w, OutputPanicked)
  }

  /** `finish_entering` under the slot lock. */
  function FinishEnteringSection(slot: Slot, o: nat, restored: bool): Slot {
    if slot == Entering(o) then (if restored then Vacant else PendingGuard(o)) else slot
  }

  /** `finish_guard` under the slot lock. */
  function FinishGuardSection(slot: Slot, o: nat, restored: bool): Slot {
    if slot == Active(o) || slot == PendingGuard(o)
    then (if restored then Vacant else PendingGuard(o)) else slot
  }

  /** `clear_restored_owner` under the slot lock. */
  function ClearRestoredSection(slot: Slot, o: nat): Slot {
    if slot == Active(o) || slot == PendingGuard(o) then Vacant else slot
  }

  // ----- threads -------------------------------------------------------------

  function Pc(s: State, t: nat): PC {
    if t in s.threads then s.threads[t] else Idle
  }

  function At(s: State, t: nat, pc: PC): State {
    s.(threads := s.threads[t := pc])
  }

  /** The thread owns the entry transaction of `o`. */
  predicate IsEntry(pc: PC) {
    pc.OutputCheck? || pc.OutputAcquire? || pc.OutputRecheck? || pc.StageCheck? || pc.StageEnter?
    || pc.StageRecheck? || pc.Finish? || pc.Unwind?
    || ((pc.RestoreModes? || pc.RestoreOutput? || pc.Release?) && pc.why == Rollback)
  }

  /** The thread keeps a strong reference to guard `o` alive. */
  predicate Holds(pc: PC, o: nat) {
    pc == Guarding(o)
    || ((pc.RestoreModes? || pc.RestoreOutput? || pc.Release?)
        && pc.o == o && (pc.why == ForDrop || pc.why == Explicit(true)))
  }

  predicate Held(s: State, o: nat) {
    exists t :: t in s.threads && Holds(Pc(s, t), o)
  }

  // ----- steps ---------------------------------------------------------------

  datatype Action =
    | StartEnter(t: nat, switchable: bool)
    | StartAbnormal(t: nat)
    | StartDrop(t: nat)
    | StartExplicit(t: nat)
    | StartShared(t: nat, holder: nat)    // another thread restores through a shared guard
    | Panic(t: nat)                       // the entering thread unwinds
    | DropLease(o: nat, native: Native)   // the last reference to a guard that is not the slot's goes away
    | Step(t: nat, native: Native)

  /** `claim_active_slot`, one look at the slot. */
  function StepClaim(s: State, t: nat, switchable: bool): State {
    match s.slot
    case Vacant =>
      if s.nextOwner >= MAX_OWNER then At(s, t, Idle)
      else At(s.(nextOwner := s.nextOwner + 1, slot := Entering(s.nextOwner),
                 inners := s.inners[s.nextOwner := NewInner(switchable)]),
              t, OutputCheck(s.nextOwner))
    case Entering(_) => At(s, t, Idle)
    case Active(_) => At(s, t, Idle)
    case PendingGuard(o) => At(s, t, RestoreModes(o, ForClaim(switchable)))
  }

  /** `acquire_output`, one step at a time. */
  function StepOutput(s: State, t: nat, pc: PC, n: Native): State
    requires (pc.OutputCheck? || pc.OutputAcquire? || pc.OutputRecheck?) && pc.o in s.inners
  {
    var i := s.inners[pc.o];
    match pc
    case OutputCheck(o) => At(s, t, if i.cancelled then Unwind(o) else OutputAcquire(o))
    case OutputAcquire(o) =>
      var (l, w, panicked) := AcquireSection(i.lease, s.world, n);
      At(s.(inners := s.inners[o := i.(lease := l)], world := w), t,
         if panicked then Unwind(o) else OutputRecheck(o))
    case OutputRecheck(o) => At(s, t, if i.cancelled then Unwind(o) else StageCheck(o, 0))
  }

  /** `enter_stage`, one step at a time, for the stage number `k`. */
  function StepStage(s: State, t: nat, pc: PC, n: Native): State
    requires (pc.StageCheck? || pc.StageEnter? || pc.StageRecheck?) && pc.o in s.inners && pc.k < |ENTER_STAGES|
  {
    var i := s.inners[pc.o];
    match pc
    case StageCheck(o, k) => At(s, t, if i.cancelled then Unwind(o) else StageEnter(o, k))
    case StageEnter(o, k) =>
      var (i', w, ok) := EnterStageSection(i, s.world, ENTER_STAGES[k], n);
      At(s.(inners := s.inners[o := i'], world := w), t, if ok then StageRecheck(o, k) else Unwind(o))
    case StageRecheck(o, k) =>
      At(s, t, if i.cancelled then Unwind(o)
               else if k + 1 < |ENTER_STAGES| then StageCheck(o, k + 1) else Finish(o))
  }

  /** `EnterTransaction::finish` under the slot lock. */
  function StepFinish(s: State, t: nat, o: nat): State
    requires o in s.inners
  {
    if s.slot == Entering(o) && !s.inners[o].cancelled
    then At(s.(slot := Active(o)), t, Guarding(o))
    else At(s, t, Unwind(o))
  }

  function Cancel(s: State, o: nat): State
    requires o in s.inners
  {
    s.(inners := s.inners[o := s.inners[o].(cancelled := true)])
  }

  /** `abnormal_restore_target`; upgrading the weak reference needs a live holder. */
  function StepAbnormal(s: State, t: nat): State
    requires s.slot.Entering? ==> s.slot.owner in s.inners
  {
    match s.slot
    case Vacant => At(s, t, Idle)
    case Entering(o) => At(Cancel(s, o), t, RestoreModes(o, AbnormalEntering))
    case Active(o) => At(s, t, if Held(s, o) then RestoreModes(o, AbnormalGuard) else Idle)
    case PendingGuard(o) => At(s, t, RestoreModes(o, AbnormalGuard))
  }

  function StepRestoreModes(s: State, t: nat, o: nat, why: Why, n: Native): State
    requires o in s.inners
  {
    var (i, w, ok) := RestoreModesSection(s.inners[o], s.world, n);
    At(s.(inners := s.inners[o := i], world := w), t, RestoreOutput(o, why, ok))
  }

  /** The program counter that follows both halves of `restore`. */
  function AfterRestore(o: nat, why: Why, restored: bool): PC {
    match why
    case ForClaim(_) => if restored then Release(o, why, true) else Idle
    case AbnormalGuard => if restored then Release(o, why, true) else Idle
    case AbnormalEntering => Idle
    case Explicit(holder) => if holder then Guarding(o) else Idle
    case Rollback => Release(o, why, restored)
    case ForDrop => Release(o, why, restored)
  }

  /**
   * A panicking backend unwinds out of `restore`; a thread that unwinds with its guard still holds it until
   * the drop.
   */
  function AfterPanic(o: nat, why: Why): PC {
    if why == Explicit(true) then Guarding(o) else Idle
  }

  /** The two drops that were about to release the slot leave it as it is. */
  predicate Abandons(why: Why) { why == Rollback || why == ForDrop }

  function StepRestoreOutput(s: State, t: nat, o: nat, why: Why, modesRestored: bool, n: Native): State
    requires o in s.inners
  {
    var (l, w, r) := RestoreOutputSection(s.inners[o].lease, s.world, n);
    var s' := s.(inners := s.inners[o := s.inners[o].(lease := l)], world := w);
    if r == OutputPanicked
    then At(s'.(abandoned := if Abandons(why) then s.abandoned + {o} else s.abandoned), t, AfterPanic(o, why))
    else At(s', t, AfterRestore(o, why, modesRestored && r == OutputClear))
  }

  function StepRelease(s: State, t: nat, o: nat, why: Why, restored: bool): State {
    match why
    case ForClaim(switchable) => At(s.(slot := ClearRestoredSection(s.slot, o)), t, Claim(switchable))
    case AbnormalGuard => At(s.(slot := ClearRestoredSection(s.slot, o)), t, Idle)
    case Rollback => At(s.(slot := FinishEnteringSection(s.slot, o, restored)), t, Idle)
    case ForDrop => At(s.(slot := FinishGuardSection(s.slot, o, restored)), t, Idle)
    case _ => At(s, t, Idle)
  }

  /** Owners named by the slot or by a thread have a guard, and stage numbers are in range. */
  predicate PcWellFormed(s: State, pc: PC) {
    (pc.Idle? || pc.Claim? || pc.Abnormal? || pc.o in s.inners)
    && ((pc.StageCheck? || pc.StageEnter? || pc.StageRecheck?) ==> pc.k < |ENTER_STAGES|)
  }

  predicate SlotWellFormed(s: State) {
    s.slot.Vacant? || s.slot.owner in s.inners
  }

  ghost predicate WellFormed(s: State) {
    SlotWellFormed(s) && forall t :: PcWellFormed(s, Pc(s, t))
  }

  function StepThread(s: State, t: nat, n: Native): State
    requires WellFormed(s)
  {
    assert PcWellFormed(s, Pc(s, t));
    match Pc(s, t)
    case Idle => s
    case Guarding(_) => s
    case Claim(switchable) => StepClaim(s, t, switchable)
    case OutputCheck(_) => StepOutput(s, t, Pc(s, t), n)
    case OutputAcquire(_) => StepOutput(s, t, Pc(s, t), n)
    case OutputRecheck(_) => StepOutput(s, t, Pc(s, t), n)
    case StageCheck(_, _) => StepStage(s, t, Pc(s, t), n)
    case StageEnter(_, _) => StepStage(s, t, Pc(s, t), n)
    case StageRecheck(_, _) => StepStage(s, t, Pc(s, t), n)
    case Finish(o) => StepFinish(s, t, o)
    case Unwind(o) => At(Cancel(s, o), t, RestoreModes(o, Rollback))
    case Abnormal => StepAbnormal(s, t)
    case RestoreModes(o, why) => StepRestoreModes(s, t, o, why, n)
    case RestoreOutput(o, why, modesRestored) => StepRestoreOutput(s, t, o, why, modesRestored, n)
    case Release(o, why, restored) => StepRelease(s, t, o, why, restored)
  }

  /** One action; an action that is not enabled changes nothing. */
  function Apply(s: State, a: Action): State
    requires WellFormed(s)
  {
    match a
    case StartEnter(t, switchable) => if Pc(s, t).Idle? then At(s, t, Claim(switchable)) else s
    case StartAbnormal(t) => if Pc(s, t).Idle? then At(s, t, Abnormal) else s
    case StartDrop(t) =>
      if Pc(s, t).Guarding? then At(s, t, RestoreModes(Pc(s, t).o, ForDrop)) else s
    case StartExplicit(t) =>
      if Pc(s, t).Guarding? then At(s, t, RestoreModes(Pc(s, t).o, Explicit(true))) else s
    case StartShared(t, holder) =>
      if Pc(s, t).Idle? && Pc(s, holder).Guarding?
      then At(s, t, RestoreModes(Pc(s, holder).o, Explicit(false))) else s
    case Panic(t) =>
      if IsEntry(Pc(s, t)) && !Pc(s, t).RestoreModes? && !Pc(s, t).RestoreOutput? && !Pc(s, t).Release?
      then (assert PcWellFormed(s, Pc(s, t)); At(s, t, Unwind(Pc(s, t).o))) else s
    case DropLease(o, n) =>
      if o in s.inners && (s.slot.Vacant? || s.slot.owner != o || (s.slot.Active? && !Held(s, o)))
      then
        var (l, w, _) := RestoreOutputSection(s.inners[o].lease, s.world, n);
        s.(inners := s.inners[o := s.inners[o].(lease := l)], world := w)
      else s
    case Step(t, n) => StepThread(s, t, n)
  }

  ghost function Run(s: State, actions: seq<Action>): State
    requires WellFormed(s)
    decreases |actions|
  {
    if actions == [] then s
    else
      var s' := Apply(s, actions[0]);
      if WellFormed(s') then Run(s', actions[1..]) else s'
  }

  function Init(base: nat): State {
    State(1, Vacant, map[], World({}, base), map[], {})
  }

  // ----- the invariant -------------------------------------------------------

  predicate Clean(i: Inner) {
    i.entered == {} && i.lease.restoreTo == None
  }

  /** Modes and page are accounted for by the guard that the slot names, and by nobody else. */
  predicate Accounted(s: State, base: nat)
    requires SlotWellFormed(s)
  {
    if s.slot.Vacant? then s.world == World({}, base)
    else
      var i := s.inners[s.slot.owner];
      s.world.modes <= i.entered
      && match i.lease.restoreTo
         case None => s.world.page == base
         case Some(original) => original == base && (s.world.page == base || s.world.page == CP_UTF8)
  }

  /** What a thread at `pc` may rely on. */
  predicate PcOk(s: State, pc: PC) {
    PcWellFormed(s, pc)
    && (IsEntry(pc) ==> s.slot == Entering(pc.o))
    && ((pc.OutputCheck? || pc.OutputAcquire?) ==> s.inners[pc.o].lease.restoreTo == None)
    && (pc.Guarding? ==> s.slot != Entering(pc.o) && !s.inners[pc.o].cancelled)
    && ((pc.RestoreModes? || pc.RestoreOutput? || pc.Release?) ==>
          ((pc.why.ForClaim? || pc.why.Explicit? || pc.why.ForDrop? || pc.why.AbnormalGuard?) ==>
             s.slot != Entering(pc.o))
          && (pc.why == ForDrop || pc.why == Explicit(true) ==> !s.inners[pc.o].cancelled)
          && (pc.why == AbnormalEntering ==> s.inners[pc.o].cancelled))
    && (pc.RestoreOutput? && pc.modesRestored && pc.why != AbnormalEntering ==> s.inners[pc.o].entered == {})
    && (pc.Release? ==>
          && !pc.why.Explicit? && !pc.why.AbnormalEntering?
          && (pc.why.ForClaim? || pc.why.AbnormalGuard? ==> pc.restored)
          && (pc.restored ==> Clean(s.inners[pc.o])))
  }

  ghost predicate ThreadsOk(s: State) {
    && (forall t :: PcOk(s, Pc(s, t)))
    && (forall t, u :: IsEntry(Pc(s, t)) && IsEntry(Pc(s, u)) ==> t == u)
  }

  ghost predicate SlotOk(s: State)
    requires SlotWellFormed(s)
  {
    && (s.slot.Active? ==>
          !s.inners[s.slot.owner].cancelled && (Held(s, s.slot.owner) || s.slot.owner in s.abandoned))
    && (s.slot.Entering? ==> (exists t :: IsEntry(Pc(s, t))) || s.slot.owner in s.abandoned)
  }

  predicate InnersOk(s: State) {
    && (forall o | o in s.inners :: o < s.nextOwner)
    && (forall o | o in s.inners :: s.slot.Vacant? || s.slot.owner != o ==> Clean(s.inners[o]))
    && (forall o | o in s.inners && s.inners[o].lease.restoreTo.Some? :: s.inners[o].lease.switchable)
    && (forall o | o in s.inners :: s.inners[o].restoreCount == if s.inners[o].restoreStarted then 1 else 0)
  }

  ghost predicate Inv(s: State, base: nat) {
    SlotWellFormed(s) && Accounted(s, base) && ThreadsOk(s) && SlotOk(s) && InnersOk(s)
  }

  lemma InvIsWellFormed(s: State, base: nat)
    requires Inv(s, base)
    ensures WellFormed(s)
  {
    forall t ensures PcWellFormed(s, Pc(s, t)) { assert PcOk(s, Pc(s, t)); }
  }

  // ----- every step keeps the invariant --------------------------------------

  /** Whatever another thread relies on survives the move from `s` to `s'` by a thread at `pc0`. */
  ghost predicate OthersKeep(s: State, s': State, pc0: PC) {
    forall pc :: PcOk(s, pc) && !(IsEntry(pc) && IsEntry(pc0)) ==> PcOk(s', pc)
  }

  /** The proof obligations of one thread's step, apart from the other threads' own. */
  lemma Keep(s: State, s': State, t: nat, pc': PC, base: nat)
    requires Inv(s, base)
    requires s'.threads == s.threads[t := pc'] && s.abandoned <= s'.abandoned
    requires SlotWellFormed(s') && Accounted(s', base) && InnersOk(s')
    requires PcOk(s', pc') && OthersKeep(s, s', Pc(s, t))
    requires IsEntry(pc') ==> IsEntry(Pc(s, t)) || !s.slot.Entering?
    requires s'.slot.Active? ==>
      && !s'.inners[s'.slot.owner].cancelled
      && (|| Holds(pc', s'.slot.owner) || s'.slot.owner in s'.abandoned
          || (s'.slot == s.slot && !Holds(Pc(s, t), s.slot.owner)))
    requires s'.slot.Entering? ==>
      || IsEntry(pc') || s'.slot.owner in s'.abandoned || (s'.slot == s.slot && !IsEntry(Pc(s, t)))
    ensures Inv(s', base)
  {
    forall u ensures PcOk(s', Pc(s', u)) { assert PcOk(s, Pc(s, u)); }
    forall u, v | IsEntry(Pc(s', u)) && IsEntry(Pc(s', v)) ensures u == v {
      assert PcOk(s, Pc(s, u)) && PcOk(s, Pc(s, v));
    }
    if s'.slot.Active? && s'.slot.owner !in s'.abandoned {
      KeepHeld(s, s', t, pc', base);
    }
    if s'.slot.Entering? && s'.slot.owner !in s'.abandoned {
      KeepEntered(s, s', t, pc', base);
    }
  }

  lemma KeepHeld(s: State, s': State, t: nat, pc': PC, base: nat)
    requires Inv(s, base) && s'.threads == s.threads[t := pc'] && s'.slot.Active?
    requires s.abandoned <= s'.abandoned && s'.slot.owner !in s'.abandoned
    requires Holds(pc', s'.slot.owner) || (s'.slot == s.slot && !Holds(Pc(s, t), s.slot.owner))
    ensures Held(s', s'.slot.owner)
  {
    if Holds(pc', s'.slot.owner) {
      assert Holds(Pc(s', t), s'.slot.owner);
    } else {
      var u :| Holds(Pc(s, u), s.slot.owner);
      assert Holds(Pc(s', u), s'.slot.owner);
    }
  }

  lemma KeepEntered(s: State, s': State, t: nat, pc': PC, base: nat)
    requires Inv(s, base) && s'.threads == s.threads[t := pc'] && s'.slot.Entering?
    requires s.abandoned <= s'.abandoned && s'.slot.owner !in s'.abandoned
    requires IsEntry(pc') || (s'.slot == s.slot && !IsEntry(Pc(s, t)))
    ensures exists u :: IsEntry(Pc(s', u))
  {
    if IsEntry(pc') {
      assert IsEntry(Pc(s', t));
    } else {
      var u :| IsEntry(Pc(s, u));
      assert IsEntry(Pc(s', u));
    }
  }

  /** Moving one thread to `pc'` without touching anything else. */
  lemma MoveKeeps(s: State, t: nat, pc': PC, base: nat)
    requires Inv(s, base) && PcOk(s, pc') && (IsEntry(Pc(s, t)) <==> IsEntry(pc'))
    requires forall o :: Holds(Pc(s, t), o) ==> Holds(pc', o)
    ensures Inv(At(s, t, pc'), base)
  {
    Keep(s, At(s, t, pc'), t, pc', base);
  }

  lemma ClaimVacantKeeps(s: State, t: nat, switchable: bool, base: nat)
    requires Inv(s, base) && Pc(s, t) == Claim(switchable) && s.slot.Vacant? && s.nextOwner < MAX_OWNER
    ensures Inv(StepClaim(s, t, switchable), base)
  {
    var s' := StepClaim(s, t, switchable);
    Keep(s, s', t, OutputCheck(s.nextOwner), base);
  }

  lemma StepClaimKeeps(s: State, t: nat, switchable: bool, base: nat)
    requires Inv(s, base) && Pc(s, t) == Claim(switchable)
    ensures Inv(StepClaim(s, t, switchable), base)
  {
    match s.slot
    case Vacant =>
      if s.nextOwner < MAX_OWNER { ClaimVacantKeeps(s, t, switchable, base); } else { MoveKeeps(s, t, Idle, base); }
    case Entering(_) => MoveKeeps(s, t, Idle, base);
    case Active(_) => MoveKeeps(s, t, Idle, base);
    case PendingGuard(o) => MoveKeeps(s, t, RestoreModes(o, ForClaim(switchable)), base);
  }

  lemma StepOutputKeeps(s: State, t: nat, n: Native, base: nat)
    requires Inv(s, base)
    requires Pc(s, t).OutputCheck? || Pc(s, t).OutputAcquire? || Pc(s, t).OutputRecheck?
    ensures PcOk(s, Pc(s, t)) && Inv(StepOutput(s, t, Pc(s, t), n), base)
  {
    assert PcOk(s, Pc(s, t));
    var s' := StepOutput(s, t, Pc(s, t), n);
    Keep(s, s', t, Pc(s', t), base);
  }

  lemma StepStageKeeps(s: State, t: nat, n: Native, base: nat)
    requires Inv(s, base)
    requires Pc(s, t).StageCheck? || Pc(s, t).StageEnter? || Pc(s, t).StageRecheck?
    ensures PcOk(s, Pc(s, t)) && Inv(StepStage(s, t, Pc(s, t), n), base)
  {
    assert PcOk(s, Pc(s, t));
    var s' := StepStage(s, t, Pc(s, t), n);
    Keep(s, s', t, Pc(s', t), base);
  }

  lemma StepFinishKeeps(s: State, t: nat, base: nat)
    requires Inv(s, base) && Pc(s, t).Finish?
    ensures PcOk(s, Pc(s, t)) && Inv(StepFinish(s, t, Pc(s, t).o), base)
  {
    assert PcOk(s, Pc(s, t));
    var s' := StepFinish(s, t, Pc(s, t).o);
    Keep(s, s', t, Pc(s', t), base);
  }

  lemma StepUnwindKeeps(s: State, t: nat, base: nat)
    requires Inv(s, base) && Pc(s, t).Unwind?
    ensures PcOk(s, Pc(s, t))
    ensures Inv(At(Cancel(s, Pc(s, t).o), t, RestoreModes(Pc(s, t).o, Rollback)), base)
  {
    assert PcOk(s, Pc(s, t));
    var s' := At(Cancel(s, Pc(s, t).o), t, RestoreModes(Pc(s, t).o, Rollback));
    Keep(s, s', t, Pc(s', t), base);
  }

  lemma CancelEntryKeeps(s: State, t: nat, base: nat)
    requires Inv(s, base) && Pc(s, t).Abnormal? && s.slot.Entering?
    ensures Inv(At(Cancel(s, s.slot.owner), t, RestoreModes(s.slot.owner, AbnormalEntering)), base)
  {
    var pc' := RestoreModes(s.slot.owner, AbnormalEntering);
    Keep(s, At(Cancel(s, s.slot.owner), t, pc'), t, pc', base);
  }

  lemma StepAbnormalKeeps(s: State, t: nat, base: nat)
    requires Inv(s, base) && Pc(s, t).Abnormal?
    ensures Inv(StepAbnormal(s, t), base)
  {
    match s.slot
    case Vacant => MoveKeeps(s, t, Idle, base);
    case Entering(_) => CancelEntryKeeps(s, t, base);
    case Active(o) => MoveKeeps(s, t, if Held(s, o) then RestoreModes(o, AbnormalGuard) else Idle, base);
    case PendingGuard(o) => MoveKeeps(s, t, RestoreModes(o, AbnormalGuard), base);
  }

  /** Owing less, with the same slot, takes nothing away from the other threads. */
  lemma LessOwed(s: State, s': State, o: nat, pc0: PC)
    requires o in s.inners && s'.slot == s.slot && s'.inners.Keys == s.inners.Keys
    requires forall u | u in s.inners && u != o :: s'.inners[u] == s.inners[u]
    requires s'.inners[o].entered <= s.inners[o].entered
    requires s'.inners[o].cancelled == s.inners[o].cancelled
    requires s.inners[o].lease.restoreTo == None ==> s'.inners[o].lease.restoreTo == None
    ensures OthersKeep(s, s', pc0)
  {
  }

  lemma StepRestoreModesKeeps(s: State, t: nat, n: Native, base: nat)
    requires Inv(s, base) && Pc(s, t).RestoreModes?
    ensures PcOk(s, Pc(s, t)) && Inv(StepRestoreModes(s, t, Pc(s, t).o, Pc(s, t).why, n), base)
  {
    assert PcOk(s, Pc(s, t));
    var s' := StepRestoreModes(s, t, Pc(s, t).o, Pc(s, t).why, n);
    LessOwed(s, s', Pc(s, t).o, Pc(s, t));
    Keep(s, s', t, Pc(s', t), base);
  }

  lemma StepRestoreOutputKeeps(s: State, t: nat, n: Native, base: nat)
    requires Inv(s, base) && Pc(s, t).RestoreOutput?
    ensures PcOk(s, Pc(s, t))
    ensures Inv(StepRestoreOutput(s, t, Pc(s, t).o, Pc(s, t).why, Pc(s, t).modesRestored, n), base)
  {
    var pc := Pc(s, t);
    assert PcOk(s, pc);
    var s' := StepRestoreOutput(s, t, pc.o, pc.why, pc.modesRestored, n);
    LessOwed(s, s', pc.o, pc);
    OutputAccounted(s, t, n, base);
    var (_, _, r) := RestoreOutputSection(s.inners[pc.o].lease, s.world, n);
    if r == OutputPanicked {
      AfterPanicOk(s, s', pc);
      Keep(s, s', t, AfterPanic(pc.o, pc.why), base);
    } else {
      AfterRestoreOk(s, s', pc, pc.modesRestored && r == OutputClear);
      Keep(s, s', t, AfterRestore(pc.o, pc.why, pc.modesRestored && r == OutputClear), base);
    }
  }

  lemma AfterPanicOk(s: State, s': State, pc: PC)
    requires pc.RestoreOutput? && PcOk(s, pc) && PcWellFormed(s', pc) && s'.slot == s.slot
    requires s'.inners[pc.o].cancelled == s.inners[pc.o].cancelled
    ensures var pc' := AfterPanic(pc.o, pc.why);
      && PcOk(s', pc') && !IsEntry(pc') && (IsEntry(pc) ==> pc.why == Rollback && s.slot == Entering(pc.o))
      && forall o :: Holds(pc, o) ==> o == pc.o && (Holds(pc', o) || pc.why == ForDrop)
  {
  }

  lemma AfterRestoreOk(s: State, s': State, pc: PC, restored: bool)
    requires pc.RestoreOutput? && PcOk(s, pc) && PcWellFormed(s', pc) && s'.slot == s.slot
    requires s'.inners[pc.o].cancelled == s.inners[pc.o].cancelled
    requires restored && pc.why != AbnormalEntering ==> Clean(s'.inners[pc.o])
    ensures var pc' := AfterRestore(pc.o, pc.why, restored);
      PcOk(s', pc') && (IsEntry(pc') <==> IsEntry(pc)) && (forall o :: Holds(pc, o) ==> Holds(pc', o))
  {
  }

  lemma OutputAccounted(s: State, t: nat, n: Native, base: nat)
    requires Inv(s, base) && Pc(s, t).RestoreOutput? && PcOk(s, Pc(s, t))
    ensures var s' := StepRestoreOutput(s, t, Pc(s, t).o, Pc(s, t).why, Pc(s, t).modesRestored, n);
      SlotWellFormed(s') && Accounted(s', base) && InnersOk(s')
  {
  }

  /** The owner's obligations are gone, so nobody minds when the slot is vacated. */
  lemma VacateKeeps(s: State, t: nat, pc': PC, base: nat)
    requires Inv(s, base) && Pc(s, t).Release? && Pc(s, t).restored && PcOk(s, Pc(s, t))
    requires !s.slot.Vacant? && s.slot.owner == Pc(s, t).o && (s.slot.Entering? ==> Pc(s, t).why == Rollback)
    requires pc'.Idle? || pc'.Claim?
    ensures Inv(At(s.(slot := Vacant), t, pc'), base)
  {
    assert s.world.modes == {};
    Keep(s, At(s.(slot := Vacant), t, pc'), t, pc', base);
  }

  lemma DeferKeeps(s: State, t: nat, base: nat)
    requires Inv(s, base) && Pc(s, t).Release? && PcOk(s, Pc(s, t))
    requires !s.slot.Vacant? && s.slot.owner == Pc(s, t).o && (s.slot.Entering? ==> Pc(s, t).why == Rollback)
    requires s.slot.Active? ==> Pc(s, t).why == ForDrop
    ensures Inv(At(s.(slot := PendingGuard(s.slot.owner)), t, Idle), base)
  {
    Keep(s, At(s.(slot := PendingGuard(s.slot.owner)), t, Idle), t, Idle, base);
  }

  /** The slot is somebody else's by now. */
  lemma NotMineKeeps(s: State, t: nat, pc': PC, base: nat)
    requires Inv(s, base) && Pc(s, t).Release? && PcOk(s, Pc(s, t)) && Pc(s, t).why != Rollback
    requires (s.slot != Active(Pc(s, t).o) && s.slot != PendingGuard(Pc(s, t).o))
    requires pc'.Idle? || pc'.Claim?
    ensures Inv(At(s, t, pc'), base)
  {
    Keep(s, At(s, t, pc'), t, pc', base);
  }

  lemma StepReleaseKeeps(s: State, t: nat, base: nat)
    requires Inv(s, base) && Pc(s, t).Release?
    ensures Inv(StepRelease(s, t, Pc(s, t).o, Pc(s, t).why, Pc(s, t).restored), base)
  {
    var pc := Pc(s, t);
    assert PcOk(s, pc);
    var pc' := if pc.why.ForClaim? then Claim(pc.why.switchable) else Idle;
    if pc.why != Rollback && s.slot != Active(pc.o) && s.slot != PendingGuard(pc.o) {
      NotMineKeeps(s, t, pc', base);
    } else if pc.restored {
      VacateKeeps(s, t, pc', base);
    } else {
      DeferKeeps(s, t, base);
    }
  }

  lemma StepThreadKeeps(s: State, t: nat, n: Native, base: nat)
    requires Inv(s, base) && WellFormed(s)
    ensures Inv(StepThread(s, t, n), base)
  {
    match Pc(s, t)
    case Idle =>
    case Guarding(_) =>
    case Claim(switchable) => StepClaimKeeps(s, t, switchable, base);
    case OutputCheck(_) => StepOutputKeeps(s, t, n, base);
    case OutputAcquire(_) => StepOutputKeeps(s, t, n, base);
    case OutputRecheck(_) => StepOutputKeeps(s, t, n, base);
    case StageCheck(_, _) => StepStageKeeps(s, t, n, base);
    case StageEnter(_, _) => StepStageKeeps(s, t, n, base);
    case StageRecheck(_, _) => StepStageKeeps(s, t, n, base);
    case Finish(_) => StepFinishKeeps(s, t, base);
    case Unwind(_) => StepUnwindKeeps(s, t, base);
    case Abnormal => StepAbnormalKeeps(s, t, base);
    case RestoreModes(_, _) => StepRestoreModesKeeps(s, t, n, base);
    case RestoreOutput(_, _, _) => StepRestoreOutputKeeps(s, t, n, base);
    case Release(_, _, _) => StepReleaseKeeps(s, t, base);
  }

  lemma StartRestoreKeeps(s: State, a: Action, base: nat)
    requires Inv(s, base) && WellFormed(s) && (a.StartDrop? || a.StartExplicit? || a.StartShared?)
    ensures Inv(Apply(s, a), base)
  {
    assert PcOk(s, Pc(s, a.t));
    match a
    case StartDrop(t) =>
      if Pc(s, t).Guarding? { MoveKeeps(s, t, RestoreModes(Pc(s, t).o, ForDrop), base); }
    case StartExplicit(t) =>
      if Pc(s, t).Guarding? { MoveKeeps(s, t, RestoreModes(Pc(s, t).o, Explicit(true)), base); }
    case StartShared(t, holder) =>
      assert PcOk(s, Pc(s, holder));
      if Pc(s, t).Idle? && Pc(s, holder).Guarding? {
        MoveKeeps(s, t, RestoreModes(Pc(s, holder).o, Explicit(false)), base);
      }
  }

  lemma StartKeeps(s: State, a: Action, base: nat)
    requires Inv(s, base) && WellFormed(s) && (a.StartEnter? || a.StartAbnormal? || a.Panic?)
    ensures Inv(Apply(s, a), base)
  {
    assert PcOk(s, Pc(s, a.t));
    match a
    case StartEnter(t, switchable) => if Pc(s, t).Idle? { MoveKeeps(s, t, Claim(switchable), base); }
    case StartAbnormal(t) => if Pc(s, t).Idle? { MoveKeeps(s, t, Abnormal, base); }
    case Panic(t) => if Apply(s, a) != s { MoveKeeps(s, t, Unwind(Pc(s, t).o), base); }
  }

  /** A released guard has nothing left to restore when its last reference goes away. */
  lemma DropLeaseIsSilent(s: State, o: nat, n: Native, base: nat)
    requires Inv(s, base) && WellFormed(s) && !(s.slot.Active? && s.slot.owner == o)
    ensures Apply(s, DropLease(o, n)) == s
  {
    if o in s.inners && (s.slot.Vacant? || s.slot.owner != o) {
      assert Clean(s.inners[o]);
      assert s.inners[o := s.inners[o]] == s.inners;
    }
  }

  /** The lease of an abandoned guard is restored, or not, when its last reference goes away. */
  lemma DropLeaseKeeps(s: State, o: nat, n: Native, base: nat)
    requires Inv(s, base) && WellFormed(s)
    ensures Inv(Apply(s, DropLease(o, n)), base)
  {
    if s.slot == Active(o) && !Held(s, o) {
      var s' := Apply(s, DropLease(o, n));
      forall t ensures PcOk(s', Pc(s', t)) {
        assert PcOk(s, Pc(s, t));
        LessOwed(s, s', o, Idle);
      }
      assert forall t :: Pc(s', t) == Pc(s, t);
    } else if s.slot != Active(o) {
      DropLeaseIsSilent(s, o, n, base);
    }
  }

  /** One action of any thread, with any native outcome, keeps the invariant. */
  lemma ApplyKeeps(s: State, a: Action, base: nat)
    requires Inv(s, base)
    ensures WellFormed(s) && Inv(Apply(s, a), base)
  {
    InvIsWellFormed(s, base);
    match a
    case Step(t, n) => StepThreadKeeps(s, t, n, base);
    case DropLease(o, n) => DropLeaseKeeps(s, o, n, base);
    case StartEnter(_, _) => StartKeeps(s, a, base);
    case StartAbnormal(_) => StartKeeps(s, a, base);
    case Panic(_) => StartKeeps(s, a, base);
    case _ => StartRestoreKeeps(s, a, base);
  }
}
