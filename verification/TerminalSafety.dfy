/** What holds over every run of the terminal ownership protocol. */
module TerminalSafety {
  import opened Prelude
  import opened TerminalProtocol

  lemma {:induction false} RunKeeps(s: State, actions: seq<Action>, base: nat)
    requires Inv(s, base)
    ensures WellFormed(s) && Inv(Run(s, actions), base)
    decreases |actions|
  {
    InvIsWellFormed(s, base);
    if actions != [] {
      ApplyKeeps(s, actions[0], base);
      InvIsWellFormed(Apply(s, actions[0]), base);
      RunKeeps(Apply(s, actions[0]), actions[1..], base);
    }
  }

  lemma InitHolds(base: nat)
    ensures WellFormed(Init(base)) && Inv(Init(base), base)
  {
    var s := Init(base);
    forall t ensures PcOk(s, Pc(s, t)) {}
    InvIsWellFormed(s, base);
  }

  ghost predicate Reachable(base: nat, s: State) {
    WellFormed(Init(base)) && exists actions :: s == Run(Init(base), actions)
  }

  lemma ReachableKeeps(base: nat, s: State)
    requires Reachable(base, s)
    ensures Inv(s, base) && WellFormed(s)
  {
    var actions :| s == Run(Init(base), actions);
    InitHolds(base);
    RunKeeps(Init(base), actions, base);
    InvIsWellFormed(s, base);
  }

  lemma {:induction false} RunConcat(s: State, a: seq<Action>, b: seq<Action>, base: nat)
    requires Inv(s, base)
    ensures WellFormed(s) && WellFormed(Run(s, a))
    ensures Run(s, a + b) == Run(Run(s, a), b)
    decreases |a|
  {
    RunKeeps(s, a, base);
    InvIsWellFormed(Run(s, a), base);
    if a == [] {
      assert a + b == b;
    } else {
      ApplyKeeps(s, a[0], base);
      InvIsWellFormed(Apply(s, a[0]), base);
      assert (a + b)[0] == a[0] && (a + b)[1..] == a[1..] + b;
      RunConcat(Apply(s, a[0]), a[1..], b, base);
    }
  }

  lemma RunAppend(s: State, actions: seq<Action>, a: Action, base: nat)
    requires Inv(s, base)
    ensures WellFormed(s) && WellFormed(Run(s, actions))
    ensures Run(s, actions + [a]) == Apply(Run(s, actions), a)
    ensures Inv(Run(s, actions), base) && Inv(Run(s, actions + [a]), base)
  {
    RunConcat(s, actions, [a], base);
    RunKeeps(s, actions, base);
    assert [a][1..] == [];
    ApplyKeeps(Run(s, actions), a, base);
  }

  lemma ReachStep(base: nat, s: State, a: Action)
    requires Reachable(base, s)
    ensures WellFormed(s) && Reachable(base, Apply(s, a))
  {
    ReachableKeeps(base, s);
    var actions :| s == Run(Init(base), actions);
    InitHolds(base);
    RunAppend(Init(base), actions, a, base);
    assert Apply(s, a) == Run(Init(base), actions + [a]);
  }

  /** A vacant slot means that the terminal is as it was before anybody entered it. */
  lemma VacantMeansRestored(base: nat, s: State)
    requires Reachable(base, s) && s.slot.Vacant?
    ensures s.world == World({}, base)
  {
    ReachableKeeps(base, s);
  }

  /**
   * Every mode that is on and every page that is switched is an obligation of
   * the guard the slot names, and no other guard has any obligation.
   */
  lemma ObligationsBelongToTheSlot(base: nat, s: State)
    requires Reachable(base, s)
    ensures forall o | o in s.inners && !Clean(s.inners[o]) :: !s.slot.Vacant? && s.slot.owner == o
    ensures forall g | g in s.world.modes ::
      !s.slot.Vacant? && s.slot.owner in s.inners && g in s.inners[s.slot.owner].entered
    ensures s.world.page != base ==>
      !s.slot.Vacant? && s.slot.owner in s.inners && s.inners[s.slot.owner].lease.restoreTo == Some(base)
  {
    ReachableKeeps(base, s);
  }

  /** One cleanup sequence at most is counted for a guard, however often it is restored. */
  lemma CleanupStartsOnce(base: nat, s: State)
    requires Reachable(base, s)
    ensures forall o | o in s.inners :: s.inners[o].restoreCount <= 1
  {
    ReachableKeeps(base, s);
  }

  lemma CountsOtherwise(s: State, t: nat, n: Native, o: nat)
    requires WellFormed(s) && o in s.inners && !Pc(s, t).RestoreModes?
    requires s.slot.Vacant? ==> s.nextOwner !in s.inners
    ensures o in StepThread(s, t, n).inners && StepThread(s, t, n).inners[o].restoreCount == s.inners[o].restoreCount
  {
    assert PcWellFormed(s, Pc(s, t));
  }

  /** The cleanup of a guard is counted by the first restoration that finds a mode to leave, and by nothing else. */
  lemma CleanupIsCounted(base: nat, s: State, a: Action, o: nat)
    requires Reachable(base, s) && o in s.inners
    ensures WellFormed(s) && o in Apply(s, a).inners
    ensures Apply(s, a).inners[o].restoreCount == 1 <==>
      || s.inners[o].restoreCount == 1
      || (a.Step? && Pc(s, a.t).RestoreModes? && Pc(s, a.t).o == o && s.inners[o].entered != {})
  {
    ReachableKeeps(base, s);
    if a.Step? {
      assert PcOk(s, Pc(s, a.t));
      if !Pc(s, a.t).RestoreModes? { CountsOtherwise(s, a.t, a.native, o); }
    }
  }

  // ----- who holds an active guard -------------------------------------------

  /** A guard has one holder at most, and an abandoned one has neither a holder nor an enterer. */
  ghost predicate Lone(s: State) {
    && (forall t, u, o :: Holds(Pc(s, t), o) && Holds(Pc(s, u), o) ==> t == u)
    && (forall t, o :: o in s.abandoned ==> !Holds(Pc(s, t), o) && !(IsEntry(Pc(s, t)) && Pc(s, t).o == o))
    && (forall o :: o in s.abandoned ==> o < s.nextOwner)
  }

  /** What one step of `t` may do to holders, enterers and abandoned guards. */
  ghost predicate LoneStep(s: State, s': State, t: nat) {
    && s'.nextOwner >= s.nextOwner
    && (forall u :: u != t ==> Pc(s', u) == Pc(s, u))
    && (forall o :: Holds(Pc(s', t), o) ==> Holds(Pc(s, t), o) || (Pc(s, t) == Finish(o) && s'.slot == Active(o)))
    && (IsEntry(Pc(s', t)) ==> (IsEntry(Pc(s, t)) && Pc(s', t).o == Pc(s, t).o) || Pc(s', t).o == s.nextOwner)
    && (forall o :: o in s'.abandoned && o !in s.abandoned ==>
          && o < s.nextOwner && !Holds(Pc(s', t), o) && !(IsEntry(Pc(s', t)) && Pc(s', t).o == o)
          && (Holds(Pc(s, t), o) || (IsEntry(Pc(s, t)) && Pc(s, t).o == o)))
  }

  lemma LoneStepKeeps(s: State, s': State, t: nat, base: nat)
    requires Inv(s, base) && Lone(s) && LoneStep(s, s', t)
    ensures Lone(s')
  {
    forall u ensures PcOk(s, Pc(s, u)) {}
  }

  predicate Undoing(pc: PC) { pc.RestoreModes? || pc.RestoreOutput? || pc.Release? }

  lemma EntryIsLoneStep(s: State, t: nat, n: Native, base: nat)
    requires Inv(s, base) && WellFormed(s) && IsEntry(Pc(s, t)) && !Undoing(Pc(s, t))
    ensures LoneStep(s, StepThread(s, t, n), t)
  {
    assert PcOk(s, Pc(s, t));
  }

  lemma RestoreModesIsLoneStep(s: State, t: nat, n: Native, base: nat)
    requires Inv(s, base) && WellFormed(s) && Pc(s, t).RestoreModes?
    ensures LoneStep(s, StepThread(s, t, n), t)
  {
    assert PcOk(s, Pc(s, t));
  }

  /** After a restoration a thread holds what it held and enters what it entered, or nothing. */
  lemma AfterRestoreHolds(o: nat, why: Why, m: bool, restored: bool, p: nat)
    ensures Holds(AfterRestore(o, why, restored), p) ==> Holds(RestoreOutput(o, why, m), p)
    ensures IsEntry(AfterRestore(o, why, restored)) ==>
              IsEntry(RestoreOutput(o, why, m)) && AfterRestore(o, why, restored).o == o
  {
  }

  lemma AfterPanicHolds(o: nat, why: Why, m: bool, p: nat)
    ensures Holds(AfterPanic(o, why), p) ==> Holds(RestoreOutput(o, why, m), p) && !Abandons(why)
    ensures !IsEntry(AfterPanic(o, why))
    ensures Abandons(why) ==> Holds(RestoreOutput(o, why, m), o) || IsEntry(RestoreOutput(o, why, m))
  {
  }

  lemma RestoreOutputIsLoneStep(s: State, t: nat, n: Native, base: nat)
    requires Inv(s, base) && WellFormed(s) && Pc(s, t).RestoreOutput?
    ensures LoneStep(s, StepThread(s, t, n), t)
  {
    var pc, s' := Pc(s, t), StepThread(s, t, n);
    assert PcOk(s, pc);
    if Pc(s', t) == AfterPanic(pc.o, pc.why) {
      forall p { AfterPanicHolds(pc.o, pc.why, pc.modesRestored, p); }
    }
    forall p, r { AfterRestoreHolds(pc.o, pc.why, pc.modesRestored, r, p); }
  }

  lemma ReleaseIsLoneStep(s: State, t: nat, n: Native, base: nat)
    requires Inv(s, base) && WellFormed(s) && Pc(s, t).Release?
    ensures LoneStep(s, StepThread(s, t, n), t)
  {
    assert PcOk(s, Pc(s, t));
  }

  lemma ThreadIsLoneStep(s: State, t: nat, n: Native, base: nat)
    requires Inv(s, base) && WellFormed(s)
    ensures LoneStep(s, StepThread(s, t, n), t)
  {
    if Pc(s, t).RestoreModes? {
      RestoreModesIsLoneStep(s, t, n, base);
    } else if Pc(s, t).RestoreOutput? {
      RestoreOutputIsLoneStep(s, t, n, base);
    } else if Pc(s, t).Release? {
      ReleaseIsLoneStep(s, t, n, base);
    } else if IsEntry(Pc(s, t)) {
      EntryIsLoneStep(s, t, n, base);
    }
  }

  /** Only the program counter of `t` changes. */
  lemma MoveIsLoneStep(s: State, t: nat, pc': PC)
    requires forall o :: Holds(pc', o) ==> Holds(Pc(s, t), o)
    requires IsEntry(pc') ==> IsEntry(Pc(s, t)) && pc'.o == Pc(s, t).o
    ensures LoneStep(s, At(s, t, pc'), t)
  {
  }

  lemma StartIsLoneStep(s: State, a: Action, base: nat)
    requires Inv(s, base) && WellFormed(s) && !a.Step? && !a.DropLease?
    ensures LoneStep(s, Apply(s, a), a.t)
  {
    assert PcWellFormed(s, Pc(s, a.t));
    match a
    case StartEnter(t, switchable) => MoveIsLoneStep(s, t, Claim(switchable));
    case StartAbnormal(t) => MoveIsLoneStep(s, t, Abnormal);
    case StartDrop(t) =>
      if Pc(s, t).Guarding? { MoveIsLoneStep(s, t, RestoreModes(Pc(s, t).o, ForDrop)); }
    case StartExplicit(t) =>
      if Pc(s, t).Guarding? { MoveIsLoneStep(s, t, RestoreModes(Pc(s, t).o, Explicit(true))); }
    case StartShared(t, holder) =>
      if Pc(s, holder).Guarding? { MoveIsLoneStep(s, t, RestoreModes(Pc(s, holder).o, Explicit(false))); }
    case Panic(t) =>
      if Apply(s, a) != s { MoveIsLoneStep(s, t, Unwind(Pc(s, t).o)); }
  }

  lemma LoneKeeps(s: State, a: Action, base: nat)
    requires Inv(s, base) && WellFormed(s) && Lone(s)
    ensures Lone(Apply(s, a))
  {
    if a.Step? {
      ThreadIsLoneStep(s, a.t, a.native, base);
      LoneStepKeeps(s, Apply(s, a), a.t, base);
    } else if a.DropLease? {
      assert forall t :: Pc(Apply(s, a), t) == Pc(s, t);
    } else {
      StartIsLoneStep(s, a, base);
      LoneStepKeeps(s, Apply(s, a), a.t, base);
    }
  }

  lemma {:induction false} RunIsLone(s: State, actions: seq<Action>, base: nat)
    requires Inv(s, base) && WellFormed(s) && Lone(s)
    ensures Lone(Run(s, actions))
    decreases |actions|
  {
    if actions != [] {
      LoneKeeps(s, actions[0], base);
      ApplyKeeps(s, actions[0], base);
      InvIsWellFormed(Apply(s, actions[0]), base);
      RunIsLone(Apply(s, actions[0]), actions[1..], base);
    }
  }

  /**
   * An active guard is held by somebody exactly unless its drop unwound out of a
   * panicking backend: nobody is left then to release the slot.
   */
  lemma HeldUnlessAbandoned(base: nat, s: State)
    requires Reachable(base, s) && s.slot.Active?
    ensures Held(s, s.slot.owner) <==> s.slot.owner !in s.abandoned
  {
    ReachableKeeps(base, s);
    var actions :| s == Run(Init(base), actions);
    InitHolds(base);
    RunIsLone(Init(base), actions, base);
  }

  /** Only a panicking backend, in one of the two drops that release the slot, abandons a guard. */
  lemma AbandonedByPanic(s: State, a: Action, o: nat)
    requires WellFormed(s) && o in Apply(s, a).abandoned && o !in s.abandoned
    ensures a.Step? && a.native.setPage.SetPanicked?
    ensures Pc(s, a.t).RestoreOutput? && Pc(s, a.t).o == o && Abandons(Pc(s, a.t).why)
    ensures o in s.inners && s.inners[o].lease.restoreTo.Some?
  {
    if a.Step? { assert PcWellFormed(s, Pc(s, a.t)); }
  }

  // ----- cancellation --------------------------------------------------------

  ghost predicate Cancelled(s: State, o: nat) {
    o in s.inners && s.inners[o].cancelled
  }

  lemma CancelledUndoing(s: State, t: nat, n: Native, o: nat, base: nat)
    requires Inv(s, base) && WellFormed(s) && Cancelled(s, o) && Undoing(Pc(s, t))
    ensures Cancelled(StepThread(s, t, n), o) && StepThread(s, t, n).inners[o].entered <= s.inners[o].entered
  {
    assert PcOk(s, Pc(s, t));
  }

  lemma CancelledEntry(s: State, t: nat, n: Native, o: nat, base: nat)
    requires Inv(s, base) && WellFormed(s) && Cancelled(s, o) && !Undoing(Pc(s, t))
    ensures Cancelled(StepThread(s, t, n), o) && StepThread(s, t, n).inners[o].entered <= s.inners[o].entered
  {
    assert PcOk(s, Pc(s, t));
  }

  /** A cancelled guard stays cancelled and takes on no further terminal mode. */
  lemma CancelledStep(s: State, a: Action, o: nat, base: nat)
    requires Inv(s, base) && Cancelled(s, o)
    ensures WellFormed(s) && Cancelled(Apply(s, a), o)
    ensures Apply(s, a).inners[o].entered <= s.inners[o].entered
  {
    InvIsWellFormed(s, base);
    if a.Step? {
      if Undoing(Pc(s, a.t)) { CancelledUndoing(s, a.t, a.native, o, base); }
      else { CancelledEntry(s, a.t, a.native, o, base); }
    }
  }

  /**
   * Once cancelled, an entry never becomes active and nobody ever holds its
   * guard; the terminal modes it has to undo only shrink.
   */
  lemma {:induction false} CancelledForever(s: State, actions: seq<Action>, o: nat, base: nat)
    requires Inv(s, base) && Cancelled(s, o)
    ensures WellFormed(s) && Cancelled(Run(s, actions), o)
    ensures var s' := Run(s, actions);
      && s'.slot != Active(o)
      && (forall t :: Pc(s', t) != Guarding(o))
      && s'.inners[o].entered <= s.inners[o].entered
    decreases |actions|
  {
    InvIsWellFormed(s, base);
    if actions == [] {
      forall t ensures Pc(s, t) != Guarding(o) { assert PcOk(s, Pc(s, t)); }
    } else {
      CancelledStep(s, actions[0], o, base);
      ApplyKeeps(s, actions[0], base);
      InvIsWellFormed(Apply(s, actions[0]), base);
      CancelledForever(Apply(s, actions[0]), actions[1..], o, base);
    }
  }

  /** Only the thread that owns the entry transaction takes the slot out of `Entering`. */
  lemma OnlyEntererReleases(s: State, a: Action, base: nat)
    requires Inv(s, base) && s.slot.Entering?
    ensures WellFormed(s)
    ensures Apply(s, a).slot != s.slot ==> a.Step? && IsEntry(Pc(s, a.t)) && Pc(s, a.t).o == s.slot.owner
  {
    InvIsWellFormed(s, base);
    if a.Step? { assert PcOk(s, Pc(s, a.t)); }
  }

  // ----- abnormal exit -------------------------------------------------------

  const ALL: set<Stage> := {RawMode, AlternateScreen, HideCursor, BracketedPaste}

  /** Native calls that all succeed. */
  const WORKING: Native := Native(true, true, ALL, ALL, true, true, SetOk)

  lemma AllStages(x: set<Stage>)
    ensures x - ALL == {}
  {
    forall g | g in x ensures g in ALL {
      match g case RawMode => case AlternateScreen => case HideCursor => case BracketedPaste =>
    }
  }

  /** The other threads' actions, between two steps of `t`. */
  ghost predicate Without(actions: seq<Action>, t: nat) {
    forall a :: a in actions ==> !(a.Step? && a.t == t)
  }

  lemma SitsOneStep(s: State, a: Action, t: nat)
    requires WellFormed(s) && Undoing(Pc(s, t)) && !(a.Step? && a.t == t)
    ensures Pc(Apply(s, a), t) == Pc(s, t)
  {
    if a.Step? { assert PcWellFormed(s, Pc(s, a.t)); }
  }

  /** A restoring thread moves only by its own steps. */
  lemma {:induction false} SitsStill(s: State, actions: seq<Action>, t: nat, base: nat)
    requires Inv(s, base) && Undoing(Pc(s, t)) && Without(actions, t)
    ensures WellFormed(s) && Pc(Run(s, actions), t) == Pc(s, t)
    decreases |actions|
  {
    InvIsWellFormed(s, base);
    if actions != [] {
      var s' := Apply(s, actions[0]);
      SitsOneStep(s, actions[0], t);
      ApplyKeeps(s, actions[0], base);
      InvIsWellFormed(s', base);
      SitsStill(s', actions[1..], t, base);
    }
  }

  /** What `s'` may still owe for `o`, when it owed as in `s` and entering is over. */
  ghost predicate OwesLess(s: State, s': State, o: nat) {
    && o in s.inners && o in s'.inners && o < s'.nextOwner
    && s'.slot != Entering(o) && s'.inners[o].entered <= s.inners[o].entered
    && (s.inners[o].lease.restoreTo == None ==> s'.inners[o].lease.restoreTo == None)
    && (s.slot.Vacant? || s.slot.owner != o ==> s'.slot.Vacant? || s'.slot.owner != o)
  }

  lemma OwesLessUndoing(s: State, t: nat, n: Native, o: nat, base: nat)
    requires Inv(s, base) && WellFormed(s) && o in s.inners && s.slot != Entering(o) && Undoing(Pc(s, t))
    ensures OwesLess(s, StepThread(s, t, n), o)
  {
    assert PcOk(s, Pc(s, t));
  }

  lemma OwesLessEntry(s: State, t: nat, n: Native, o: nat, base: nat)
    requires Inv(s, base) && WellFormed(s) && o in s.inners && s.slot != Entering(o)
    requires IsEntry(Pc(s, t)) && !Undoing(Pc(s, t))
    ensures OwesLess(s, StepThread(s, t, n), o)
  {
    assert PcOk(s, Pc(s, t));
  }

  lemma OwesLessThread(s: State, t: nat, n: Native, o: nat, base: nat)
    requires Inv(s, base) && WellFormed(s) && o in s.inners && s.slot != Entering(o)
    ensures OwesLess(s, StepThread(s, t, n), o)
  {
    if Undoing(Pc(s, t)) {
      OwesLessUndoing(s, t, n, o, base);
    } else if IsEntry(Pc(s, t)) {
      OwesLessEntry(s, t, n, o, base);
    }
  }

  lemma OwesLessStep(s: State, a: Action, o: nat, base: nat)
    requires Inv(s, base) && WellFormed(s) && o in s.inners && s.slot != Entering(o)
    ensures OwesLess(s, Apply(s, a), o)
  {
    if a.Step? { OwesLessThread(s, a.t, a.native, o, base); }
  }

  /** A guard past its entry takes on nothing more, and the slot that has let go of it never names it again. */
  lemma {:induction false} OwesLessForever(s: State, actions: seq<Action>, o: nat, base: nat)
    requires Inv(s, base) && o in s.inners && s.slot != Entering(o)
    ensures WellFormed(s) && OwesLess(s, Run(s, actions), o)
    decreases |actions|
  {
    InvIsWellFormed(s, base);
    if actions != [] {
      OwesLessStep(s, actions[0], o, base);
      ApplyKeeps(s, actions[0], base);
      InvIsWellFormed(Apply(s, actions[0]), base);
      OwesLessForever(Apply(s, actions[0]), actions[1..], o, base);
    }
  }

  /** The terminal half of `restore`, with leaves that work. */
  lemma ModesLeave(s: State, t: nat, o: nat, why: Why, n: Native, base: nat)
    requires Inv(s, base) && WellFormed(s) && Pc(s, t) == RestoreModes(o, why) && n.leaveOk == ALL
    ensures var s' := Apply(s, Step(t, n));
      && Inv(s', base) && s'.slot == s.slot && Pc(s', t) == RestoreOutput(o, why, true)
      && o in s'.inners && s'.inners[o].entered == {}
  {
    assert PcOk(s, Pc(s, t));
    AllStages(s.inners[o].entered);
    ApplyKeeps(s, Step(t, n), base);
  }

  /** The output half, with a page that can be set. */
  lemma PageReturns(s: State, t: nat, o: nat, why: Why, n: Native, base: nat)
    requires Inv(s, base) && WellFormed(s) && Pc(s, t) == RestoreOutput(o, why, true) && n.setPage == SetOk
    requires o in s.inners && s.inners[o].entered == {}
    ensures var s' := Apply(s, Step(t, n));
      && Inv(s', base) && s'.slot == s.slot && Pc(s', t) == AfterRestore(o, why, true)
      && o in s'.inners && Clean(s'.inners[o]) && s'.inners[o].cancelled == s.inners[o].cancelled
  {
    assert PcOk(s, Pc(s, t));
    ApplyKeeps(s, Step(t, n), base);
  }

  /** One step of `t`, then any steps of the other threads. */
  ghost predicate Leads(actions: seq<Action>, t: nat) {
    actions != [] && actions[0].Step? && actions[0].t == t && Without(actions[1..], t)
  }

  lemma ThroughModes(s: State, t: nat, o: nat, why: Why, first: seq<Action>, base: nat)
    requires Inv(s, base) && Pc(s, t) == RestoreModes(o, why) && s.slot != Entering(o)
    requires Leads(first, t) && first[0].native.leaveOk == ALL
    ensures WellFormed(s)
    ensures var s' := Run(s, first);
      && Inv(s', base) && WellFormed(s') && Pc(s', t) == RestoreOutput(o, why, true)
      && o in s'.inners && s'.inners[o].entered == {} && s'.slot != Entering(o)
  {
    InvIsWellFormed(s, base);
    ModesLeave(s, t, o, why, first[0].native, base);
    var s1 := Apply(s, first[0]);
    InvIsWellFormed(s1, base);
    SitsStill(s1, first[1..], t, base);
    OwesLessForever(s1, first[1..], o, base);
    RunKeeps(s1, first[1..], base);
    InvIsWellFormed(Run(s1, first[1..]), base);
  }

  /** A claimant or an abnormal exit, which release the slot only when all is restored. */
  predicate Retries(why: Why) { why.ForClaim? || why == AbnormalGuard }

  lemma ThroughPage(s: State, t: nat, o: nat, why: Why, second: seq<Action>, base: nat)
    requires Inv(s, base) && Pc(s, t) == RestoreOutput(o, why, true) && s.slot != Entering(o) && Retries(why)
    requires o in s.inners && s.inners[o].entered == {}
    requires Leads(second, t) && second[0].native.setPage == SetOk
    ensures WellFormed(s)
    ensures var s' := Run(s, second);
      && Inv(s', base) && WellFormed(s') && Pc(s', t) == Release(o, why, true)
      && o in s'.inners && Clean(s'.inners[o]) && s'.slot != Entering(o)
  {
    InvIsWellFormed(s, base);
    PageReturns(s, t, o, why, second[0].native, base);
    var s1 := Apply(s, second[0]);
    InvIsWellFormed(s1, base);
    SitsStill(s1, second[1..], t, base);
    OwesLessForever(s1, second[1..], o, base);
    RunKeeps(s1, second[1..], base);
    InvIsWellFormed(Run(s1, second[1..]), base);
  }

  /** The thread is done with `o`, nothing is owed for it and the slot does not name it. */
  ghost predicate Freed(s: State, t: nat, o: nat, why: Why) {
    && (s.slot.Vacant? || s.slot.owner != o) && o in s.inners && Clean(s.inners[o])
    && Pc(s, t) == if why.ForClaim? then Claim(why.switchable) else Idle
  }

  lemma LetsGo(s: State, t: nat, o: nat, why: Why, last: Action, base: nat)
    requires Inv(s, base) && WellFormed(s) && Pc(s, t) == Release(o, why, true) && s.slot != Entering(o)
    requires Retries(why) && o in s.inners && Clean(s.inners[o]) && last.Step? && last.t == t
    ensures Inv(Apply(s, last), base) && WellFormed(Apply(s, last)) && Freed(Apply(s, last), t, o, why)
  {
    ApplyKeeps(s, last, base);
    InvIsWellFormed(Apply(s, last), base);
  }

  /**
   * Whoever restores a guard for a claim or an abnormal exit, with native calls that work, ends with
   * nothing owed for it and with the slot not naming it, whatever the other threads do in between.
   */
  lemma RestorationFreesTheSlot(
    s: State, t: nat, o: nat, why: Why, first: seq<Action>, second: seq<Action>, last: Action, base: nat)
    requires Inv(s, base) && Pc(s, t) == RestoreModes(o, why) && Retries(why)
    requires Leads(first, t) && first[0].native.leaveOk == ALL
    requires Leads(second, t) && second[0].native.setPage == SetOk && last.Step? && last.t == t
    ensures WellFormed(s)
    ensures var s' := Run(s, first + second + [last]); Inv(s', base) && WellFormed(s') && Freed(s', t, o, why)
  {
    assert PcOk(s, Pc(s, t));
    ThroughModes(s, t, o, why, first, base);
    ThroughPage(Run(s, first), t, o, why, second, base);
    LetsGo(Run(Run(s, first), second), t, o, why, last, base);
    InThree(s, first, second, last, base);
  }

  lemma InThree(s: State, first: seq<Action>, second: seq<Action>, last: Action, base: nat)
    requires Inv(s, base)
    ensures WellFormed(s) && WellFormed(Run(s, first)) && WellFormed(Run(Run(s, first), second))
    ensures Run(s, first + second + [last]) == Apply(Run(Run(s, first), second), last)
  {
    RunConcat(s, first, second, base);
    RunAppend(s, first + second, last, base);
    RunKeeps(s, first, base);
    RunKeeps(Run(s, first), second, base);
    InvIsWellFormed(Run(s, first), base);
    InvIsWellFormed(Run(Run(s, first), second), base);
  }

  /** The look at a slot whose guard can still be reached. */
  lemma ThroughLook(s: State, t: nat, look: seq<Action>, base: nat)
    requires Inv(s, base) && Pc(s, t).Abnormal? && Leads(look, t)
    requires s.slot.PendingGuard? || (s.slot.Active? && Held(s, s.slot.owner))
    ensures WellFormed(s)
    ensures Inv(Run(s, look), base) && Pc(Run(s, look), t) == RestoreModes(s.slot.owner, AbnormalGuard)
  {
    InvIsWellFormed(s, base);
    ApplyKeeps(s, look[0], base);
    var s0 := Apply(s, look[0]);
    assert Pc(s0, t) == RestoreModes(s.slot.owner, AbnormalGuard);
    InvIsWellFormed(s0, base);
    SitsStill(s0, look[1..], t, base);
    RunKeeps(s0, look[1..], base);
  }

  /** Against an active or deferred guard the abnormal exit restores everything and empties the slot of it for good. */
  lemma AbnormalExitFreesAGuard(
    s: State, t: nat, look: seq<Action>, first: seq<Action>, second: seq<Action>, last: Action,
    later: seq<Action>, base: nat)
    requires Inv(s, base) && Pc(s, t).Abnormal? && Leads(look, t)
    requires s.slot.PendingGuard? || (s.slot.Active? && Held(s, s.slot.owner))
    requires Leads(first, t) && first[0].native.leaveOk == ALL
    requires Leads(second, t) && second[0].native.setPage == SetOk && last.Step? && last.t == t
    ensures WellFormed(s)
    ensures var s' := Run(s, look + (first + second + [last]));
      WellFormed(s') && Freed(s', t, s.slot.owner, AbnormalGuard) && OwesNothingLater(s', s.slot.owner, later)
  {
    ThroughLook(s, t, look, base);
    var s1, rest := Run(s, look), first + second + [last];
    RestorationFreesTheSlot(s1, t, s.slot.owner, AbnormalGuard, first, second, last, base);
    RunConcat(s, look, rest, base);
    NothingLater(Run(s1, rest), s.slot.owner, later, base);
  }

  /** Now and after `later`, nothing is owed for `o` and the slot does not name it. */
  ghost predicate OwesNothingLater(s: State, o: nat, later: seq<Action>)
    requires WellFormed(s)
  {
    var s' := Run(s, later);
    o in s'.inners && Clean(s'.inners[o]) && (s'.slot.Vacant? || s'.slot.owner != o)
  }

  lemma NothingLater(s: State, o: nat, later: seq<Action>, base: nat)
    requires Inv(s, base) && WellFormed(s) && o in s.inners && Clean(s.inners[o])
    requires s.slot.Vacant? || s.slot.owner != o
    ensures OwesNothingLater(s, o, later)
  {
    OwesLessForever(s, later, o, base);
  }

  /**
   * A claimant that meets a deferred restoration finishes it, whatever the others do meanwhile; if the
   * slot is vacant when it looks again, the slot is its own, and otherwise somebody else was faster.
   */
  lemma ClaimFinishesDeferredWork(
    s: State, t: nat, look: Action, first: seq<Action>, second: seq<Action>, last: Action, base: nat)
    requires Inv(s, base) && s.slot.PendingGuard? && Pc(s, t).Claim? && look.Step? && look.t == t
    requires Leads(first, t) && first[0].native.leaveOk == ALL
    requires Leads(second, t) && second[0].native.setPage == SetOk && last.Step? && last.t == t
    ensures WellFormed(s)
    ensures var s' := Run(s, [look] + (first + second + [last]));
      && Inv(s', base) && WellFormed(s') && Freed(s', t, s.slot.owner, ForClaim(Pc(s, t).switchable))
      && (s'.slot.Vacant? && s'.nextOwner < MAX_OWNER ==> ClaimsAt(Apply(s', look), t, s'.nextOwner))
  {
    var o, why, rest := s.slot.owner, ForClaim(Pc(s, t).switchable), first + second + [last];
    InvIsWellFormed(s, base);
    ApplyKeeps(s, look, base);
    var s0 := Apply(s, look);
    InvIsWellFormed(s0, base);
    assert Pc(s0, t) == RestoreModes(o, why);
    RestorationFreesTheSlot(s0, t, o, why, first, second, last, base);
    assert ([look] + rest)[1..] == rest;
  }

  ghost predicate ClaimsAt(s: State, t: nat, owner: nat) {
    s.slot == Entering(owner) && Pc(s, t) == OutputCheck(owner)
  }

  /** No mode is on for as long as the slot is vacant or names `o`. */
  ghost predicate ModesAreOff(s: State, o: nat) {
    && Cancelled(s, o) && s.inners[o].entered == {}
    && (s.slot.Vacant? || s.slot.owner == o ==> s.world.modes == {})
  }

  lemma StaysOff(s: State, o: nat, later: seq<Action>, base: nat)
    requires Inv(s, base) && Cancelled(s, o) && s.inners[o].entered == {}
    ensures WellFormed(s) && ModesAreOff(Run(s, later), o)
  {
    CancelledForever(s, later, o, base);
    RunKeeps(s, later, base);
  }

  /**
   * An abnormal exit that meets an entry, with leaves that work: once its terminal half has run the modes
   * are off, and they stay off until another owner enters, whatever all threads do before and after.
   */
  lemma AbnormalExitStopsAnEntry(
    s: State, t: nat, look: seq<Action>, half: Action, later: seq<Action>, base: nat)
    requires Inv(s, base) && s.slot.Entering? && Pc(s, t).Abnormal? && Leads(look, t)
    requires half.Step? && half.t == t && half.native.leaveOk == ALL
    ensures WellFormed(s) && ModesAreOff(Run(s, look + [half] + later), s.slot.owner)
  {
    var s2 := ThroughCancel(s, t, look, half, base);
    StaysOff(s2, s.slot.owner, later, base);
    RunConcat(s, look + [half], later, base);
  }

  lemma ThroughCancel(s: State, t: nat, look: seq<Action>, half: Action, base: nat) returns (s2: State)
    requires Inv(s, base) && s.slot.Entering? && Pc(s, t).Abnormal? && Leads(look, t)
    requires half.Step? && half.t == t && half.native.leaveOk == ALL
    ensures WellFormed(s) && s2 == Run(s, look + [half]) && Inv(s2, base) && WellFormed(s2)
    ensures Cancelled(s2, s.slot.owner) && s2.inners[s.slot.owner].entered == {}
    ensures Pc(s2, t) == RestoreOutput(s.slot.owner, AbnormalEntering, true)
  {
    var o := s.slot.owner;
    InvIsWellFormed(s, base);
    ApplyKeeps(s, look[0], base);
    var s0 := Apply(s, look[0]);
    InvIsWellFormed(s0, base);
    SitsStill(s0, look[1..], t, base);
    CancelledForever(s0, look[1..], o, base);
    RunKeeps(s0, look[1..], base);
    var s1 := Run(s, look);
    InvIsWellFormed(s1, base);
    ModesLeave(s1, t, o, AbnormalEntering, half.native, base);
    CancelledStep(s1, half, o, base);
    s2 := Apply(s1, half);
    InvIsWellFormed(s2, base);
    RunAppend(s, look, half, base);
  }

  /**
   * When the whole call returns, with native calls that work, it leaves nothing owed for the entry. From
   * then on `LateSwitchIff` says when the page is switched again.
   */
  lemma AbnormalExitReturns(
    s: State, t: nat, look: seq<Action>, half: Action, others: seq<Action>, last: Action, base: nat)
    requires Inv(s, base) && s.slot.Entering? && Pc(s, t).Abnormal? && Leads(look, t) && Without(others, t)
    requires half.Step? && half.t == t && half.native.leaveOk == ALL
    requires last.Step? && last.t == t && last.native.setPage == SetOk
    ensures WellFormed(s)
    ensures var s' := Run(s, look + [half] + others + [last]);
      && Inv(s', base) && Pc(s', t).Idle? && Cancelled(s', s.slot.owner) && Clean(s'.inners[s.slot.owner])
      && (s'.slot.Vacant? || s'.slot.owner == s.slot.owner ==> s'.world == World({}, base))
  {
    var o := s.slot.owner;
    var s2 := ThroughCancel(s, t, look, half, base);
    SitsStill(s2, others, t, base);
    CancelledForever(s2, others, o, base);
    RunKeeps(s2, others, base);
    InvIsWellFormed(Run(s2, others), base);
    PageReturns(Run(s2, others), t, o, AbnormalEntering, last.native, base);
    InThree(s, look + [half], others, last, base);
  }

  // ----- the output page after an abnormal exit ------------------------------

  /** The enterer passed its first cancellation check and has not taken the lease lock yet. */
  ghost predicate AboutToSwitch(s: State, o: nat) {
    && o in s.inners
    && (exists t :: Pc(s, t) == OutputAcquire(o))
    && s.inners[o].lease.switchable && !s.inners[o].lease.acquired
    && s.world.page != CP_UTF8
  }

  ghost predicate Switches(s: State, o: nat, actions: seq<Action>)
    requires WellFormed(s)
  {
    o in Run(s, actions).inners && Run(s, actions).inners[o].lease.restoreTo.Some?
  }

  lemma StepMovesItself(s: State, t: nat, n: Native, u: nat)
    requires WellFormed(s) && u != t
    ensures Pc(StepThread(s, t, n), u) == Pc(s, u)
  {
    assert PcWellFormed(s, Pc(s, t));
  }

  lemma NeverStepsToAcquire(s: State, t: nat, n: Native, o: nat)
    requires WellFormed(s) && Cancelled(s, o)
    ensures Pc(StepThread(s, t, n), t) != OutputAcquire(o)
  {
    assert PcWellFormed(s, Pc(s, t));
  }

  /** A cancelled entry never reaches the lease lock again. */
  lemma NoNewAcquire(s: State, a: Action, t: nat, o: nat, base: nat)
    requires Inv(s, base) && WellFormed(s) && Cancelled(s, o) && Pc(Apply(s, a), t) == OutputAcquire(o)
    ensures Pc(s, t) == OutputAcquire(o)
  {
    if a.Step? {
      if a.t == t { NeverStepsToAcquire(s, t, a.native, o); } else { StepMovesItself(s, a.t, a.native, t); }
    }
  }

  /** Only the thread at the lease lock gives a guard an output obligation or uses up its lease. */
  lemma OnlyAcquireOwes(s: State, a: Action, o: nat, base: nat)
    requires Inv(s, base) && Cancelled(s, o) && s.inners[o].lease.restoreTo == None
    requires !(a.Step? && Pc(s, a.t) == OutputAcquire(o))
    ensures WellFormed(s) && o in Apply(s, a).inners && Apply(s, a).inners[o].lease == s.inners[o].lease
  {
    InvIsWellFormed(s, base);
    if a.Step? { assert PcOk(s, Pc(s, a.t)); }
  }

  lemma NotAboutToSwitchStep(s: State, a: Action, o: nat, base: nat)
    requires Inv(s, base) && Cancelled(s, o)
    requires s.inners[o].lease.restoreTo == None && !AboutToSwitch(s, o)
    ensures WellFormed(s) && Cancelled(Apply(s, a), o)
    ensures Apply(s, a).inners[o].lease.restoreTo == None && !AboutToSwitch(Apply(s, a), o)
  {
    InvIsWellFormed(s, base);
    CancelledStep(s, a, o, base);
    if a.Step? && Pc(s, a.t) == OutputAcquire(o) {
      LostAcquire(s, a.t, a.native, o, base);
    } else {
      OnlyAcquireOwes(s, a, o, base);
      ApplyKeeps(s, a, base);
      if t :| Pc(Apply(s, a), t) == OutputAcquire(o) {
        NoNewAcquire(s, a, t, o, base);
        assert PcOk(s, Pc(s, t)) && PcOk(Apply(s, a), Pc(Apply(s, a), t));
      }
    }
  }

  /** A lease that cannot switch takes no obligation at its lock, and is used up. */
  lemma LostAcquire(s: State, t: nat, n: Native, o: nat, base: nat)
    requires Inv(s, base) && WellFormed(s) && Pc(s, t) == OutputAcquire(o)
    requires o in s.inners && s.inners[o].lease.restoreTo == None && !AboutToSwitch(s, o)
    ensures var s' := Apply(s, Step(t, n));
      && o in s'.inners && s'.inners[o].lease.restoreTo == None && s'.inners[o].lease.acquired
  {
  }

  lemma {:induction false} NotAboutToSwitchForever(s: State, actions: seq<Action>, o: nat, base: nat)
    requires Inv(s, base) && Cancelled(s, o)
    requires s.inners[o].lease.restoreTo == None && !AboutToSwitch(s, o)
    ensures WellFormed(s) && !Switches(s, o, actions)
    decreases |actions|
  {
    InvIsWellFormed(s, base);
    if actions != [] {
      NotAboutToSwitchStep(s, actions[0], o, base);
      ApplyKeeps(s, actions[0], base);
      InvIsWellFormed(Apply(s, actions[0]), base);
      NotAboutToSwitchForever(Apply(s, actions[0]), actions[1..], o, base);
    }
  }

  /**
   * A cancelled entry whose output page is restored may still switch it, and it
   * may exactly when its thread sits between the first cancellation check and
   * the lease lock with an unused switchable lease.
   */
  lemma LateSwitchIff(s: State, o: nat, base: nat)
    requires Inv(s, base) && Cancelled(s, o) && s.inners[o].lease.restoreTo == None
    ensures WellFormed(s)
    ensures (exists actions :: Switches(s, o, actions)) <==> AboutToSwitch(s, o)
  {
    InvIsWellFormed(s, base);
    if AboutToSwitch(s, o) {
      var t :| Pc(s, t) == OutputAcquire(o);
      var a := Step(t, WORKING);
      ApplyKeeps(s, a, base);
      InvIsWellFormed(Apply(s, a), base);
      assert [a][1..] == [];
      assert Run(s, [a]) == Apply(s, a);
      assert Switches(s, o, [a]);
    } else {
      forall actions ensures !Switches(s, o, actions) {
        NotAboutToSwitchForever(s, actions, o, base);
      }
    }
  }

  /** The abnormal exit of thread 1 has returned, all is restored, and thread 0 is about to switch the page. */
  ghost predicate ReturnedTooEarly(s: State, o: nat) {
    Cancelled(s, o) && s.world == World({}, 936) && Pc(s, 1).Idle? && AboutToSwitch(s, o)
  }

  function RaceState(cancelled: bool, threads: map<nat, PC>): State {
    State(2, Entering(1), map[1 := NewInner(true).(cancelled := cancelled)], World({}, 936), threads, {})
  }

  lemma Go(s: State, a: Action, s': State)
    requires Reachable(936, s) && (WellFormed(s) ==> s' == Apply(s, a))
    ensures Reachable(936, s')
  {
    ReachableKeeps(936, s);
    ReachStep(936, s, a);
  }

  lemma RaceBegins()
    ensures Reachable(936, State(1, Vacant, map[], World({}, 936), map[0 := Claim(true)], {}))
  {
    InitHolds(936);
    assert Run(Init(936), []) == Init(936);
    Go(Init(936), StartEnter(0, true), State(1, Vacant, map[], World({}, 936), map[0 := Claim(true)], {}));
  }

  lemma RaceClaims()
    ensures Reachable(936, RaceState(false, map[0 := OutputCheck(1)]))
  {
    RaceBegins();
    var s := State(1, Vacant, map[], World({}, 936), map[0 := Claim(true)], {});
    assert StepClaim(s, 0, true) == RaceState(false, map[0 := OutputCheck(1)]);
    Go(s, Step(0, WORKING), RaceState(false, map[0 := OutputCheck(1)]));
  }

  lemma RaceChecks()
    ensures Reachable(936, RaceState(false, map[0 := OutputAcquire(1), 1 := Abnormal]))
  {
    RaceClaims();
    var s := RaceState(false, map[0 := OutputCheck(1)]);
    var s' := RaceState(false, map[0 := OutputAcquire(1)]);
    Go(s, Step(0, WORKING), s');
    Go(s', StartAbnormal(1), RaceState(false, map[0 := OutputAcquire(1), 1 := Abnormal]));
  }

  lemma RaceCancels()
    ensures Reachable(936, RaceState(true, map[0 := OutputAcquire(1), 1 := RestoreModes(1, AbnormalEntering)]))
  {
    RaceChecks();
    var s := RaceState(false, map[0 := OutputAcquire(1), 1 := Abnormal]);
    var s' := RaceState(true, map[0 := OutputAcquire(1), 1 := RestoreModes(1, AbnormalEntering)]);
    assert StepAbnormal(s, 1) == s';
    Go(s, Step(1, WORKING), s');
  }

  lemma RaceRestores()
    ensures Reachable(936, RaceState(true, map[0 := OutputAcquire(1), 1 := RestoreOutput(1, AbnormalEntering, true)]))
  {
    RaceCancels();
    var s := RaceState(true, map[0 := OutputAcquire(1), 1 := RestoreModes(1, AbnormalEntering)]);
    var s' := RaceState(true, map[0 := OutputAcquire(1), 1 := RestoreOutput(1, AbnormalEntering, true)]);
    assert StepRestoreModes(s, 1, 1, AbnormalEntering, WORKING) == s';
    Go(s, Step(1, WORKING), s');
  }

  /**
   * `restore_on_abnormal_exit` does not always leave the page restored when it
   * returns: there is a run after which the cancelled entry still switches it.
   */
  lemma LateSwitchHappens()
    ensures exists s :: Reachable(936, s) && ReturnedTooEarly(s, 1)
  {
    RaceRestores();
    var s := RaceState(true, map[0 := OutputAcquire(1), 1 := RestoreOutput(1, AbnormalEntering, true)]);
    var s' := RaceState(true, map[0 := OutputAcquire(1), 1 := Idle]);
    assert StepRestoreOutput(s, 1, 1, AbnormalEntering, true, WORKING) == s';
    Go(s, Step(1, WORKING), s');
    assert Pc(s', 0) == OutputAcquire(1);
    assert ReturnedTooEarly(s', 1);
  }
}
