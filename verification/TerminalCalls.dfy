/**
 * The calls of one thread as the code writes them: the claim loop, the entry
 * transaction with its rollback, the drop of a guard and the abnormal exit.
 * The other threads do what they like between any two critical sections, and
 * whatever happened is a run of the protocol.
 */
module TerminalCalls {
  import opened Prelude

  import opened TerminalProtocol
  import opened TerminalSafety
  import opened TerminalTrace

  /** What the others do before a critical section of this thread, and the native answers it gets. */
  datatype Moment = Moment(others: seq<Action>, native: Native)

  /** `Owns` and `Holding` name the owner; a claim or entry is followed for a number of tries only. */
  datatype Claimed = Owns(owner: nat) | Busy | StillTrying
  datatype Restored = AllRestored | StillOwed | Unwound
  datatype Entry = Holding(owner: nat) | Refused | RolledBack(owner: nat, left: Restored) | StillClaiming

  class Call {
    const me: nat
    const base: nat
    const world: nat -> Moment
    var clock: nat
    var state: State                  // the slot, the guards and the terminal, shared with the other threads
    ghost var actions: seq<Action>    // all that happened since the process started

    /** The state is that of a run of the protocol. */
    ghost predicate Traced() reads this {
      && WellFormed(Init(base)) && state == Run(Init(base), actions)
      && forall k, a :: a in world(k).others ==> ByOthers(a, me)
    }

    /** Nobody else does anything. */
    ghost predicate Alone() {
      forall k :: world(k).others == []
    }

    /** Every native call since `from` worked, or at least undid what it was to undo, or did not panic. */
    ghost predicate AllWork(from: nat) reads `clock {
      forall k :: from <= k < clock ==> Works(world(k).native)
    }

    ghost predicate AllUndo(from: nat) reads `clock {
      forall k :: from <= k < clock ==> Undoes(world(k).native)
    }

    ghost predicate NonePanics(from: nat) reads `clock {
      forall k :: from <= k < clock ==> !world(k).native.setPage.SetPanicked?
    }

    ghost predicate Saw(since: nat, s: State) reads `actions {
      Passed(base, actions, since, s)
    }

    ghost predicate Ran(since: nat, o: nat, why: Why) reads `actions {
      RanRestore(base, actions, since, me, o, why)
    }

    constructor (me: nat, base: nat, world: nat -> Moment, s: State, ghost actions: seq<Action>)
      requires WellFormed(Init(base)) && s == Run(Init(base), actions)
      requires forall k, a :: a in world(k).others ==> ByOthers(a, me)
      ensures Traced() && state == s && this.me == me && this.world == world && this.actions == actions
    {
      this.me, this.base, this.world, clock, state, this.actions := me, base, world, 0, s, actions;
    }

    lemma Known()
      requires Traced()
      ensures Inv(state, base) && WellFormed(state)
    {
      assert Reachable(base, state);
      ReachableKeeps(base, state);
    }

    lemma OneMore(a: Action)
      requires Traced()
      ensures WellFormed(state) && Run(Init(base), actions + [a]) == Apply(state, a)
    {
      Known();
      InitHolds(base);
      RunAppend(Init(base), actions, a, base);
    }

    lemma MoreByOthers(s: State, a: Action)
      requires Traced() && Untouched(s, state, me) && ByOthers(a, me)
      ensures WellFormed(state) && Untouched(s, Apply(state, a), me)
    {
      Known();
      OtherAction(state, a, me, base);
      UntouchedTwice(s, state, Apply(state, a), me);
    }

    lemma SeesNow(since: nat)
      requires Traced() && since <= |actions|
      ensures Saw(since, state)
    {
      assert actions[..|actions|] == actions;
      assert Before(base, actions, |actions|) == state;
    }

    /** This thread's own critical section, or an action of another thread. */
    method Move(ghost a: Action, next: State)
      requires Traced() && WellFormed(state) && next == Apply(state, a)
      modifies this`state, this`actions
      ensures Traced() && state == next && actions == old(actions) + [a]
      ensures a.Step? && a.t == me ==> Stepped(base, actions, me, old(|actions|), Pc(old(state), me))
    {
      OneMore(a);
      ghost var before := actions;
      state := next;
      actions := actions + [a];
      assert actions[..|before|] == before;
    }

    /** The others move; the answer is for the critical section that follows. */
    method Pause() returns (n: Native)
      requires Traced()
      modifies this`clock, this`state, this`actions
      ensures Traced() && WellFormed(state) && Untouched(old(state), state, me) && old(actions) <= actions
      ensures clock == old(clock) + 1 && n == world(old(clock)).native
      ensures Alone() ==> state == old(state)
    {
      var others := world(clock).others;
      n := world(clock).native;
      clock := clock + 1;
      assert WellFormed(state) && Untouched(state, state, me) by {
        Known();
        UntouchedItself(state, me, base);
      }
      for k := 0 to |others|
        invariant Traced() && WellFormed(state) && Untouched(old(state), state, me) && old(actions) <= actions
        invariant (k == 0 ==> state == old(state)) && clock == old(clock) + 1
      {
        MoreByOthers(old(state), others[k]);
        Move(others[k], Apply(state, others[k]));
        assert WellFormed(state) by { Known(); }
      }
    }

    // ----- restoring ---------------------------------------------------------

    /** What `restore` leaves of guard `o` when it reports that all is restored. */
    ghost predicate Settled(o: nat) reads `state {
      o in state.inners && Clean(state.inners[o])
    }

    /** Both halves ran; what is left is what the native calls did not undo. */
    ghost predicate RestoredAs(r: Restored, since: nat, from: nat, o: nat, why: Why) reads `state, `actions, `clock {
      && Ran(since, o, why)
      && (r.AllRestored? ==> Settled(o))
      && (AllUndo(from) ==> r.AllRestored?)
      && (NonePanics(from) ==> !r.Unwound?)
    }

    /** `restore`, and where it leaves the thread. */
    method Restore(o: nat, why: Why) returns (r: Restored)
      requires Traced() && Pc(state, me) == RestoreModes(o, why)
      modifies this`clock, this`state, this`actions
      ensures Traced() && old(actions) <= actions && old(clock) <= clock
      ensures Pc(state, me) == if r.Unwound? then AfterPanic(o, why) else AfterRestore(o, why, r.AllRestored?)
      ensures r.Unwound? && Abandons(why) ==> o in state.abandoned
      ensures RestoredAs(r, old(|actions|), old(clock), o, why)
      ensures Alone() ==> state.slot == old(state.slot) && state.nextOwner == old(state.nextOwner)
      ensures (why == Rollback ==> state.slot == Entering(o)) && (Cancelled(old(state), o) ==> Cancelled(state, o))
    {
      assert why == Rollback ==> IsEntry(Pc(state, me));
      var modes := RestoreTerminal(o, why);
      ghost var a, at := actions, 0;
      r, at := RestorePage(o, why, modes, old(clock));
      assert Ran(old(|actions|), o, why) by { HalfStays(a, old(|actions|), o, why, at, modes); }
    }

    method RestoreTerminal(o: nat, why: Why) returns (restored: bool)
      requires Traced() && Pc(state, me) == RestoreModes(o, why)
      modifies this`clock, this`state, this`actions
      ensures Traced() && old(actions) <= actions && old(clock) <= clock
      ensures Pc(state, me) == RestoreOutput(o, why, restored)
      ensures HalfRan(old(|actions|), o, why)
      ensures restored ==> o in state.inners && state.inners[o].entered == {}
      ensures AllUndo(old(clock)) ==> restored
      ensures Alone() ==> state.slot == old(state.slot) && state.nextOwner == old(state.nextOwner)
      ensures (why == Rollback ==> state.slot == Entering(o)) && (Cancelled(old(state), o) ==> Cancelled(state, o))
    {
      var n := Pause();
      assert PcWellFormed(state, Pc(state, me));
      var (i, w, ok) := RestoreModesSection(state.inners[o], state.world, n);
      ghost var at := |actions|;
      AllStages(state.inners[o].entered);
      Move(Step(me, n), At(state.(inners := state.inners[o := i], world := w), me, RestoreOutput(o, why, ok)));
      assert Stepped(base, actions, me, at, RestoreModes(o, why));
      return ok;
    }

    /** The first half of a restoration ran. */
    ghost predicate HalfRan(since: nat, o: nat, why: Why) reads `actions {
      exists i: nat :: since <= i < |actions| && Stepped(base, actions, me, i, RestoreModes(o, why))
    }

    lemma HalfStays(a: seq<Action>, since: nat, o: nat, why: Why, at: nat, modes: bool)
      requires a <= actions && since <= |a| <= at && Stepped(base, actions, me, at, RestoreOutput(o, why, modes))
      requires exists i: nat :: since <= i < |a| && Stepped(base, a, me, i, RestoreModes(o, why))
      ensures Ran(since, o, why)
    {
      var i: nat :| since <= i < |a| && Stepped(base, a, me, i, RestoreModes(o, why));
      SteppedStays(base, a, actions, me, i, RestoreModes(o, why));
    }

    /** While a thread sits between the two halves, a guard whose modes are gone takes on none. */
    lemma StaysWithout(s: State, o: nat, why: Why)
      requires Traced() && Inv(s, base) && Pc(s, me) == RestoreOutput(o, why, true) && Untouched(s, state, me)
      requires o in s.inners && s.inners[o].entered == {}
      ensures o in state.inners && state.inners[o].entered == {}
    {
      Known();
      assert PcOk(s, Pc(s, me)) && PcOk(state, Pc(state, me));
    }

    method RestorePage(o: nat, why: Why, modes: bool, ghost from: nat) returns (r: Restored, ghost at: nat)
      requires Traced() && Pc(state, me) == RestoreOutput(o, why, modes) && from <= clock && (AllUndo(from) ==> modes)
      requires modes ==> o in state.inners && state.inners[o].entered == {}
      modifies this`clock, this`state, this`actions
      ensures Traced() && old(actions) <= actions && old(clock) <= clock
      ensures Pc(state, me) == if r.Unwound? then AfterPanic(o, why) else AfterRestore(o, why, r.AllRestored?)
      ensures r.Unwound? && Abandons(why) ==> o in state.abandoned
      ensures old(|actions|) <= at && Stepped(base, actions, me, at, RestoreOutput(o, why, modes))
      ensures (r.AllRestored? ==> Settled(o)) && (AllUndo(from) ==> r.AllRestored?)
      ensures NonePanics(from) ==> !r.Unwound?
      ensures Alone() ==> state.slot == old(state.slot) && state.nextOwner == old(state.nextOwner)
      ensures (why == Rollback ==> state.slot == Entering(o)) && (Cancelled(old(state), o) ==> Cancelled(state, o))
    {
      var n := PauseForPage(o, why, modes);
      at := |actions|;
      assert AllUndo(from) ==> modes && n.setPage.SetOk?;
      assert NonePanics(from) ==> !n.setPage.SetPanicked?;
      r := SetPageBack(o, why, modes, n);
    }

    method PauseForPage(o: nat, why: Why, modes: bool) returns (n: Native)
      requires Traced() && Pc(state, me) == RestoreOutput(o, why, modes)
      requires modes ==> o in state.inners && state.inners[o].entered == {}
      modifies this`clock, this`state, this`actions
      ensures Traced() && old(actions) <= actions && clock == old(clock) + 1 && n == world(old(clock)).native
      ensures Pc(state, me) == RestoreOutput(o, why, modes) && (why == Rollback ==> state.slot == Entering(o))
      ensures Cancelled(old(state), o) ==> Cancelled(state, o)
      ensures Alone() ==> state.slot == old(state.slot) && state.nextOwner == old(state.nextOwner)
      ensures modes ==> o in state.inners && state.inners[o].entered == {}
    {
      ghost var start := state;
      assert Inv(start, base) by { Known(); }
      n := Pause();
      if modes { StaysWithout(start, o, why); }
    }

    /** The page half under the lease lock. */
    method SetPageBack(o: nat, why: Why, modes: bool, n: Native) returns (r: Restored)
      requires Traced() && Pc(state, me) == RestoreOutput(o, why, modes)
      requires modes ==> o in state.inners && state.inners[o].entered == {}
      modifies this`state, this`actions
      ensures Traced() && old(actions) <= actions
      ensures Stepped(base, actions, me, old(|actions|), RestoreOutput(o, why, modes))
      ensures Pc(state, me) == if r.Unwound? then AfterPanic(o, why) else AfterRestore(o, why, r.AllRestored?)
      ensures r.Unwound? && Abandons(why) ==> o in state.abandoned
      ensures r.AllRestored? ==> Settled(o)
      ensures n.setPage.SetOk? && modes ==> r.AllRestored?
      ensures !n.setPage.SetPanicked? ==> !r.Unwound?
      ensures state.slot == old(state.slot) && state.nextOwner == old(state.nextOwner)
      ensures Cancelled(old(state), o) ==> Cancelled(state, o)
    {
      assert WellFormed(state) && InnersOk(state) by { Known(); }
      assert PcWellFormed(state, Pc(state, me));
      var (l, w, output) := RestoreOutputSection(state.inners[o].lease, state.world, n);
      var next := state.(inners := state.inners[o := state.inners[o].(lease := l)], world := w);
      if output.OutputPanicked? {
        var left := if Abandons(why) then state.abandoned + {o} else state.abandoned;
        Move(Step(me, n), At(next.(abandoned := left), me, AfterPanic(o, why)));
        return Unwound;
      }
      var restored := modes && output.OutputClear?;
      Move(Step(me, n), At(next, me, AfterRestore(o, why, restored)));
      return if restored then AllRestored else StillOwed;
    }

    // ----- claiming the slot -------------------------------------------------

    /** The slot is somebody else's, or there are no owners left. */
    predicate Denies(s: State) {
      Pc(s, me).Claim? && (s.slot.Entering? || s.slot.Active? || (s.slot.Vacant? && s.nextOwner >= MAX_OWNER))
    }

    ghost predicate Denied(since: nat) reads `actions {
      exists s :: Saw(since, s) && Denies(s)
    }

    /** A deferred restoration was retried. */
    ghost predicate Retried(since: nat, switchable: bool) reads `actions {
      exists o :: Ran(since, o, ForClaim(switchable))
    }

    lemma DeniedStays(a: seq<Action>, since: nat)
      requires a <= actions && exists s :: Passed(base, a, since, s) && Denies(s)
      ensures Denied(since)
    {
      var s :| Passed(base, a, since, s) && Denies(s);
      PassedStays(base, a, actions, since, s);
    }

    lemma RetriedStays(a: seq<Action>, since: nat, switchable: bool)
      requires a <= actions && exists o :: RanRestore(base, a, since, me, o, ForClaim(switchable))
      ensures Retried(since, switchable)
    {
      var o :| RanRestore(base, a, since, me, o, ForClaim(switchable));
      RanRestoreStays(base, a, actions, since, me, o, ForClaim(switchable));
      assert Ran(since, o, ForClaim(switchable));
    }

    /** Restorations since a later action are since an earlier one. */
    lemma RetriedEarlier(since: nat, later: nat, switchable: bool)
      requires since <= later && Retried(later, switchable)
      ensures Retried(since, switchable)
    {
      var o :| Ran(later, o, ForClaim(switchable));
      RanEarlier(since, later, o, ForClaim(switchable));
    }

    lemma RanEarlier(since: nat, later: nat, o: nat, why: Why)
      requires since <= later && Ran(later, o, why)
      ensures Ran(since, o, why)
    {
    }

    lemma DeniedEarlier(since: nat, later: nat)
      requires since <= later && Denied(later)
      ensures Denied(since)
    {
      var s :| Saw(later, s) && Denies(s);
      assert Saw(since, s);
    }

    /** `clear_restored_owner`. */
    method ClearRestoredOwner(o: nat, why: Why)
      requires Traced() && Pc(state, me) == Release(o, why, true) && Retries(why)
      modifies this`clock, this`state, this`actions
      ensures Traced() && old(actions) <= actions && clock == old(clock) + 1
      ensures Pc(state, me) == if why.ForClaim? then Claim(why.switchable) else Idle
      ensures Settled(o) && (state.slot.Vacant? || state.slot.owner != o)
      ensures Alone() ==> state.nextOwner == old(state.nextOwner)
      ensures Alone() && (old(state.slot) == Active(o) || old(state.slot) == PendingGuard(o)) ==> state.slot.Vacant?
    {
      var n := Pause();
      assert PcOk(state, Pc(state, me)) by { Known(); }
      Move(Step(me, n), At(state.(slot := ClearRestoredSection(state.slot, o)), me,
                           if why.ForClaim? then Claim(why.switchable) else Idle));
    }

    /** The slot was somebody else's, or a deferred restoration failed again. */
    ghost predicate TurnedAway(switchable: bool, since: nat, from: nat) reads `actions, `clock {
      Denied(since) || (Retried(since, switchable) && !AllUndo(from))
    }

    /** What a claim came to, and why. */
    ghost predicate ClaimedAs(r: Claimed, switchable: bool, since: nat, from: nat) reads `state, `actions, `clock {
      match r
      case Owns(o) => Pc(state, me) == OutputCheck(o) && EntryHas(o, switchable, {}, None)
      case Busy => Pc(state, me) == Idle && TurnedAway(switchable, since, from)
      case StillTrying => Pc(state, me) == Claim(switchable)
    }

    /** Whoever looks at the slot can have it, after finishing a deferred restoration at most. */
    predicate HasRoom(s: State) {
      (s.slot.Vacant? || s.slot.PendingGuard?) && s.nextOwner < MAX_OWNER
    }

    /** One look at the slot; `StillTrying` when a deferred restoration was finished first. */
    method LookAtSlot(switchable: bool) returns (r: Claimed)
      requires Traced() && Pc(state, me) == Claim(switchable)
      modifies this`clock, this`state, this`actions
      ensures Traced() && old(actions) <= actions && old(clock) <= clock
      ensures ClaimedAs(r, switchable, old(|actions|), old(clock))
      ensures r.StillTrying? ==> Retried(old(|actions|), switchable)
      ensures Alone() && AllUndo(old(clock)) && HasRoom(old(state)) ==>
                if old(state).slot.Vacant? then r.Owns?
                else r.StillTrying? && state.slot.Vacant? && state.nextOwner == old(state.nextOwner)
    {
      var n := Pause();
      SeesNow(old(|actions|));
      match state.slot {
        case Vacant =>
          r := ClaimVacant(switchable, n, old(|actions|), old(clock));
        case Entering(_) =>
          TurnAway(switchable, n, old(|actions|));
          r := Busy;
        case Active(_) =>
          TurnAway(switchable, n, old(|actions|));
          r := Busy;
        case PendingGuard(o) =>
          r := FinishDeferred(o, switchable, n, old(|actions|));
      }
    }

    method TurnAway(switchable: bool, n: Native, ghost since: nat)
      requires Traced() && WellFormed(state) && Saw(since, state) && Denies(state)
      requires StepClaim(state, me, switchable) == At(state, me, Idle) && Pc(state, me) == Claim(switchable)
      modifies this`state, this`actions
      ensures Traced() && old(actions) <= actions && Pc(state, me) == Idle && Denied(since)
    {
      ghost var a := actions;
      Move(Step(me, n), At(state, me, Idle));
      DeniedStays(a, since);
    }

    method FinishDeferred(o: nat, switchable: bool, n: Native, ghost since: nat) returns (r: Claimed)
      requires Traced() && WellFormed(state) && state.slot == PendingGuard(o) && Pc(state, me) == Claim(switchable)
      requires since <= |actions|
      modifies this`clock, this`state, this`actions
      ensures Traced() && old(actions) <= actions && old(clock) <= clock
      ensures r == Busy || r == StillTrying
      ensures r.Busy? ==> Pc(state, me) == Idle && !AllUndo(old(clock))
      ensures r.StillTrying? ==> Pc(state, me) == Claim(switchable)
      ensures Retried(since, switchable)
      ensures Alone() && r.StillTrying? ==> state.slot.Vacant? && state.nextOwner == old(state.nextOwner)
    {
      BeginRetry(o, switchable, n);
      r := Retry(o, switchable, since);
    }

    method BeginRetry(o: nat, switchable: bool, n: Native)
      requires Traced() && WellFormed(state) && state.slot == PendingGuard(o) && Pc(state, me) == Claim(switchable)
      modifies this`state, this`actions
      ensures Traced() && old(actions) <= actions && Pc(state, me) == RestoreModes(o, ForClaim(switchable))
      ensures state.slot == PendingGuard(o) && state.nextOwner == old(state.nextOwner)
    {
      Move(Step(me, n), At(state, me, RestoreModes(o, ForClaim(switchable))));
    }

    method Retry(o: nat, switchable: bool, ghost since: nat) returns (r: Claimed)
      requires Traced() && Pc(state, me) == RestoreModes(o, ForClaim(switchable)) && since <= |actions|
      modifies this`clock, this`state, this`actions
      ensures Traced() && old(actions) <= actions && old(clock) <= clock
      ensures r == Busy || r == StillTrying
      ensures r.Busy? ==> Pc(state, me) == Idle && !AllUndo(old(clock))
      ensures r.StillTrying? ==> Pc(state, me) == Claim(switchable)
      ensures Retried(since, switchable)
      ensures Alone() && old(state.slot) == PendingGuard(o) && r.StillTrying? ==>
                state.slot.Vacant? && state.nextOwner == old(state.nextOwner)
    {
      var restored := Restore(o, ForClaim(switchable));
      ghost var a := actions;
      RanEarlier(since, old(|actions|), o, ForClaim(switchable));
      assert RanRestore(base, a, since, me, o, ForClaim(switchable));
      if !restored.AllRestored? { return Busy; }
      ClearRestoredOwner(o, ForClaim(switchable));
      RetriedStays(a, since, switchable);
      return StillTrying;
    }

    method ClaimVacant(switchable: bool, n: Native, ghost since: nat, ghost from: nat) returns (r: Claimed)
      requires Traced() && WellFormed(state) && Pc(state, me) == Claim(switchable) && state.slot.Vacant?
      requires Saw(since, state)
      modifies this`state, this`actions
      ensures Traced() && old(actions) <= actions && ClaimedAs(r, switchable, since, from)
      ensures if old(state.nextOwner) < MAX_OWNER then r.Owns? else r.Busy?
    {
      if state.nextOwner >= MAX_OWNER {
        TurnAway(switchable, n, since);
        return Busy;
      }
      assert state.world == World({}, base) by { Known(); }
      var owner := state.nextOwner;
      Move(Step(me, n), At(state.(nextOwner := owner + 1, slot := Entering(owner),
                                  inners := state.inners[owner := NewInner(switchable)]), me, OutputCheck(owner)));
      return Owns(owner);
    }

    /** `claim_active_slot`, for at most `tries` looks at the slot. */
    method ClaimActiveSlot(switchable: bool, tries: nat) returns (r: Claimed)
      requires Traced() && Pc(state, me) == Claim(switchable)
      modifies this`clock, this`state, this`actions
      ensures Traced() && old(actions) <= actions && old(clock) <= clock
      ensures ClaimedAs(r, switchable, old(|actions|), old(clock))
      ensures r.StillTrying? ==> tries == 0 || Retried(old(|actions|), switchable)
      ensures Alone() && AllUndo(old(clock)) && HasRoom(old(state)) && tries >= 2 ==> r.Owns?
    {
      for k := 0 to tries
        invariant Traced() && old(actions) <= actions && old(clock) <= clock && Pc(state, me) == Claim(switchable)
        invariant k > 0 ==> Retried(old(|actions|), switchable)
        invariant k == 0 ==> state == old(state)
        invariant Alone() && AllUndo(old(clock)) && HasRoom(old(state)) && k > 0 ==>
                    k == 1 && state.slot.Vacant? && state.nextOwner < MAX_OWNER
      {
        ghost var a, from := actions, clock;
        r := LookAtSlot(switchable);
        Widen(r, switchable, old(|actions|), |a|, old(clock), from);
        if !r.StillTrying? { return; }
        RetriedEarlier(old(|actions|), |a|, switchable);
      }
      return StillTrying;
    }

    lemma WidenTurnedAway(switchable: bool, since: nat, later: nat, from: nat, after: nat)
      requires since <= later && from <= after && TurnedAway(switchable, later, after)
      ensures TurnedAway(switchable, since, from)
    {
      if Denied(later) { DeniedEarlier(since, later); } else { RetriedEarlier(since, later, switchable); }
    }

    /** The reasons of one look are reasons of the whole claim. */
    lemma Widen(r: Claimed, switchable: bool, since: nat, later: nat, from: nat, after: nat)
      requires since <= later && from <= after && ClaimedAs(r, switchable, later, after)
      ensures ClaimedAs(r, switchable, since, from)
    {
      if r.Busy? { WidenTurnedAway(switchable, since, later, from, after); }
    }

    // ----- the entry transaction -------------------------------------------

    /** What the lease of a guard came to, by the answers of the call that acquired it. */
    predicate OutputProven(l: Lease, page: nat, n: Native) {
      && l.acquired
      && (l.unicode <==> !l.switchable || (n.glyphs && n.pageKnown && (n.setPage.SetOk? || base == CP_UTF8)))
      && page == if l.switchable && l.unicode then CP_UTF8 else base
    }

    predicate PageIs(l: Lease, page: nat, source: Option<Native>) {
      match source
      case None => l == NewInner(l.switchable).lease && page == base
      case Some(n) => OutputProven(l, page, n)
    }

    /** What an entry has done: these stages are recorded and on, and this call settled the output. */
    predicate HasDone(i: Inner, w: World, switchable: bool, stages: set<Stage>, source: Option<Native>) {
      i.entered == stages && w.modes == stages && i.lease.switchable == switchable && PageIs(i.lease, w.page, source)
    }

    /** The entry is in hand, and unless somebody cancelled it this much is its doing. */
    ghost predicate EntryHas(o: nat, switchable: bool, stages: set<Stage>, source: Option<Native>) reads `state {
      && state.slot == Entering(o) && o in state.inners
      && (Alone() ==> !state.inners[o].cancelled)
      && (!state.inners[o].cancelled ==> HasDone(state.inners[o], state.world, switchable, stages, source))
    }

    predicate Checks(pc: PC) {
      pc.OutputCheck? || pc.OutputRecheck? || ((pc.StageCheck? || pc.StageRecheck?) && pc.k < |ENTER_STAGES|)
    }

    function GoOn(pc: PC): PC
      requires Checks(pc)
    {
      match pc
      case OutputCheck(o) => OutputAcquire(o)
      case OutputRecheck(o) => StageCheck(o, 0)
      case StageCheck(o, k) => StageEnter(o, k)
      case StageRecheck(o, k) => if k + 1 < |ENTER_STAGES| then StageCheck(o, k + 1) else Finish(o)
    }

    /** Somebody cancelled the entry while its thread was still entering. */
    ghost predicate Thwarts(s: State) {
      var pc := Pc(s, me);
      IsEntry(pc) && !pc.Unwind? && !Undoing(pc) && Cancelled(s, pc.o)
    }

    ghost predicate Thwarted(since: nat) reads `actions {
      exists s :: Saw(since, s) && Thwarts(s)
    }

    lemma ThwartedStays(a: seq<Action>, since: nat)
      requires a <= actions && exists s :: Passed(base, a, since, s) && Thwarts(s)
      ensures Thwarted(since)
    {
      var s :| Passed(base, a, since, s) && Thwarts(s);
      PassedStays(base, a, actions, since, s);
    }

    /** A stage of the entry gives up only when somebody cancelled it or a native call did not work. */
    ghost predicate Justified(ok: bool, since: nat, from: nat) reads `actions, `clock {
      && (!ok ==> Thwarted(since) || !AllWork(from))
      && (Alone() && AllWork(from) ==> ok)
    }

    method GiveUpOr(ok: bool, pc: PC, n: Native, ghost since: nat)
      requires Traced() && WellFormed(state) && Checks(pc) && Pc(state, me) == pc && since <= |actions|
      requires pc.o in state.inners && ok == !state.inners[pc.o].cancelled
      modifies this`state, this`actions
      ensures Traced() && old(actions) <= actions && (!ok ==> Thwarted(since))
      ensures state == At(old(state), me, if ok then GoOn(pc) else Unwind(pc.o))
    {
      SeesNow(since);
      ghost var a := actions;
      assert !ok ==> Thwarts(state);
      Move(Step(me, n), At(state, me, if ok then GoOn(pc) else Unwind(pc.o)));
      if !ok { ThwartedStays(a, since); }
    }

    /** One load of the cancellation flag, outside the locks. */
    method CheckCancelled(
      pc: PC, ghost switchable: bool, ghost stages: set<Stage>, ghost source: Option<Native>,
      ghost since: nat, ghost from: nat)
      returns (ok: bool)
      requires Traced() && Checks(pc) && Pc(state, me) == pc && EntryHas(pc.o, switchable, stages, source)
      requires since <= |actions|
      modifies this`clock, this`state, this`actions
      ensures Traced() && old(actions) <= actions && old(clock) <= clock
      ensures Pc(state, me) == if ok then GoOn(pc) else Unwind(pc.o)
      ensures ok ==> EntryHas(pc.o, switchable, stages, source)
      ensures Justified(ok, since, from)
    {
      var n := Pause();
      ok := !state.inners[pc.o].cancelled;
      GiveUpOr(ok, pc, n, since);
    }

    /** `Utf8OutputLease::acquire` under the lease lock. */
    method TakeLease(o: nat, ghost switchable: bool, ghost since: nat, ghost from: nat)
      returns (ok: bool, ghost source: Native)
      requires Traced() && Pc(state, me) == OutputAcquire(o) && EntryHas(o, switchable, {}, None)
      requires since <= |actions| && from <= clock
      modifies this`clock, this`state, this`actions
      ensures Traced() && old(actions) <= actions && clock == old(clock) + 1 && source == world(old(clock)).native
      ensures Pc(state, me) == if ok then OutputRecheck(o) else Unwind(o)
      ensures ok ==> EntryHas(o, switchable, {}, Some(source))
      ensures Justified(ok, since, from)
    {
      var n := Pause();
      source := n;
      var (l, w, panicked) := AcquireSection(state.inners[o].lease, state.world, n);
      Move(Step(me, n), At(state.(inners := state.inners[o := state.inners[o].(lease := l)], world := w), me,
                           if panicked then Unwind(o) else OutputRecheck(o)));
      ok := !panicked;
    }

    method AcquireOutput(o: nat, ghost switchable: bool, ghost since: nat, ghost from: nat)
      returns (ok: bool, ghost source: Native)
      requires Traced() && Pc(state, me) == OutputCheck(o) && EntryHas(o, switchable, {}, None)
      requires since <= |actions| && from <= clock
      modifies this`clock, this`state, this`actions
      ensures Traced() && old(actions) <= actions && old(clock) <= clock
      ensures Pc(state, me) == if ok then StageCheck(o, 0) else Unwind(o)
      ensures ok ==> EntryHas(o, switchable, {}, Some(source)) && Answered(source, from)
      ensures Justified(ok, since, from)
    {
      source := world(clock).native;
      ok := CheckCancelled(OutputCheck(o), switchable, {}, None, since, from);
      if ok { ok, source := TakeLease(o, switchable, since, from); }
      if ok { ok := CheckCancelled(OutputRecheck(o), switchable, {}, Some(source), since, from); }
    }

    /** The native answers `n` were given since `from`. */
    ghost predicate Answered(n: Native, from: nat) reads `clock {
      exists k :: from <= k < clock && n == world(k).native
    }

    /** The part of `enter_stage` under the terminal-state lock. */
    method Mutate(
      o: nat, k: nat, ghost switchable: bool, ghost before: set<Stage>, ghost source: Native,
      ghost since: nat, ghost from: nat)
      returns (ok: bool)
      requires Traced() && k < |ENTER_STAGES| && Pc(state, me) == StageEnter(o, k)
      requires EntryHas(o, switchable, before, Some(source)) && since <= |actions| && from <= clock
      modifies this`clock, this`state, this`actions
      ensures Traced() && old(actions) <= actions && old(clock) <= clock
      ensures Pc(state, me) == if ok then StageRecheck(o, k) else Unwind(o)
      ensures ok ==> EntryHas(o, switchable, before + {ENTER_STAGES[k]}, Some(source))
      ensures Justified(ok, since, from)
    {
      var n := Pause();
      ok := EnterSection(o, k, n, switchable, before, source, since);
    }

    method EnterSection(
      o: nat, k: nat, n: Native, ghost switchable: bool, ghost before: set<Stage>, ghost source: Native,
      ghost since: nat)
      returns (ok: bool)
      requires Traced() && WellFormed(state) && k < |ENTER_STAGES| && Pc(state, me) == StageEnter(o, k)
      requires EntryHas(o, switchable, before, Some(source)) && since <= |actions|
      modifies this`state, this`actions
      ensures Traced() && old(actions) <= actions
      ensures Pc(state, me) == if ok then StageRecheck(o, k) else Unwind(o)
      ensures ok ==> EntryHas(o, switchable, before + {ENTER_STAGES[k]}, Some(source))
      ensures !ok ==> Thwarted(since) || !n.enterOk
      ensures Alone() && n.enterOk ==> ok
    {
      SeesNow(since);
      ghost var a := actions;
      assert state.inners[o].cancelled ==> Thwarts(state);
      var (i, w, entered) := EnterStageSection(state.inners[o], state.world, ENTER_STAGES[k], n);
      Move(Step(me, n), At(state.(inners := state.inners[o := i], world := w), me,
                           if entered then StageRecheck(o, k) else Unwind(o)));
      ok := entered;
      if i.cancelled { ThwartedStays(a, since); }
    }

    method EnterStage(
      o: nat, k: nat, ghost switchable: bool, ghost before: set<Stage>, ghost source: Native,
      ghost since: nat, ghost from: nat)
      returns (ok: bool)
      requires Traced() && k < |ENTER_STAGES| && Pc(state, me) == StageCheck(o, k)
      requires EntryHas(o, switchable, before, Some(source)) && since <= |actions| && from <= clock
      modifies this`clock, this`state, this`actions
      ensures Traced() && old(actions) <= actions && old(clock) <= clock
      ensures Pc(state, me) == if ok then GoOn(StageRecheck(o, k)) else Unwind(o)
      ensures ok ==> EntryHas(o, switchable, before + {ENTER_STAGES[k]}, Some(source))
      ensures Justified(ok, since, from)
    {
      ok := CheckCancelled(StageCheck(o, k), switchable, before, Some(source), since, from);
      if ok { ok := Mutate(o, k, switchable, before, source, since, from); }
      if ok {
        ok := CheckCancelled(StageRecheck(o, k), switchable, before + {ENTER_STAGES[k]}, Some(source), since, from);
      }
    }

    /**
     * The guard that `enter` returns: active, not cancelled, with all four modes on and recorded, and the page
     * switched exactly when the native answers allowed it.
     */
    ghost predicate Entered(o: nat, switchable: bool, source: Native) reads `state {
      && Pc(state, me) == Guarding(o) && state.slot == Active(o) && o in state.inners
      && !state.inners[o].cancelled
      && HasDone(state.inners[o], state.world, switchable, ALL, Some(source))
    }

    /** `EnterTransaction::finish`. */
    method FinishEntry(o: nat, ghost switchable: bool, ghost source: Native, ghost since: nat, ghost from: nat)
      returns (ok: bool)
      requires Traced() && Pc(state, me) == Finish(o) && EntryHas(o, switchable, ALL, Some(source))
      requires since <= |actions|
      modifies this`clock, this`state, this`actions
      ensures Traced() && old(actions) <= actions && old(clock) <= clock
      ensures if ok then Entered(o, switchable, source) else Pc(state, me) == Unwind(o)
      ensures Justified(ok, since, from)
    {
      var n := Pause();
      SeesNow(since);
      ghost var a := actions;
      ok := !state.inners[o].cancelled;
      assert !ok ==> Thwarts(state);
      Move(Step(me, n), if ok then At(state.(slot := Active(o)), me, Guarding(o)) else At(state, me, Unwind(o)));
      if !ok { ThwartedStays(a, since); }
    }

    /** The stages entered by the first `k` turns of the loop. */
    ghost function FirstStages(k: nat): set<Stage>
      requires k <= |ENTER_STAGES|
    {
      set i | 0 <= i < k :: ENTER_STAGES[i]
    }

    lemma AllFour()
      ensures FirstStages(|ENTER_STAGES|) == ALL
    {
      assert ENTER_STAGES[0] == RawMode && ENTER_STAGES[1] == AlternateScreen;
      assert ENTER_STAGES[2] == HideCursor && ENTER_STAGES[3] == BracketedPaste;
    }

    method EnterStages(o: nat, ghost switchable: bool, ghost source: Native, ghost since: nat, ghost from: nat)
      returns (ok: bool)
      requires Traced() && Pc(state, me) == StageCheck(o, 0) && EntryHas(o, switchable, {}, Some(source))
      requires since <= |actions| && from <= clock
      modifies this`clock, this`state, this`actions
      ensures Traced() && old(actions) <= actions && old(clock) <= clock
      ensures Pc(state, me) == if ok then Finish(o) else Unwind(o)
      ensures ok ==> EntryHas(o, switchable, ALL, Some(source))
      ensures Justified(ok, since, from)
    {
      for k := 0 to |ENTER_STAGES|
        invariant Traced() && old(actions) <= actions && old(clock) <= clock
        invariant Pc(state, me) == if k < |ENTER_STAGES| then StageCheck(o, k) else Finish(o)
        invariant EntryHas(o, switchable, FirstStages(k), Some(source))
      {
        ok := EnterStage(o, k, switchable, FirstStages(k), source, since, from);
        if !ok { return; }
        assert FirstStages(k + 1) == FirstStages(k) + {ENTER_STAGES[k]};
      }
      AllFour();
      return true;
    }

    /** What the dropped entry leaves in the slot. */
    ghost predicate Relinquished(o: nat, left: Restored) reads `state {
      match left
      case AllRestored => state.slot.Vacant? && state.world == World({}, base)
      case StillOwed => state.slot == PendingGuard(o)
      case Unwound => state.slot == Entering(o) && o in state.abandoned
    }

    /** The entry transaction is dropped: cancel, restore, and vacate or defer. */
    method DropEntry(o: nat, ghost since: nat, ghost from: nat) returns (left: Restored)
      requires Traced() && Pc(state, me) == Unwind(o) && since <= |actions| && from <= clock
      modifies this`clock, this`state, this`actions
      ensures Traced() && old(actions) <= actions && old(clock) <= clock && Pc(state, me) == Idle
      ensures Ran(since, o, Rollback) && Relinquished(o, left) && (AllUndo(from) ==> left.AllRestored?)
    {
      BeginRollback(o);
      left := RollBack(o, since);
    }

    method RollBack(o: nat, ghost since: nat) returns (left: Restored)
      requires Traced() && Pc(state, me) == RestoreModes(o, Rollback) && since <= |actions|
      modifies this`clock, this`state, this`actions
      ensures Traced() && old(actions) <= actions && old(clock) <= clock && Pc(state, me) == Idle
      ensures Ran(since, o, Rollback) && Relinquished(o, left) && (AllUndo(old(clock)) ==> left.AllRestored?)
    {
      left := Restore(o, Rollback);
      assert Ran(since, o, Rollback) by { RanEarlier(since, old(|actions|), o, Rollback); }
      if !left.Unwound? { FinishEntering(o, left.AllRestored?, since); }
    }

    method BeginRollback(o: nat)
      requires Traced() && Pc(state, me) == Unwind(o)
      modifies this`clock, this`state, this`actions
      ensures Traced() && old(actions) <= actions && old(clock) <= clock
      ensures Pc(state, me) == RestoreModes(o, Rollback)
    {
      var n := Pause();
      assert PcWellFormed(state, Pc(state, me));
      Move(Step(me, n), At(Cancel(state, o), me, RestoreModes(o, Rollback)));
    }

    method FinishEntering(o: nat, restored: bool, ghost since: nat)
      requires Traced() && Pc(state, me) == Release(o, Rollback, restored) && Ran(since, o, Rollback)
      modifies this`clock, this`state, this`actions
      ensures Traced() && old(actions) <= actions && old(clock) <= clock && Pc(state, me) == Idle
      ensures Ran(since, o, Rollback) && Relinquished(o, if restored then AllRestored else StillOwed)
    {
      ghost var a := actions;
      LetGoOfEntry(o, restored);
      assert Ran(since, o, Rollback) by { RanRestoreStays(base, a, actions, since, me, o, Rollback); }
      assert Inv(state, base) by { Known(); }
    }

    method LetGoOfEntry(o: nat, restored: bool)
      requires Traced() && Pc(state, me) == Release(o, Rollback, restored)
      modifies this`clock, this`state, this`actions
      ensures Traced() && old(actions) <= actions && old(clock) <= clock && Pc(state, me) == Idle
      ensures if restored then state.slot.Vacant? else state.slot == PendingGuard(o)
    {
      var n := Pause();
      assert state.slot == Entering(o) by {
        Known();
        assert PcOk(state, Pc(state, me));
      }
      Move(Step(me, n), At(state.(slot := FinishEnteringSection(state.slot, o, restored)), me, Idle));
    }

    /** The stages of `enter` once the slot is claimed. */
    method EnterClaimed(o: nat, ghost switchable: bool, ghost since: nat, ghost from: nat)
      returns (ok: bool, ghost source: Native)
      requires Traced() && Pc(state, me) == OutputCheck(o) && EntryHas(o, switchable, {}, None)
      requires since <= |actions| && from <= clock
      modifies this`clock, this`state, this`actions
      ensures Traced() && old(actions) <= actions && old(clock) <= clock
      ensures if ok then Entered(o, switchable, source) && Answered(source, from) else Pc(state, me) == Unwind(o)
      ensures Justified(ok, since, from)
    {
      ok, source := AcquireOutput(o, switchable, since, from);
      if ok { ok := EnterStages(o, switchable, source, since, from); }
      if ok { ok := FinishEntry(o, switchable, source, since, from); }
    }

    /** How `enter` may end, and why. */
    ghost predicate EnteredAs(r: Entry, switchable: bool, tries: nat, since: nat, from: nat)
      reads `state, `actions, `clock
    {
      match r
      case Holding(o) => exists n :: Entered(o, switchable, n) && Answered(n, from)
      case Refused => Pc(state, me) == Idle && TurnedAway(switchable, since, from)
      case RolledBack(o, left) =>
        && Pc(state, me) == Idle && (Thwarted(since) || !AllWork(from))
        && Ran(since, o, Rollback) && Relinquished(o, left) && (AllUndo(from) ==> left.AllRestored?)
      case StillClaiming => Pc(state, me) == Claim(switchable) && (tries == 0 || Retried(since, switchable))
    }

    /**
     * `TerminalGuard::enter`: it ends holding an active guard that was not cancelled, with the output settled
     * and all four modes on; or refused because the slot was taken or a deferred restoration still failed; or
     * rolled back because somebody cancelled it or a native call did not work. Left alone with native calls
     * that work it enters whenever the slot is vacant or deferred.
     */
    method EnterTerminal(switchable: bool, tries: nat) returns (r: Entry)
      requires Traced() && Pc(state, me) == Idle
      modifies this`clock, this`state, this`actions
      ensures Traced() && old(actions) <= actions && old(clock) <= clock
      ensures EnteredAs(r, switchable, tries, old(|actions|), old(clock))
      ensures Alone() && AllWork(old(clock)) && HasRoom(old(state)) && tries >= 2 ==> r.Holding?
    {
      BeginEnter(switchable);
      r := EnterTrying(switchable, tries, old(|actions|), old(clock));
    }

    method BeginEnter(switchable: bool)
      requires Traced() && Pc(state, me) == Idle
      modifies this`state, this`actions
      ensures Traced() && old(actions) <= actions && Pc(state, me) == Claim(switchable)
      ensures state.slot == old(state.slot) && state.nextOwner == old(state.nextOwner)
    {
      assert WellFormed(state) by { Known(); }
      Move(StartEnter(me, switchable), At(state, me, Claim(switchable)));
    }

    method EnterTrying(switchable: bool, tries: nat, ghost since: nat, ghost from: nat) returns (r: Entry)
      requires Traced() && Pc(state, me) == Claim(switchable) && since <= |actions| && from == clock
      modifies this`clock, this`state, this`actions
      ensures Traced() && old(actions) <= actions && old(clock) <= clock
      ensures EnteredAs(r, switchable, tries, since, from)
      ensures Alone() && AllWork(from) && HasRoom(old(state)) && tries >= 2 ==> r.Holding?
    {
      var claimed := ClaimActiveSlot(switchable, tries);
      Widen(claimed, switchable, since, old(|actions|), from, from);
      match claimed {
        case Busy => return Refused;
        case StillTrying =>
          if tries > 0 { RetriedEarlier(since, old(|actions|), switchable); }
          return StillClaiming;
        case Owns(o) => r := EnterOrRollBack(o, switchable, tries, since, from);
      }
    }

    method EnterOrRollBack(o: nat, ghost switchable: bool, ghost tries: nat, ghost since: nat, ghost from: nat)
      returns (r: Entry)
      requires Traced() && Pc(state, me) == OutputCheck(o) && EntryHas(o, switchable, {}, None)
      requires since <= |actions| && from <= clock
      modifies this`clock, this`state, this`actions
      ensures Traced() && old(actions) <= actions && old(clock) <= clock
      ensures EnteredAs(r, switchable, tries, since, from) && (r.Holding? || r.RolledBack?)
      ensures Alone() && AllWork(from) ==> r.Holding?
    {
      var ok, source := EnterClaimed(o, switchable, since, from);
      if ok { return Holding(o); }
      var left := AbandonEntry(o, since, from);
      return RolledBack(o, left);
    }

    method AbandonEntry(o: nat, ghost since: nat, ghost from: nat) returns (left: Restored)
      requires Traced() && Pc(state, me) == Unwind(o) && (Thwarted(since) || !AllWork(from))
      requires since <= |actions| && from <= clock
      modifies this`clock, this`state, this`actions
      ensures Traced() && old(actions) <= actions && old(clock) <= clock && Pc(state, me) == Idle
      ensures Thwarted(since) || !AllWork(from)
      ensures Ran(since, o, Rollback) && Relinquished(o, left) && (AllUndo(from) ==> left.AllRestored?)
    {
      ghost var a, thwarted := actions, Thwarted(since);
      left := DropEntry(o, since, from);
      if thwarted { ThwartedStays(a, since); }
    }

    // ----- guard drop and abnormal exit ------------------------------------

    /**
     * `TerminalGuard` is dropped: everything is restored and the slot no longer names the guard; or what the
     * native calls did not undo is kept for a later claim; or a panic abandons it.
     */
    method DropGuard(o: nat) returns (r: Restored)
      requires Traced() && Pc(state, me) == Guarding(o)
      modifies this`clock, this`state, this`actions
      ensures Traced() && old(actions) <= actions && old(clock) <= clock && Pc(state, me) == Idle
      ensures Ran(old(|actions|), o, ForDrop)
      ensures r.AllRestored? ==> Settled(o) && (state.slot.Vacant? || state.slot.owner != o)
      ensures r.StillOwed? ==> state.slot == PendingGuard(o) || state.slot.Vacant? || state.slot.owner != o
      ensures r.Unwound? ==> o in state.abandoned
      ensures (AllUndo(old(clock)) ==> r.AllRestored?) && (NonePanics(old(clock)) ==> !r.Unwound?)
      ensures Alone() && AllUndo(old(clock)) && old(state).slot == Active(o) ==>
                state.slot.Vacant? && state.world == World({}, base)
    {
      BeginDrop(o);
      r := RestoreAndLetGo(o, old(|actions|), old(clock));
    }

    method RestoreAndLetGo(o: nat, ghost since: nat, ghost from: nat) returns (r: Restored)
      requires Traced() && Pc(state, me) == RestoreModes(o, ForDrop) && since <= |actions| && from == clock
      modifies this`clock, this`state, this`actions
      ensures Traced() && old(actions) <= actions && old(clock) <= clock && Pc(state, me) == Idle
      ensures Ran(since, o, ForDrop)
      ensures r.AllRestored? ==> Settled(o) && (state.slot.Vacant? || state.slot.owner != o)
      ensures r.StillOwed? ==> state.slot == PendingGuard(o) || state.slot.Vacant? || state.slot.owner != o
      ensures r.Unwound? ==> o in state.abandoned
      ensures (AllUndo(from) ==> r.AllRestored?) && (NonePanics(from) ==> !r.Unwound?)
      ensures Alone() && r.AllRestored? && old(state).slot == Active(o) ==>
                state.slot.Vacant? && state.world == World({}, base)
    {
      r := Restore(o, ForDrop);
      assert Ran(since, o, ForDrop) by { RanEarlier(since, old(|actions|), o, ForDrop); }
      if !r.Unwound? { FinishGuard(o, r.AllRestored?, since); }
    }

    method BeginDrop(o: nat)
      requires Traced() && Pc(state, me) == Guarding(o)
      modifies this`state, this`actions
      ensures Traced() && old(actions) <= actions && Pc(state, me) == RestoreModes(o, ForDrop)
      ensures state.slot == old(state.slot)
    {
      assert WellFormed(state) by { Known(); }
      Move(StartDrop(me), At(state, me, RestoreModes(o, ForDrop)));
    }

    method FinishGuard(o: nat, restored: bool, ghost since: nat)
      requires Traced() && Pc(state, me) == Release(o, ForDrop, restored) && Ran(since, o, ForDrop)
      modifies this`clock, this`state, this`actions
      ensures Traced() && old(actions) <= actions && clock == old(clock) + 1 && Pc(state, me) == Idle
      ensures Ran(since, o, ForDrop)
      ensures restored ==> Settled(o) && (state.slot.Vacant? || state.slot.owner != o)
      ensures !restored ==> state.slot == PendingGuard(o) || state.slot.Vacant? || state.slot.owner != o
      ensures Alone() && restored && old(state.slot) == Active(o) ==> state.slot.Vacant?
      ensures state.slot.Vacant? ==> state.world == World({}, base)
    {
      ghost var a := actions;
      LetGoOfGuard(o, restored);
      assert Ran(since, o, ForDrop) by { RanRestoreStays(base, a, actions, since, me, o, ForDrop); }
      assert state.slot.Vacant? ==> state.world == World({}, base) by { Known(); }
    }

    method LetGoOfGuard(o: nat, restored: bool)
      requires Traced() && Pc(state, me) == Release(o, ForDrop, restored)
      modifies this`clock, this`state, this`actions
      ensures Traced() && old(actions) <= actions && clock == old(clock) + 1 && Pc(state, me) == Idle
      ensures restored ==> Settled(o) && (state.slot.Vacant? || state.slot.owner != o)
      ensures !restored ==> state.slot == PendingGuard(o) || state.slot.Vacant? || state.slot.owner != o
      ensures Alone() && restored && old(state.slot) == Active(o) ==> state.slot.Vacant?
    {
      var n := Pause();
      assert state.slot != Entering(o) && (restored ==> Settled(o)) by {
        Known();
        assert PcOk(state, Pc(state, me));
      }
      Move(Step(me, n), At(state.(slot := FinishGuardSection(state.slot, o, restored)), me, Idle));
    }

    /** An abnormal exit that finds this has nothing to restore. */
    ghost predicate NothingToRestore(s: State) {
      s.slot.Vacant? || (s.slot.Active? && !Held(s, s.slot.owner))
    }

    function WhyAbnormal(s: Slot): Why {
      if s.Entering? then AbnormalEntering else AbnormalGuard
    }

    /** `abnormal_restore_target`. */
    method AbnormalTarget() returns (target: Option<(nat, Why)>, ghost saw: State)
      requires Traced() && Pc(state, me) == Abnormal
      modifies this`clock, this`state, this`actions
      ensures Traced() && old(actions) <= actions && old(clock) <= clock && Saw(old(|actions|), saw)
      ensures target.None? <==> NothingToRestore(saw)
      ensures target.Some? ==> target.value == (saw.slot.owner, WhyAbnormal(saw.slot))
      ensures Pc(state, me) == if target.None? then Idle else RestoreModes(target.value.0, target.value.1)
      ensures saw.slot.Entering? ==> Cancelled(state, saw.slot.owner)
      ensures state.slot == saw.slot && (Alone() ==> saw == old(state))
    {
      var n := Pause();
      SeesNow(old(|actions|));
      saw := state;
      ghost var a := actions;
      match state.slot {
        case Vacant =>
          Move(Step(me, n), At(state, me, Idle));
          target := None;
        case Entering(o) =>
          Move(Step(me, n), At(Cancel(state, o), me, RestoreModes(o, AbnormalEntering)));
          target := Some((o, AbnormalEntering));
        case Active(o) =>
          var alive := exists t :: t in state.threads && Holds(Pc(state, t), o);
          Move(Step(me, n), At(state, me, if alive then RestoreModes(o, AbnormalGuard) else Idle));
          target := if alive then Some((o, AbnormalGuard)) else None;
        case PendingGuard(o) =>
          Move(Step(me, n), At(state, me, RestoreModes(o, AbnormalGuard)));
          target := Some((o, AbnormalGuard));
      }
      PassedStays(base, a, actions, old(|actions|), saw);
    }

    method BeginAbnormal()
      requires Traced() && Pc(state, me) == Idle
      modifies this`state, this`actions
      ensures Traced() && old(actions) <= actions && Pc(state, me) == Abnormal
      ensures state.slot == old(state.slot) && forall o :: Held(state, o) <==> Held(old(state), o)
    {
      assert WellFormed(state) by { Known(); }
      ghost var before := state;
      Move(StartAbnormal(me), At(state, me, Abnormal));
      forall o ensures Held(state, o) <==> Held(before, o) {
        if t :| t in before.threads && Holds(Pc(before, t), o) { assert Holds(Pc(state, t), o); }
        if t :| t in state.threads && Holds(Pc(state, t), o) { assert Holds(Pc(before, t), o); }
      }
    }

    lemma SawEarlier(since: nat, later: nat, s: State)
      requires since <= later && Saw(later, s)
      ensures Saw(since, s)
    {
    }

    /** What the abnormal exit did about the slot it saw. */
    ghost predicate ExitedAs(saw: State, done: Option<Restored>, since: nat, from: nat)
      reads `state, `actions, `clock
    {
      && (done.None? <==> NothingToRestore(saw))
      && (done.Some? ==>
            var o, why := saw.slot.owner, WhyAbnormal(saw.slot);
            && Ran(since, o, why)
            && (AllUndo(from) ==> done.value.AllRestored?)
            && (NonePanics(from) ==> !done.value.Unwound?)
            && (saw.slot.Entering? ==> Cancelled(state, o))
            && (done.value.AllRestored? && saw.slot.Entering? ==> state.inners[o].entered == {})
            && (done.value.AllRestored? && !saw.slot.Entering? ==>
                  Settled(o) && (state.slot.Vacant? || state.slot.owner != o)))
    }

    /**
     * `restore_on_abnormal_exit`. It returns without restoring exactly when the slot it saw was vacant or
     * active with nobody left to hold the guard; otherwise it made both halves of the restoration of the owner
     * it saw. When all comes back restored nothing is owed for that owner, and unless it is still entering the
     * slot does not name it. Left alone with native calls that work, it empties the slot.
     */
    method RestoreOnAbnormalExit() returns (ghost saw: State, ghost done: Option<Restored>)
      requires Traced() && Pc(state, me) == Idle
      modifies this`clock, this`state, this`actions
      ensures Traced() && old(actions) <= actions && old(clock) <= clock && Pc(state, me) == Idle
      ensures Saw(old(|actions|), saw) && ExitedAs(saw, done, old(|actions|), old(clock))
      ensures Alone() ==> saw.slot == old(state.slot) && forall o :: Held(saw, o) <==> Held(old(state), o)
      ensures Alone() && AllUndo(old(clock)) && done.Some? && !saw.slot.Entering? ==>
                state.slot.Vacant? && state.world == World({}, base)
    {
      BeginAbnormal();
      ghost var later := |actions|;
      var target: Option<(nat, Why)>;
      target, saw := AbnormalTarget();
      SawEarlier(old(|actions|), later, saw);
      done := None;
      if target.Some? {
        done := RestoreTarget(target.value.0, target.value.1, saw, old(|actions|), old(clock));
      }
    }

    method RestoreTarget(o: nat, why: Why, ghost saw: State, ghost since: nat, ghost from: nat)
      returns (ghost done: Option<Restored>)
      requires Traced() && Pc(state, me) == RestoreModes(o, why) && since <= |actions| && from <= clock
      requires Saw(since, saw) && !NothingToRestore(saw) && state.slot == saw.slot
      requires o == saw.slot.owner && why == WhyAbnormal(saw.slot) && (saw.slot.Entering? ==> Cancelled(state, o))
      modifies this`clock, this`state, this`actions
      ensures Traced() && old(actions) <= actions && old(clock) <= clock && Pc(state, me) == Idle
      ensures done.Some? && Saw(since, saw) && ExitedAs(saw, done, since, from)
      ensures Alone() && AllUndo(from) && !saw.slot.Entering? ==> state.slot.Vacant?
      ensures state.slot.Vacant? ==> state.world == World({}, base)
    {
      ghost var a := actions;
      var r := Restore(o, why);
      done := Some(r);
      RanEarlier(since, |a|, o, why);
      ghost var b := actions;
      if why == AbnormalGuard && r.AllRestored? { ClearRestoredOwner(o, why); }
      PassedStays(base, a, actions, since, saw);
      RanRestoreStays(base, b, actions, since, me, o, why);
      assert Inv(state, base) by { Known(); }
    }
  }
}
