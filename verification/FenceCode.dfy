/**
 * The calls of one thread on the fence as the code writes them: the admission
 * and retirement loops over weak exchanges, the release and the commit mutex.
 * Everybody else does what they like between any two atomic operations, and
 * whatever happened is a run of the protocol.
 */
module FenceCode {
  import opened Prelude

  import opened FenceSafety
  import opened GenerationFence
  import opened GenerationWord

  /** What everybody else does before an atomic operation of this thread, and whether its exchange fails for nothing. */
  datatype Turn = Turn(others: seq<Action>, spurious: bool)

  predicate ByOthers(a: Action, me: nat) {
    a.MarkCurrent? || a.Publish? || a.Wait? || a.t != me
  }

  /** Loops and blocking calls are followed for a number of turns only. */
  datatype Admission = Activity(epoch: nat) | Refused | StillTrying
  datatype Window = Open | Stale | Unavailable | StillBlocked

  /** The others never move this thread; the epoch and the phase only go forward. */
  ghost predicate Untouched(s: State, s': State, me: nat) {
    Pc(s', me) == Pc(s, me) && s.epoch <= s'.epoch && Phase(s.word) <= Phase(s'.word)
  }

  lemma OtherAction(s: State, a: Action, me: nat)
    requires Inv(s) && ByOthers(a, me)
    ensures Untouched(s, Apply(s, a), me)
  {
    PhaseStep(s, a);
    if a.Step? { OtherThread(s, a.t, a.spurious, me); }
  }

  lemma {:induction false} RunAppend(s: State, actions: seq<Action>, a: Action)
    ensures Run(s, actions + [a]) == Apply(Run(s, actions), a)
    decreases |actions|
  {
    if actions == [] {
      assert ([] + [a])[1..] == [];
    } else {
      assert (actions + [a])[0] == actions[0] && (actions + [a])[1..] == actions[1..] + [a];
      RunAppend(Apply(s, actions[0]), actions[1..], a);
    }
  }

  /** The run was in state `s` since its action `since`. */
  ghost predicate Passed(epoch: nat, actions: seq<Action>, since: nat, s: State) {
    exists k :: since <= k <= |actions| && s == Run(Init(epoch), actions[..k])
  }

  lemma PassedStays(epoch: nat, a: seq<Action>, b: seq<Action>, since: nat, s: State)
    requires a <= b && Passed(epoch, a, since, s)
    ensures Passed(epoch, b, since, s)
  {
    var k :| since <= k <= |a| && s == Run(Init(epoch), a[..k]);
    assert a[..k] == b[..k];
  }

  /** A fence in this state admits nobody who saw epoch `first`. */
  predicate Excludes(s: State, first: nat) {
    s.epoch == CLOSED || s.epoch % 2 != 0 || Phase(s.word) != CURRENT || Full(s.word) || s.epoch != first
  }

  class Caller {
    const me: nat
    const epoch: nat                  // the publication epoch the fence was created under
    const world: nat -> Turn
    var clock: nat
    var state: State                  // the fence, shared with everybody else
    ghost var actions: seq<Action>    // all that happened since the fence was created

    /** The state is that of a run of the protocol. */
    ghost predicate Traced() reads this {
      state == Run(Init(epoch), actions) && forall k, a :: a in world(k).others ==> ByOthers(a, me)
    }

    constructor (me: nat, epoch: nat, world: nat -> Turn, s: State, ghost actions: seq<Action>)
      requires s == Run(Init(epoch), actions) && forall k, a :: a in world(k).others ==> ByOthers(a, me)
      ensures Traced() && state == s && this.me == me && this.world == world && this.actions == actions
    {
      this.me, this.epoch, this.world, clock, state, this.actions := me, epoch, world, 0, s, actions;
    }

    /** Nobody else does anything and no exchange fails for nothing. */
    ghost predicate Quiet() {
      forall k :: world(k) == Turn([], false)
    }

    ghost predicate Saw(since: nat, s: State) reads `actions {
      Passed(epoch, actions, since, s)
    }

    ghost predicate SawWord(since: nat, w: bv64) reads `actions {
      exists s :: Saw(since, s) && s.word == w
    }

    ghost predicate SawEpoch(since: nat, e: nat) reads `actions {
      exists s :: Saw(since, s) && s.epoch == e
    }

    /** A caller who loaded epoch `first` met a state that excludes it. */
    ghost predicate Excluded(since: nat, first: nat) reads `actions {
      exists s :: Saw(since, s) && Excludes(s, first)
    }

    lemma SeesNow(since: nat)
      requires Traced() && since <= |actions|
      ensures Saw(since, state) && SawWord(since, state.word) && SawEpoch(since, state.epoch)
    {
      assert actions[..|actions|] == actions;
    }

    lemma SightsStay(a: seq<Action>, since: nat)
      requires a <= actions
      ensures forall s :: Passed(epoch, a, since, s) ==> Saw(since, s)
    {
      forall s | Passed(epoch, a, since, s) ensures Saw(since, s) { PassedStays(epoch, a, actions, since, s); }
    }

    lemma Known()
      requires Traced()
      ensures Inv(state) && PcOk(state, Pc(state, me))
    {
      InitHolds(epoch);
      RunKeeps(Init(epoch), actions);
    }

    /** This thread's own atomic operation, or an action of somebody else. */
    method Move(ghost a: Action, next: State)
      requires Traced() && next == Apply(state, a)
      modifies this`state, this`actions
      ensures Traced() && state == next && actions == old(actions) + [a]
    {
      RunAppend(Init(epoch), actions, a);
      state := next;
      actions := actions + [a];
    }

    lemma MoreByOthers(s: State, a: Action)
      requires Traced() && Untouched(s, state, me) && ByOthers(a, me)
      ensures Untouched(s, Apply(state, a), me)
    {
      Known();
      OtherAction(state, a, me);
    }

    /** The others move; the answer is for the exchange that follows, if one does. */
    method Pause() returns (spurious: bool)
      requires Traced()
      modifies this`clock, this`state, this`actions
      ensures Traced() && Untouched(old(state), state, me) && old(actions) <= actions
      ensures Quiet() ==> state == old(state) && !spurious
    {
      var others := world(clock).others;
      spurious := world(clock).spurious;
      clock := clock + 1;
      for k := 0 to |others|
        invariant Traced() && Untouched(old(state), state, me) && old(actions) <= actions
        invariant k == 0 ==> state == old(state)
      {
        MoreByOthers(old(state), others[k]);
        Move(others[k], Apply(state, others[k]));
      }
    }

    // ----- enter and release -----------------------------------------------

    /** One turn of the admission loop, on the last word that was seen; `None` when it goes on. */
    method AdmissionTurn(e: nat, seen: bv64, ghost since: nat) returns (reserved: Option<bool>, observed: bv64)
      requires Traced() && Pc(state, me) == LoadedWord(e, seen) && since <= |actions| && SawWord(since, seen)
      modifies this`clock, this`state, this`actions
      ensures Traced() && old(actions) <= actions && SawWord(since, observed)
      ensures match reserved
              case None => Pc(state, me) == LoadedWord(e, observed)
              case Some(true) => Pc(state, me).Reserved? && Pc(state, me).e == e
              case Some(false) => Pc(state, me).Idle? && Excluded(since, e)
      ensures Quiet() && seen == old(state.word) ==>
                reserved == Some(Phase(seen) == CURRENT && !Full(seen)) && state.epoch == old(state.epoch)
    {
      var spurious := Pause();
      SeesNow(since);
      SightsStay(old(actions), since);
      ghost var a := actions;
      observed := state.word;
      if Phase(seen) != CURRENT || Full(seen) {
        Move(Step(me, spurious), At(state, me, Idle));
        SightsStay(a, since);
        return Some(false), observed;
      }
      if state.word != seen || spurious {
        Move(Step(me, spurious), At(state, me, LoadedWord(e, observed)));
        SightsStay(a, since);
        return None, observed;
      }
      var moment := Moment(state.epoch, Phase(seen));
      Move(Step(me, spurious), At(state.(word := Reserve(seen)), me, Reserved(e, moment)));
      SightsStay(a, since);
      return Some(true), observed;
    }

    /** The admission loop, from the first load of the word on. */
    method AdmissionLoop(e: nat, tries: nat, ghost since: nat) returns (reserved: Option<bool>)
      requires Traced() && Pc(state, me) == LoadedEpoch(e) && since <= |actions|
      modifies this`clock, this`state, this`actions
      ensures Traced() && old(actions) <= actions
      ensures match reserved
              case None => Pc(state, me).LoadedWord?
              case Some(true) => Pc(state, me).Reserved? && Pc(state, me).e == e
              case Some(false) => Pc(state, me).Idle? && Excluded(since, e)
      ensures Quiet() && tries > 0 ==>
                && reserved == Some(Phase(old(state.word)) == CURRENT && !Full(old(state.word)))
                && state.epoch == old(state.epoch)
    {
      var spurious := Pause();
      SeesNow(since);
      ghost var a := actions;
      var seen := state.word;
      Move(Step(me, spurious), At(state, me, LoadedWord(e, seen)));
      SightsStay(a, since);
      for k := 0 to tries
        invariant Traced() && old(actions) <= actions && Pc(state, me) == LoadedWord(e, seen) && SawWord(since, seen)
        invariant Quiet() ==> k == 0 && seen == state.word == old(state.word) && state.epoch == old(state.epoch)
      {
        reserved, seen := AdmissionTurn(e, seen, since);
        if reserved.Some? { return; }
      }
      return None;
    }

    /**
     * `enter`: an activity was reserved while the fence was current, in the even open epoch loaded first and
     * seen again afterwards. A refused call leaves no reservation behind, and since it began it passed a state
     * that admits nobody, or not in the epoch it loaded. Undisturbed, it is admitted exactly by a fence that is
     * current and not full, under an even open epoch.
     */
    method Enter(tries: nat) returns (r: Admission, ghost first: nat)
      requires Traced() && Pc(state, me).Idle?
      modifies this`clock, this`state, this`actions
      ensures Traced() && old(actions) <= actions && SawEpoch(old(|actions|), first)
      ensures match r
              case Activity(e) =>
                && Pc(state, me) == Admitted(e, Moment(e, CURRENT))
                && e % 2 == 0 && e != CLOSED && e == state.epoch == first
              case Refused => Pc(state, me).Idle? && Excluded(old(|actions|), first)
              case StillTrying => Pc(state, me).LoadedWord?
      ensures Quiet() && tries > 0 ==>
                && first == old(state.epoch)
                && r == if Excludes(old(state), first) then Refused else Activity(first)
    {
      ghost var since := |actions|;
      var spurious := Pause();
      SeesNow(since);
      ghost var a := actions;
      var e := state.epoch;
      first := e;
      if e == CLOSED || e % 2 != 0 { return Refused, first; }
      Move(StartEnter(me), At(state, me, LoadedEpoch(e)));
      var reserved := AdmissionLoop(e, tries, since);
      SightsStay(a, since);
      match reserved {
        case None => return StillTrying, first;
        case Some(yes) =>
          if !yes { return Refused, first; }
          ghost var b := actions;
          r := Recheck(e, since);
          SightsStay(b, since);
      }
    }

    /** The second look at the epoch. */
    method Recheck(e: nat, ghost since: nat) returns (r: Admission)
      requires Traced() && Pc(state, me).Reserved? && Pc(state, me).e == e && since <= |actions|
      modifies this`clock, this`state, this`actions
      ensures Traced() && old(actions) <= actions
      ensures r == Refused || r == Activity(e)
      ensures r.Activity? ==>
        Pc(state, me) == Admitted(e, Moment(e, CURRENT)) && e % 2 == 0 && e != CLOSED && e == state.epoch
      ensures r.Refused? ==> Pc(state, me).Idle? && Excluded(since, e)
      ensures Quiet() && old(state.epoch) == e ==> r.Activity?
    {
      var spurious := Pause();
      SeesNow(since);
      ghost var a := actions;
      if state.epoch != e {
        Move(Step(me, spurious), At(state, me, Releasing));
        GiveUp();
        SightsStay(a, since);
        return Refused;
      }
      assert PcOk(state, Pc(state, me)) by { Known(); }
      Move(Step(me, spurious), At(state, me, Admitted(e, Pc(state, me).moment)));
      return Activity(e);
    }

    lemma CountIsPositive()
      requires Traced() && Pc(state, me).Releasing?
      ensures Count(state.word) != 0
    {
      CountIsExact(epoch, actions);
    }

    /**
     * `release` up to its notification: whatever the others did before, the count drops by exactly one, the
     * phase stays, the call does not panic, and the waiter is notified exactly when nothing is left.
     */
    method ReleaseOne() returns (notify: bool, ghost before: State)
      requires Traced() && Pc(state, me).Releasing?
      modifies this`clock, this`state, this`actions
      ensures Traced() && old(actions) <= actions && Pc(state, me) == if notify then Notifying else Idle
      ensures Value(Count(state.word)) + 1 == Value(Count(before.word)) && Phase(state.word) == Phase(before.word)
      ensures notify <==> Count(state.word) == 0
      ensures before == Run(Init(epoch), actions[..|actions| - 1])
    {
      var spurious := Pause();
      CountIsPositive();
      before := state;
      var previous := state.word;
      ReleaseTakesOne(previous);
      ReleaseBits(previous);
      notify := Count(previous) == 1;
      Move(Step(me, spurious), At(state.(word := Release(previous)), me, if notify then Notifying else Idle));
    }

    method GiveUp()
      requires Traced() && Pc(state, me).Releasing?
      modifies this`clock, this`state, this`actions
      ensures Traced() && old(actions) <= actions && Pc(state, me).Idle?
    {
      var notify, _ := ReleaseOne();
      if notify {
        var spurious := Pause();
        var next := if state.waiter.Asleep? then state.(waiter := Away) else state.(permit := true);
        Move(Step(me, spurious), At(next, me, Idle));
      }
    }

    /** The activity is dropped. */
    method DropActivity()
      requires Traced() && Pc(state, me).Admitted?
      modifies this`clock, this`state, this`actions
      ensures Traced() && old(actions) <= actions && Pc(state, me).Idle?
    {
      Move(StartRelease(me), At(state, me, Releasing));
      GiveUp();
    }

    // ----- the commit mutex --------------------------------------------------

    /** Somebody held the mutex. */
    ghost predicate SawHeld(since: nat) reads `actions {
      exists s :: Saw(since, s) && s.lock.Some?
    }

    /**
     * `begin_commit`: the window opens on a fence that is current under an authority that is open, each refusal
     * tells why not, and only a held mutex keeps the call waiting.
     */
    method BeginCommit(patience: nat) returns (r: Window)
      requires Traced() && Pc(state, me).Admitted?
      modifies this`clock, this`state, this`actions
      ensures Traced() && old(actions) <= actions
      ensures if r.Open? then Pc(state, me).Committing? else Pc(state, me) == old(Pc(state, me))
      ensures r.Open? ==> Phase(state.word) == CURRENT && state.epoch != CLOSED
      ensures r.Stale? ==> Phase(state.word) != CURRENT || state.epoch == CLOSED
      ensures r.Unavailable? ==> state.poisoned
      ensures r.StillBlocked? ==> patience == 0 || SawHeld(old(|actions|))
      ensures Quiet() && patience > 0 && old(state.lock).None? && !old(state.poisoned) ==> r.Open? || r.Stale?
    {
      var pc := Pc(state, me);
      for k := 0 to patience
        invariant Traced() && old(actions) <= actions && Pc(state, me) == pc
        invariant k == 0 ==> state == old(state)
        invariant k > 0 ==> SawHeld(old(|actions|)) && (Quiet() ==> old(state.lock).Some?)
      {
        var _ := Pause();
        SeesNow(old(|actions|));
        if state.lock.None? {
          r := LockAndOpen();
          return;
        }
      }
      return StillBlocked;
    }

    /** `begin_commit` at a moment when nobody holds the mutex. */
    method LockAndOpen() returns (r: Window)
      requires Traced() && Pc(state, me).Admitted? && state.lock.None?
      modifies this`clock, this`state, this`actions
      ensures Traced() && old(actions) <= actions
      ensures if r.Open? then Pc(state, me).Committing? else Pc(state, me) == old(Pc(state, me))
      ensures r.Open? ==> Phase(state.word) == CURRENT && state.epoch != CLOSED
      ensures r.Stale? ==> Phase(state.word) != CURRENT || state.epoch == CLOSED
      ensures !r.StillBlocked? && (r.Unavailable? <==> old(state.poisoned)) && (r.Unavailable? ==> state.poisoned)
    {
      if state.poisoned { return Unavailable; }
      var e, m := Pc(state, me).e, Pc(state, me).moment;
      Move(StartCommit(me), At(state.(lock := Some(me)), me, CommitLocked(e, m)));
      var spurious := Pause();
      if state.epoch == CLOSED || Phase(state.word) != CURRENT {
        Move(Step(me, spurious), At(state.(lock := None), me, Admitted(e, m)));
        return Stale;
      }
      Move(Step(me, spurious), At(state, me, Committing(e, m)));
      return Open;
    }

    /** One turn of the retirement loop, on the last word that was seen. */
    method RetirementTurn(seen: bv64) returns (done: bool, observed: bv64)
      requires Traced() && Pc(state, me) == RetireLoaded(seen)
      requires Phase(seen) == RETIRED ==> Phase(state.word) >= RETIRED
      modifies this`clock, this`state, this`actions
      ensures Traced() && old(actions) <= actions
      ensures if done then Pc(state, me).Idle? && Phase(state.word) >= RETIRED
              else Pc(state, me) == RetireLoaded(observed) && observed == state.word
      ensures Quiet() && seen == old(state.word) ==> done
    {
      var spurious := Pause();
      if Phase(seen) == RETIRED {
        Move(Step(me, spurious), At(state.(lock := None), me, Idle));
        return true, seen;
      }
      if state.word == seen && !spurious {
        assert Phase(Retire(seen)) == RETIRED by { RetireKeepsCount(seen); }
        Move(Step(me, spurious), At(state.(word := Retire(seen), lock := None), me, Idle));
        return true, seen;
      }
      observed := state.word;
      Move(Step(me, spurious), At(state, me, RetireLoaded(observed)));
      done := false;
    }

    /** `mark_retired` with the mutex held: the retirement loop, which ends retired. */
    method RetirementLoop(tries: nat) returns (done: bool)
      requires Traced() && Pc(state, me).RetireLocked?
      modifies this`clock, this`state, this`actions
      ensures Traced() && old(actions) <= actions
      ensures if done then Pc(state, me).Idle? && Phase(state.word) == RETIRED else Pc(state, me).RetireLoaded?
      ensures Quiet() && tries > 0 ==> done
    {
      var spurious := Pause();
      var seen := state.word;
      Move(Step(me, spurious), At(state, me, RetireLoaded(seen)));
      done := false;
      for k := 0 to tries
        invariant Traced() && old(actions) <= actions && Pc(state, me) == RetireLoaded(seen)
        invariant Phase(seen) == RETIRED ==> Phase(state.word) >= RETIRED
        invariant Quiet() ==> k == 0 && seen == state.word
      {
        done, seen := RetirementTurn(seen);
        if done {
          assert Phase(state.word) != 3 by { Known(); }
          return;
        }
      }
    }

    /** `mark_retired`, for so many polls of the mutex and turns of the loop; left alone it never fails. */
    method MarkRetired(patience: nat, tries: nat) returns (done: bool)
      requires Traced() && Pc(state, me).Idle?
      modifies this`clock, this`state, this`actions
      ensures Traced() && old(actions) <= actions
      ensures done ==> Pc(state, me).Idle? && Phase(state.word) == RETIRED
      ensures !done ==> patience == 0 || SawHeld(old(|actions|)) || Pc(state, me).RetireLoaded?
      ensures Quiet() && old(state.lock).None? && patience > 0 && tries > 0 ==> done
    {
      for k := 0 to patience
        invariant Traced() && old(actions) <= actions && Pc(state, me).Idle?
        invariant k == 0 ==> state == old(state)
        invariant k > 0 ==> SawHeld(old(|actions|)) && (Quiet() ==> old(state.lock).Some?)
      {
        var _ := Pause();
        SeesNow(old(|actions|));
        if state.lock.None? {
          Move(StartRetire(me), At(state.(lock := Some(me)), me, RetireLocked));
          done := RetirementLoop(tries);
          return;
        }
      }
      return false;
    }
  }
}
