/**
 * The generation fence under any number of threads.
 *
 * Each atomic operation on the packed word, each load of the publication epoch
 * and each mutex operation is one step. A weak compare-and-swap may fail
 * spuriously. The publisher is environment and only raises the epoch. One task
 * waits for the drain.
 */
module GenerationFence {
  import opened Prelude
  import opened GenerationWord

  const CLOSED: nat := 0xFFFF_FFFF_FFFF_FFFF

  /** What was true at the moment an activity was reserved. */
  datatype Moment = Moment(epoch: nat, phase: bv64)

  datatype PC =
    | Idle
    // `enter`
    | LoadedEpoch(e: nat)
    | LoadedWord(e: nat, w: bv64)
    | Reserved(e: nat, moment: Moment)
    // a live activity
    | Admitted(e: nat, moment: Moment)
    | CommitLocked(e: nat, moment: Moment)
    | Committing(e: nat, moment: Moment)
    // `release`
    | Releasing
    | Notifying
    | ReleasePanicked
    // `mark_retired`
    | RetireLocked
    | RetireLoaded(w: bv64)

  /** The drain waiter; `Done(stayed)` remembers whether the fence was retired when it looked. */
  datatype Waiter = Away | Created | MustAwait | Asleep | Done(retired: bool)

  datatype State = State(
    epoch: nat, word: bv64, lock: Option<nat>, poisoned: bool,
    threads: map<nat, PC>, permit: bool, waiter: Waiter)

  function Pc(s: State, t: nat): PC {
    if t in s.threads then s.threads[t] else Idle
  }

  function At(s: State, t: nat, pc: PC): State {
    s.(threads := s.threads[t := pc])
  }

  /** The thread owns one of the reservations counted in the word. */
  predicate Reserves(pc: PC) {
    pc.Reserved? || pc.Admitted? || pc.CommitLocked? || pc.Committing? || pc.Releasing?
  }

  predicate HoldsLock(pc: PC) {
    pc.CommitLocked? || pc.Committing? || pc.RetireLocked? || pc.RetireLoaded?
  }

  function Reservations(s: State): set<nat> {
    set t | t in s.threads && Reserves(s.threads[t])
  }

  datatype Action =
    | StartEnter(t: nat)
    | StartCommit(t: nat)
    | EndCommit(t: nat, panicking: bool)
    | StartRelease(t: nat)
    | StartRetire(t: nat)
    | Step(t: nat, spurious: bool)
    | MarkCurrent
    | Publish(epoch: nat)
    | Wait

  /** One turn of the admission loop, on the last word that was seen. */
  function TryReserve(s: State, t: nat, e: nat, w: bv64, spurious: bool): State {
    if Phase(w) != CURRENT || Full(w) then At(s, t, Idle)
    else if s.word != w || spurious then At(s, t, LoadedWord(e, s.word))
    else At(s.(word := Reserve(w)), t, Reserved(e, Moment(s.epoch, Phase(w))))
  }

  /** One turn of the retirement loop, on the last word that was seen. */
  function TryRetire(s: State, t: nat, w: bv64, spurious: bool): State {
    if Phase(w) == RETIRED then At(s.(lock := None), t, Idle)
    else if s.word != w || spurious then At(s, t, RetireLoaded(s.word))
    else At(s.(word := Retire(w), lock := None), t, Idle)
  }

  function ReleaseOne(s: State, t: nat): State {
    if Count(s.word) == 0 then At(s, t, ReleasePanicked)
    else At(s.(word := Release(s.word)), t, if Count(s.word) == 1 then Notifying else Idle)
  }

  /** `notify_one`: wakes the sleeping waiter, or leaves one permit behind. */
  function NotifyOne(s: State, t: nat): State {
    At(if s.waiter.Asleep? then s.(waiter := Away) else s.(permit := true), t, Idle)
  }

  function StepThread(s: State, t: nat, spurious: bool): State {
    match Pc(s, t)
    case LoadedEpoch(e) => At(s, t, LoadedWord(e, s.word))
    case LoadedWord(e, w) => TryReserve(s, t, e, w, spurious)
    case Reserved(e, m) => At(s, t, if s.epoch != e then Releasing else Admitted(e, m))
    case CommitLocked(e, m) =>
      if s.epoch == CLOSED || Phase(s.word) != CURRENT
      then At(s.(lock := None), t, Admitted(e, m))
      else At(s, t, Committing(e, m))
    case Releasing => ReleaseOne(s, t)
    case Notifying => NotifyOne(s, t)
    case RetireLocked => At(s, t, RetireLoaded(s.word))
    case RetireLoaded(w) => TryRetire(s, t, w, spurious)
    case _ => s
  }

  /** One step of `wait_drained`; after `Done` the waiter may start over. */
  function StepWaiter(s: State): State {
    match s.waiter
    case Away => s.(waiter := Created)
    case Created =>
      if Count(s.word) == 0 then s.(waiter := Done(Phase(s.word) == RETIRED)) else s.(waiter := MustAwait)
    case MustAwait => if s.permit then s.(permit := false, waiter := Away) else s.(waiter := Asleep)
    case Asleep => s
    case Done(_) => s.(waiter := Away)
  }

  function Apply(s: State, a: Action): State {
    match a
    case StartEnter(t) =>
      if Pc(s, t).Idle? && s.epoch != CLOSED && s.epoch % 2 == 0 then At(s, t, LoadedEpoch(s.epoch)) else s
    case StartCommit(t) =>
      if Pc(s, t).Admitted? && s.lock.None? && !s.poisoned
      then At(s.(lock := Some(t)), t, CommitLocked(Pc(s, t).e, Pc(s, t).moment)) else s
    case EndCommit(t, panicking) =>
      if Pc(s, t).Committing?
      then At(s.(lock := None, poisoned := s.poisoned || panicking), t, Admitted(Pc(s, t).e, Pc(s, t).moment)) else s
    case StartRelease(t) => if Pc(s, t).Admitted? then At(s, t, Releasing) else s
    case StartRetire(t) =>
      if Pc(s, t).Idle? && s.lock.None? then At(s.(lock := Some(t)), t, RetireLocked) else s
    case Step(t, spurious) => StepThread(s, t, spurious)
    case MarkCurrent => if s.word == 0 then s.(word := 1) else s
    case Publish(epoch) => if s.epoch <= epoch <= CLOSED then s.(epoch := epoch) else s
    case Wait => StepWaiter(s)
  }

  function Run(s: State, actions: seq<Action>): State
    decreases |actions|
  {
    if actions == [] then s else Run(Apply(s, actions[0]), actions[1..])
  }

  /** A new fence under publication epoch `epoch`. */
  function Init(epoch: nat): State {
    State(epoch, 0, None, false, map[], false, Away)
  }

  // ----- the invariant -------------------------------------------------------

  /** The reservation was made on a current generation, in an even epoch not before `e`. */
  predicate GoodMoment(s: State, e: nat, m: Moment) {
    e % 2 == 0 && e != CLOSED && m.phase == CURRENT && e <= m.epoch <= s.epoch
  }

  predicate PcOk(s: State, pc: PC) {
    && !pc.ReleasePanicked?
    && ((pc.LoadedEpoch? || pc.LoadedWord?) ==> pc.e % 2 == 0 && pc.e != CLOSED && pc.e <= s.epoch)
    && (pc.Reserved? ==> GoodMoment(s, pc.e, pc.moment))
    && ((pc.Admitted? || pc.CommitLocked? || pc.Committing?) ==>
          GoodMoment(s, pc.e, pc.moment) && pc.moment.epoch == pc.e)
    && (pc.Committing? ==> Phase(s.word) == CURRENT)
  }

  ghost predicate ThreadsOk(s: State) {
    && (forall t: nat :: PcOk(s, Pc(s, t)))
    && (forall t: nat :: HoldsLock(Pc(s, t)) <==> s.lock == Some(t))
  }

  predicate WordOk(s: State) {
    && Phase(s.word) != 3
    && (Phase(s.word) == PREPARING ==> Count(s.word) == 0)
  }

  ghost predicate Counted(s: State) {
    Value(Count(s.word)) == |Reservations(s)|
  }

  /** Somebody is between dropping the count to zero and notifying. */
  ghost predicate Notifier(threads: map<nat, PC>) {
    exists t :: t in threads && threads[t].Notifying?
  }

  /** The waiter has decided to sleep and no permit is left to stop it. */
  predicate Sleepy(s: State) {
    s.waiter.Asleep? || (s.waiter.MustAwait? && !s.permit)
  }

  ghost predicate WakeUp(s: State) {
    Sleepy(s) && Count(s.word) == 0 ==> Notifier(s.threads)
  }

  ghost predicate Inv(s: State) {
    ThreadsOk(s) && WordOk(s) && Counted(s) && WakeUp(s)
  }

  // ----- every step keeps the invariant --------------------------------------

  /** Moving thread `t` to `pc'` changes the set of reservations by at most `t`. */
  lemma ReservationsAt(s: State, t: nat, pc': PC)
    ensures Reservations(At(s, t, pc')) ==
      if Reserves(pc') then Reservations(s) + {t} else Reservations(s) - {t}
    ensures t in Reservations(s) <==> Reserves(Pc(s, t))
  {
  }

  lemma CountAt(s: State, t: nat, pc': PC)
    ensures |Reservations(At(s, t, pc'))| ==
      |Reservations(s)| + (if Reserves(pc') then 1 else 0) - (if Reserves(Pc(s, t)) then 1 else 0)
  {
    ReservationsAt(s, t, pc');
    SizeWith(Reservations(s), t);
  }

  lemma SizeWith(a: set<nat>, t: nat)
    ensures |a + {t}| == |a| + if t in a then 0 else 1
    ensures |a - {t}| == |a| - if t in a then 1 else 0
  {
    if t in a { assert a + {t} == a; } else { assert a - {t} == a; }
  }

  /** Whatever another thread relies on survives the move from `s` to `s'`. */
  ghost predicate OthersKeep(s: State, s': State, pc0: PC) {
    forall pc :: PcOk(s, pc) && !(HoldsLock(pc) && HoldsLock(pc0)) ==> PcOk(s', pc)
  }

  lemma ThreadsKeep(s: State, s': State, t: nat, pc': PC)
    requires ThreadsOk(s) && s'.threads == s.threads[t := pc']
    requires PcOk(s', pc') && OthersKeep(s, s', Pc(s, t))
    requires s'.lock == if HoldsLock(pc') then Some(t) else if HoldsLock(Pc(s, t)) then None else s.lock
    requires HoldsLock(pc') ==> s.lock == None || s.lock == Some(t)
    ensures ThreadsOk(s')
  {
    forall u: nat ensures PcOk(s', Pc(s', u)) && (HoldsLock(Pc(s', u)) <==> s'.lock == Some(u)) {
      assert PcOk(s, Pc(s, u)) && (HoldsLock(Pc(s, u)) <==> s.lock == Some(u));
      assert HoldsLock(Pc(s, t)) <==> s.lock == Some(t);
      assert u != t ==> Pc(s', u) == Pc(s, u);
    }
  }

  lemma Keep(s: State, s': State, t: nat, pc': PC)
    requires Inv(s) && s'.threads == s.threads[t := pc']
    requires PcOk(s', pc') && OthersKeep(s, s', Pc(s, t))
    requires s'.lock == if HoldsLock(pc') then Some(t) else if HoldsLock(Pc(s, t)) then None else s.lock
    requires HoldsLock(pc') ==> s.lock == None || s.lock == Some(t)
    requires WordOk(s')
    requires Value(Count(s'.word)) == Value(Count(s.word))
      + (if Reserves(pc') then 1 else 0) - (if Reserves(Pc(s, t)) then 1 else 0)
    requires WakeUp(s')
    ensures Inv(s')
  {
    CountAt(s, t, pc');
    assert Reservations(s') == Reservations(At(s, t, pc'));
    ThreadsKeep(s, s', t, pc');
  }

  /** A step that leaves the word, the waiter and the permit alone, and notifies nobody. */
  lemma WakeUpKept(s: State, s': State, t: nat, pc': PC)
    requires WakeUp(s) && s'.threads == s.threads[t := pc'] && !Pc(s, t).Notifying?
    requires s'.waiter == s.waiter && s'.permit == s.permit
    requires Count(s'.word) == 0 ==> Count(s.word) == 0
    ensures WakeUp(s')
  {
    if Sleepy(s') && Count(s'.word) == 0 {
      var u :| u in s.threads && s.threads[u].Notifying?;
      assert u in s'.threads && s'.threads[u].Notifying?;
    }
  }

  /** A step that leaves the word alone. */
  lemma KeepSameWord(s: State, s': State, t: nat, pc': PC)
    requires Inv(s) && s'.threads == s.threads[t := pc'] && s'.word == s.word && s'.epoch == s.epoch
    requires PcOk(s, pc') && (Reserves(pc') <==> Reserves(Pc(s, t))) && !Pc(s, t).Notifying?
    requires s'.lock == if HoldsLock(pc') then Some(t) else if HoldsLock(Pc(s, t)) then None else s.lock
    requires HoldsLock(pc') ==> s.lock == None || s.lock == Some(t)
    requires s'.waiter == s.waiter && s'.permit == s.permit
    ensures Inv(s')
  {
    WakeUpKept(s, s', t, pc');
    Keep(s, s', t, pc');
  }

  lemma ReserveKeeps(s: State, t: nat)
    requires Inv(s) && Pc(s, t).LoadedWord? && Phase(s.word) == CURRENT && !Full(s.word)
    ensures Inv(TryReserve(s, t, Pc(s, t).e, s.word, false))
  {
    var pc := Pc(s, t);
    assert PcOk(s, pc);
    var s' := TryReserve(s, t, pc.e, s.word, false);
    ReserveAddsOne(s.word);
    PhaseOfReserve(s.word);
    SmallCounts(s'.word);
    assert OthersKeep(s, s', pc);
    WakeUpKept(s, s', t, Reserved(pc.e, Moment(s.epoch, CURRENT)));
    Keep(s, s', t, Reserved(pc.e, Moment(s.epoch, CURRENT)));
  }

  lemma TryReserveKeeps(s: State, t: nat, spurious: bool)
    requires Inv(s) && Pc(s, t).LoadedWord?
    ensures Inv(TryReserve(s, t, Pc(s, t).e, Pc(s, t).w, spurious))
  {
    var e, w := Pc(s, t).e, Pc(s, t).w;
    assert PcOk(s, Pc(s, t));
    if Phase(w) != CURRENT || Full(w) {
      KeepSameWord(s, At(s, t, Idle), t, Idle);
    } else if s.word != w || spurious {
      KeepSameWord(s, At(s, t, LoadedWord(e, s.word)), t, LoadedWord(e, s.word));
    } else {
      ReserveKeeps(s, t);
    }
  }

  lemma StartKeeps(s: State, a: Action)
    requires Inv(s) && (a.StartEnter? || a.StartCommit? || a.EndCommit? || a.StartRelease? || a.StartRetire?)
    ensures Inv(Apply(s, a))
  {
    var pc := Pc(s, a.t);
    var s' := Apply(s, a);
    if s' != s {
      assert PcOk(s, pc);
      match a
      case StartEnter(t) => KeepSameWord(s, s', t, LoadedEpoch(s.epoch));
      case StartCommit(t) => KeepSameWord(s, s', t, CommitLocked(pc.e, pc.moment));
      case EndCommit(t, _) => KeepSameWord(s, s', t, Admitted(pc.e, pc.moment));
      case StartRelease(t) => KeepSameWord(s, s', t, Releasing);
      case StartRetire(t) => KeepSameWord(s, s', t, RetireLocked);
    }
  }

  lemma ReleaseKeeps(s: State, t: nat)
    requires Inv(s) && Pc(s, t).Releasing?
    ensures Inv(ReleaseOne(s, t))
  {
    CountAt(s, t, Idle);
    SmallCounts(s.word);
    ReleaseTakesOne(s.word);
    SmallCounts(Release(s.word));
    var s' := ReleaseOne(s, t);
    var pc' := if Count(s.word) == 1 then Notifying else Idle;
    assert s' == At(s.(word := Release(s.word)), t, pc');
    assert OthersKeep(s, s', Releasing);
    if Count(s.word) == 1 {
      assert t in s'.threads && s'.threads[t].Notifying?;
    } else {
      WakeUpKept(s, s', t, pc');
    }
    Keep(s, s', t, pc');
  }

  lemma NotifyKeeps(s: State, t: nat)
    requires Inv(s) && Pc(s, t).Notifying?
    ensures Inv(NotifyOne(s, t))
  {
    var s' := NotifyOne(s, t);
    assert s'.word == s.word && s'.threads == s.threads[t := Idle];
    assert OthersKeep(s, s', Notifying) by {
      forall pc | PcOk(s, pc) ensures PcOk(s', pc) {}
    }
    Keep(s, s', t, Idle);
  }

  lemma RetireKeeps(s: State, t: nat, w: bv64)
    requires Inv(s) && Pc(s, t).RetireLoaded? && Phase(s.word) != RETIRED && w == s.word
    ensures Inv(TryRetire(s, t, w, false))
  {
    var s' := TryRetire(s, t, w, false);
    RetireKeepsCount(s.word);
    assert PcOk(s, Pc(s, t));
    assert OthersKeep(s, s', Pc(s, t)) by {
      forall pc | PcOk(s, pc) && !HoldsLock(pc) ensures PcOk(s', pc) {}
    }
    WakeUpKept(s, s', t, Idle);
    Keep(s, s', t, Idle);
  }

  lemma TryRetireKeeps(s: State, t: nat, spurious: bool)
    requires Inv(s) && Pc(s, t).RetireLoaded?
    ensures Inv(TryRetire(s, t, Pc(s, t).w, spurious))
  {
    var w := Pc(s, t).w;
    var s' := TryRetire(s, t, w, spurious);
    if Phase(w) == RETIRED {
      KeepSameWord(s, s', t, Idle);
    } else if s.word != w || spurious {
      KeepSameWord(s, s', t, RetireLoaded(s.word));
    } else {
      RetireKeeps(s, t, w);
    }
  }

  lemma CommitCheckKeeps(s: State, t: nat)
    requires Inv(s) && Pc(s, t).CommitLocked?
    ensures Inv(StepThread(s, t, false)) && StepThread(s, t, true) == StepThread(s, t, false)
  {
    var e, m := Pc(s, t).e, Pc(s, t).moment;
    assert PcOk(s, Pc(s, t));
    if s.epoch == CLOSED || Phase(s.word) != CURRENT {
      KeepSameWord(s, At(s.(lock := None), t, Admitted(e, m)), t, Admitted(e, m));
    } else {
      KeepSameWord(s, At(s, t, Committing(e, m)), t, Committing(e, m));
    }
  }

  lemma StepThreadKeeps(s: State, t: nat, spurious: bool)
    requires Inv(s)
    ensures Inv(StepThread(s, t, spurious))
  {
    var pc := Pc(s, t);
    assert PcOk(s, pc);
    match pc
    case LoadedEpoch(e) => KeepSameWord(s, At(s, t, LoadedWord(e, s.word)), t, LoadedWord(e, s.word));
    case LoadedWord(_, _) => TryReserveKeeps(s, t, spurious);
    case Reserved(e, m) =>
      var pc' := if s.epoch != e then Releasing else Admitted(e, m);
      KeepSameWord(s, At(s, t, pc'), t, pc');
    case CommitLocked(_, _) => CommitCheckKeeps(s, t);
    case Releasing => ReleaseKeeps(s, t);
    case Notifying => NotifyKeeps(s, t);
    case RetireLocked => KeepSameWord(s, At(s, t, RetireLoaded(s.word)), t, RetireLoaded(s.word));
    case RetireLoaded(_) => TryRetireKeeps(s, t, spurious);
    case _ =>
  }

  /** The environment moves no thread. */
  lemma EnvironmentKeeps(s: State, s': State)
    requires Inv(s) && s'.threads == s.threads && s'.lock == s.lock && s.epoch <= s'.epoch
    requires Count(s'.word) == Count(s.word) && WordOk(s')
    requires s'.word == s.word || Phase(s.word) == PREPARING
    requires WakeUp(s')
    ensures Inv(s')
  {
    assert Reservations(s') == Reservations(s);
    forall t: nat ensures PcOk(s', Pc(s', t)) { assert PcOk(s, Pc(s, t)); }
  }

  /** `mark_current` on a word that is exactly zero. */
  lemma MarkCurrentKeeps(s: State)
    requires Inv(s) && s.word == 0
    ensures Inv(s.(word := 1))
  {
    EnvironmentKeeps(s, s.(word := 1));
  }

  lemma WaiterKeeps(s: State)
    requires Inv(s)
    ensures Inv(StepWaiter(s))
  {
    EnvironmentKeeps(s, StepWaiter(s));
  }

  /** One action of any thread, of the publisher or of the waiter keeps the invariant. */
  lemma ApplyKeeps(s: State, a: Action)
    requires Inv(s)
    ensures Inv(Apply(s, a))
  {
    match a
    case Step(t, spurious) => StepThreadKeeps(s, t, spurious);
    case MarkCurrent => if s.word == 0 { MarkCurrentKeeps(s); }
    case Publish(epoch) => if s.epoch <= epoch <= CLOSED { EnvironmentKeeps(s, s.(epoch := epoch)); }
    case Wait => WaiterKeeps(s);
    case _ => StartKeeps(s, a);
  }
}
