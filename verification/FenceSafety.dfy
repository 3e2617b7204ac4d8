/** What holds over every run of the generation fence. */
module FenceSafety {
  import opened Prelude
  import opened GenerationWord
  import opened GenerationFence

  lemma {:induction false} RunKeeps(s: State, actions: seq<Action>)
    requires Inv(s)
    ensures Inv(Run(s, actions))
    decreases |actions|
  {
    if actions != [] {
      ApplyKeeps(s, actions[0]);
      RunKeeps(Apply(s, actions[0]), actions[1..]);
    }
  }

  lemma InitHolds(epoch: nat)
    ensures Inv(Init(epoch))
  {
    assert Reservations(Init(epoch)) == {};
  }

  /**
   * The packed count is the number of live and speculative reservations, and
   * no release ever finds the count at zero.
   */
  lemma CountIsExact(epoch: nat, actions: seq<Action>)
    ensures var s := Run(Init(epoch), actions);
      && Value(Count(s.word)) == |Reservations(s)|
      && (forall t: nat :: !Pc(s, t).ReleasePanicked?)
      && (forall t: nat | Pc(s, t).Releasing? :: Count(s.word) != 0)
  {
    InitHolds(epoch);
    RunKeeps(Init(epoch), actions);
    var s := Run(Init(epoch), actions);
    SmallCounts(s.word);
    forall t: nat ensures PcOk(s, Pc(s, t)) {}
    forall t: nat | Pc(s, t).Releasing? ensures Count(s.word) != 0 {
      assert t in Reservations(s);
    }
  }

  /** Reserving never carries into the phase and never wraps, from any reachable word. */
  lemma ReserveIsSafe(s: State, t: nat, e: nat, spurious: bool)
    requires Inv(s) && TryReserve(s, t, e, s.word, spurious).word != s.word
    ensures var w := TryReserve(s, t, e, s.word, spurious).word;
      Phase(w) == Phase(s.word) == CURRENT && w > s.word && Value(Count(w)) == Value(Count(s.word)) + 1
  {
    ReserveAddsOne(s.word);
    PhaseOfReserve(s.word);
    ReserveDoesNotOverflow(s.word);
  }

  /** What a step of another thread leaves alone. */
  ghost predicate Aside(s: State, s': State, me: nat) {
    Pc(s', me) == Pc(s, me) && s'.epoch == s.epoch && s'.poisoned == s.poisoned
  }

  lemma ReserveAside(s: State, t: nat, e: nat, w: bv64, spurious: bool, me: nat)
    requires t != me
    ensures Aside(s, TryReserve(s, t, e, w, spurious), me)
  {
  }

  lemma RetireAside(s: State, t: nat, w: bv64, spurious: bool, me: nat)
    requires t != me
    ensures Aside(s, TryRetire(s, t, w, spurious), me)
  {
  }

  lemma ReleaseAside(s: State, t: nat, me: nat)
    requires t != me
    ensures Aside(s, GenerationFence.ReleaseOne(s, t), me) && Aside(s, NotifyOne(s, t), me)
  {
  }

  lemma OtherThread(s: State, t: nat, spurious: bool, me: nat)
    requires t != me
    ensures Aside(s, StepThread(s, t, spurious), me)
  {
    match Pc(s, t)
    case LoadedWord(e, w) => ReserveAside(s, t, e, w, spurious, me);
    case Releasing => ReleaseAside(s, t, me);
    case Notifying => ReleaseAside(s, t, me);
    case RetireLoaded(w) => RetireAside(s, t, w, spurious, me);
    case LoadedEpoch(e) => assert Aside(s, At(s, t, LoadedWord(e, s.word)), me);
    case Reserved(e, m) => assert Aside(s, At(s, t, if s.epoch != e then Releasing else Admitted(e, m)), me);
    case CommitLocked(e, m) =>
    case RetireLocked => assert Aside(s, At(s, t, RetireLoaded(s.word)), me);
    case _ =>
  }

  // ----- the phase -----------------------------------------------------------

  lemma RetireIsLast(w: bv64)
    requires Phase(w) != 3
    ensures Phase(w) <= Phase(Retire(w))
  {
  }

  lemma PhaseOfThreadStep(s: State, t: nat, spurious: bool)
    requires Inv(s)
    ensures Phase(s.word) <= Phase(StepThread(s, t, spurious).word)
  {
    WordOfThreadStep(s, t, spurious);
    PhaseOfReserve(s.word);
    RetireIsLast(s.word);
    if Count(s.word) != 0 { ReleaseTakesOne(s.word); }
  }

  /** One step of a thread leaves the word or does one of three things to it. */
  lemma WordOfThreadStep(s: State, t: nat, spurious: bool)
    ensures var w := StepThread(s, t, spurious).word;
      w == s.word || w == Reserve(s.word) || w == Retire(s.word) || (Count(s.word) != 0 && w == Release(s.word))
  {
  }

  lemma PhaseStep(s: State, a: Action)
    requires Inv(s)
    ensures Phase(s.word) <= Phase(Apply(s, a).word)
  {
    match a
    case Step(t, spurious) => PhaseOfThreadStep(s, t, spurious);
    case _ =>
  }

  /** The phase only moves forward. */
  lemma {:induction false} PhaseForward(s: State, actions: seq<Action>)
    requires Inv(s)
    ensures Phase(s.word) <= Phase(Run(s, actions).word)
    decreases |actions|
  {
    if actions != [] {
      PhaseStep(s, actions[0]);
      ApplyKeeps(s, actions[0]);
      PhaseForward(Apply(s, actions[0]), actions[1..]);
    }
  }

  /** `mark_current` succeeds exactly while the fence is preparing. */
  lemma MarkCurrentIff(s: State)
    requires Inv(s)
    ensures s.word == 0 <==> Phase(s.word) == PREPARING
    ensures Phase(s.word) == PREPARING ==> Phase(Apply(s, MarkCurrent).word) == CURRENT
  {
    if Phase(s.word) == PREPARING {
      WordIsPair(s.word, 0);
    }
  }

  // ----- draining ------------------------------------------------------------

  ghost predicate Drained(s: State) {
    Phase(s.word) == RETIRED && Count(s.word) == 0
  }

  lemma NobodyReserves(s: State, t: nat)
    requires Inv(s) && Count(s.word) == 0
    ensures !Reserves(Pc(s, t))
  {
    SmallCounts(s.word);
    assert Reservations(s) == {};
    assert t !in Reservations(s);
  }

  lemma DrainedStep(s: State, a: Action)
    requires Inv(s) && Drained(s)
    ensures Apply(s, a).word == s.word
  {
    match a
    case Step(t, spurious) => NobodyReserves(s, t);
    case _ =>
  }

  /** Once retired and empty, the word never changes again and nobody is ever admitted. */
  lemma {:induction false} DrainedForever(s: State, later: seq<Action>)
    requires Inv(s) && Drained(s)
    ensures Run(s, later).word == s.word && Reservations(Run(s, later)) == {}
    decreases |later|
  {
    if later == [] {
      SmallCounts(s.word);
    } else {
      DrainedStep(s, later[0]);
      ApplyKeeps(s, later[0]);
      DrainedForever(Apply(s, later[0]), later[1..]);
    }
  }

  /** A drain that returns on a retired fence stays drained. */
  lemma DrainReturnsForGood(s: State, later: seq<Action>)
    requires Inv(s) && s.waiter.Created? && Apply(s, Wait).waiter == Done(true)
    ensures Reservations(Run(Apply(s, Wait), later)) == {}
    ensures forall t: nat :: !Reserves(Pc(Run(Apply(s, Wait), later), t))
  {
    ApplyKeeps(s, Wait);
    DrainedForever(Apply(s, Wait), later);
    var s' := Run(Apply(s, Wait), later);
    forall t: nat ensures !Reserves(Pc(s', t)) {
      assert t !in Reservations(s');
    }
  }

  /** With no notification under way, the waiter does not sleep at count zero. */
  lemma NoLostWakeUp(epoch: nat, actions: seq<Action>)
    ensures var s := Run(Init(epoch), actions);
      Sleepy(s) && !Notifier(s.threads) ==> Count(s.word) != 0 && Reservations(s) != {}
  {
    InitHolds(epoch);
    RunKeeps(Init(epoch), actions);
    SmallCounts(Run(Init(epoch), actions).word);
  }

  /** A waiter asleep at count zero has a notification coming, which makes it return. */
  lemma WokenWaiterReturns(s: State)
    requires Inv(s) && s.waiter.Asleep? && Count(s.word) == 0
    ensures Notifier(s.threads)
    ensures forall t: nat | Pc(s, t).Notifying? ::
      StepWaiter(StepWaiter(StepThread(s, t, false))).waiter == Done(Phase(s.word) == RETIRED)
  {
  }

  // ----- admission and commit ------------------------------------------------

  /** The recorded moment is the moment of the successful compare-and-swap. */
  lemma MomentIsHonest(s: State, t: nat, spurious: bool)
    requires Pc(s, t).LoadedWord? && Pc(StepThread(s, t, spurious), t).Reserved?
    ensures Pc(StepThread(s, t, spurious), t).moment == Moment(s.epoch, Phase(s.word))
    ensures StepThread(s, t, spurious).word == Reserve(s.word)
  {
    assert StepThread(s, t, spurious) == TryReserve(s, t, Pc(s, t).e, Pc(s, t).w, spurious);
  }

  /**
   * Every live activity was reserved on a current generation, in the same even
   * and open epoch that its `enter` loaded first and saw again afterwards.
   */
  lemma AdmissionIsCurrent(epoch: nat, actions: seq<Action>, t: nat)
    ensures var s := Run(Init(epoch), actions);
      Pc(s, t).Admitted? || Pc(s, t).CommitLocked? || Pc(s, t).Committing? ==>
        && Pc(s, t).moment == Moment(Pc(s, t).e, CURRENT)
        && Pc(s, t).e % 2 == 0 && Pc(s, t).e != CLOSED && Pc(s, t).e <= s.epoch
  {
    InitHolds(epoch);
    RunKeeps(Init(epoch), actions);
    assert PcOk(Run(Init(epoch), actions), Pc(Run(Init(epoch), actions), t));
  }

  /** While a commit window is open the fence is current and no other window is open. */
  lemma CommitWindowIsCurrent(epoch: nat, actions: seq<Action>, t: nat, u: nat)
    ensures var s := Run(Init(epoch), actions);
      Pc(s, t).Committing? ==> Phase(s.word) == CURRENT && (HoldsLock(Pc(s, u)) ==> u == t)
  {
    InitHolds(epoch);
    RunKeeps(Init(epoch), actions);
    assert PcOk(Run(Init(epoch), actions), Pc(Run(Init(epoch), actions), t));
  }

  /** Retirement waits for the open window: it cannot even take the lock. */
  lemma RetirementWaits(s: State, t: nat, u: nat)
    requires Inv(s) && Pc(s, t).Committing?
    ensures Apply(s, StartRetire(u)) == s
    ensures forall a :: Pc(Apply(s, a), t).Committing? ==> Phase(Apply(s, a).word) == CURRENT
  {
    assert s.lock == Some(t);
    forall a | Pc(Apply(s, a), t).Committing? ensures Phase(Apply(s, a).word) == CURRENT {
      ApplyKeeps(s, a);
      assert PcOk(Apply(s, a), Pc(Apply(s, a), t));
    }
  }

  predicate InWindow(pc: PC) { pc.CommitLocked? || pc.Committing? }

  /** The commit mutex is poisoned and nobody is inside it to open a window. */
  ghost predicate WindowsShut(s: State) {
    s.poisoned && forall t: nat :: !InWindow(Pc(s, t))
  }

  lemma NoWindowByExchange(s: State, t: nat, e: nat, w: bv64, spurious: bool)
    ensures !InWindow(Pc(TryReserve(s, t, e, w, spurious), t)) && !InWindow(Pc(TryRetire(s, t, w, spurious), t))
  {
  }

  lemma NoWindowByRelease(s: State, t: nat)
    ensures !InWindow(Pc(ReleaseOne(s, t), t)) && !InWindow(Pc(NotifyOne(s, t), t))
  {
  }

  lemma ShutThread(s: State, t: nat, spurious: bool)
    requires !InWindow(Pc(s, t))
    ensures !InWindow(Pc(StepThread(s, t, spurious), t))
  {
    match Pc(s, t)
    case LoadedWord(e, w) => NoWindowByExchange(s, t, e, w, spurious);
    case RetireLoaded(w) => NoWindowByExchange(s, t, 0, w, spurious);
    case Releasing => NoWindowByRelease(s, t);
    case Notifying => NoWindowByRelease(s, t);
    case LoadedEpoch(e) =>
    case Reserved(e, m) =>
    case RetireLocked =>
    case _ =>
  }

  lemma KeepsPoison(s: State, t: nat, spurious: bool)
    ensures StepThread(s, t, spurious).poisoned == s.poisoned
  {
    OtherThread(s, t, spurious, t + 1);
  }

  lemma ShutStep(s: State, a: Action)
    requires Inv(s) && WindowsShut(s)
    ensures WindowsShut(Apply(s, a))
  {
    forall u: nat ensures !InWindow(Pc(Apply(s, a), u)) {
      assert !InWindow(Pc(s, u));
      if a.Step? {
        if a.t == u { ShutThread(s, u, a.spurious); } else { OtherThread(s, a.t, a.spurious, u); }
      }
    }
    if a.Step? { KeepsPoison(s, a.t, a.spurious); }
  }

  lemma {:induction false} ShutForever(s: State, later: seq<Action>)
    requires Inv(s) && WindowsShut(s)
    ensures WindowsShut(Run(s, later))
    decreases |later|
  {
    if later != [] {
      ShutStep(s, later[0]);
      ApplyKeeps(s, later[0]);
      ShutForever(Apply(s, later[0]), later[1..]);
    }
  }

  /** A panic inside a commit window poisons the mutex: no window ever opens again, over any later run. */
  lemma PanicShutsWindows(s: State, t: nat, later: seq<Action>)
    requires Inv(s) && Pc(s, t).Committing?
    ensures WindowsShut(Run(Apply(s, EndCommit(t, true)), later))
  {
    var s' := Apply(s, EndCommit(t, true));
    ApplyKeeps(s, EndCommit(t, true));
    forall u: nat ensures !InWindow(Pc(s', u)) {
      assert HoldsLock(Pc(s', u)) <==> s'.lock == Some(u);
    }
    ShutForever(s', later);
  }
}
