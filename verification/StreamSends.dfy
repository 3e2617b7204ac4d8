/**
 * One send from its call to its answer, and one call of `next` that makes its
 * own terminal, whatever the other side of the stream does meanwhile.
 */
module StreamSends {
  import opened Prelude

  import opened EventStream
  import opened StreamCode

  // ----- what is enqueued ----------------------------------------------------

  /** What a send of `e` may put into the queue: the event itself when it is small enough, a protocol failure if not. */
  predicate Carries(x: Event, e: Event, encoded: Option<nat>) {
    && (encoded.Some? && encoded.value <= 1_048_576 ==> x == e)
    && (encoded.None? || encoded.value > 1_048_576 ==> x == Error(ProtocolFailure))
  }

  /** A send of `e` that began when `n` events had been enqueued is under way or over. */
  predicate OnItsWay(c: Channel, t: nat, e: Event, encoded: Option<nat>, n: nat) {
    && n <= |Log(c)|
    && (t in c.senders ==>
          match c.senders[t]
          case Quiet => true
          case Rejected => true
          case WaitingForMutex(f, g) => f == e && g == encoded
          case WaitingForRoom(x) => Carries(x, e, encoded)
          case HoldingPermit(x) => Carries(x, e, encoded)
          case Sent(x, at) => Carries(x, e, encoded) && n <= at < |Log(c)| && Log(c)[at] == x)
  }

  predicate Begins(a: Action, t: nat) { a.Send? && a.t == t }

  lemma FillGrows(c: Channel, t: nat)
    ensures Log(c) <= Log(AdvanceSender(c, t))
  {
    if t in c.senders && c.senders[t].HoldingPermit? {
      assert Log(AdvanceSender(c, t)) == Log(c) + [c.senders[t].event];
    }
  }

  lemma PollKeepsLog(c: Channel)
    ensures Log(PollReceiver(c)) == Log(c)
  {
    if c.queue != [] { AcceptKeepsLog(c); }
    match c.receiver
    case Starting =>
    case Polling =>
    case _ =>
  }

  /** Nothing is ever taken out of the log. */
  lemma LogGrows(c: Channel, a: Action)
    ensures Log(c) <= Log(Apply(c, a))
  {
    match a
    case Advance(t) => FillGrows(c, t);
    case Poll => PollKeepsLog(c);
    case _ =>
  }

  lemma {:induction false} LogOnlyGrows(c: Channel, actions: seq<Action>)
    ensures Log(c) <= Log(Run(c, actions))
    decreases |actions|
  {
    if actions != [] {
      LogGrows(c, actions[0]);
      LogOnlyGrows(Apply(c, actions[0]), actions[1..]);
    }
  }

  lemma OwnAdvance(c: Channel, t: nat, e: Event, encoded: Option<nat>, n: nat)
    requires OnItsWay(c, t, e, encoded, n)
    ensures OnItsWay(AdvanceSender(c, t), t, e, encoded, n)
  {
    FillGrows(c, t);
    if t in c.senders && c.senders[t].HoldingPermit? {
      assert Log(AdvanceSender(c, t)) == Log(c) + [c.senders[t].event];
    }
  }

  predicate SameEntry(c: Channel, d: Channel, t: nat) {
    (t in d.senders <==> t in c.senders) && (t in c.senders ==> d.senders[t] == c.senders[t])
  }

  /** Another sender's step leaves the entry alone. */
  lemma OthersAdvance(c: Channel, t: nat, u: nat)
    requires t != u
    ensures SameEntry(c, AdvanceSender(c, u), t)
  {
    if u in c.senders && c.senders[u].WaitingForMutex? {
      assert SameEntry(c, EnterSection(c, u, c.senders[u].event, c.senders[u].encoded), t);
    }
  }

  lemma Aborts(c: Channel, t: nat, u: nat)
    ensures SameEntry(c, Abort(c, u), t) || (t in Abort(c, u).senders && Abort(c, u).senders[t].Quiet?)
  {
  }

  lemma OnItsWayStep(c: Channel, a: Action, t: nat, e: Event, encoded: Option<nat>, n: nat)
    requires OnItsWay(c, t, e, encoded, n) && !Begins(a, t)
    ensures OnItsWay(Apply(c, a), t, e, encoded, n)
  {
    LogGrows(c, a);
    match a
    case Advance(u) => if u == t { OwnAdvance(c, t, e, encoded, n); } else { OthersAdvance(c, t, u); }
    case AbortSend(u) => Aborts(c, t, u);
    case Poll => PollKeepsLog(c);
    case _ =>
  }

  lemma {:induction false} OnItsWayRun(c: Channel, actions: seq<Action>, t: nat, e: Event, encoded: Option<nat>, n: nat)
    requires OnItsWay(c, t, e, encoded, n) && forall a :: a in actions ==> !Begins(a, t)
    ensures OnItsWay(Run(c, actions), t, e, encoded, n)
    decreases |actions|
  {
    if actions != [] {
      OnItsWayStep(c, actions[0], t, e, encoded, n);
      OnItsWayRun(Apply(c, actions[0]), actions[1..], t, e, encoded, n);
    }
  }

  /**
   * A send that waits for the mutex with `e` and later returns true has put `e` into the queue, or one protocol
   * failure when `e` does not encode within 1 048 576 bytes; and there it stays over every later run.
   */
  lemma SentIsWhatWasOffered(
    c: Channel, t: nat, e: Event, encoded: Option<nat>, actions: seq<Action>, later: seq<Action>)
    requires t in c.senders && c.senders[t] == WaitingForMutex(e, encoded)
    requires forall a :: a in actions ==> !Begins(a, t)
    ensures var d, f := Run(c, actions), Run(Run(c, actions), later);
      (t in d.senders && d.senders[t].Sent?) ==>
        && |Log(c)| <= d.senders[t].at < |Log(f)|
        && Log(f)[d.senders[t].at] ==
           if encoded.Some? && encoded.value <= 1_048_576 then e else Error(ProtocolFailure)
  {
    OnItsWayRun(c, actions, t, e, encoded, |Log(c)|);
    LogOnlyGrows(Run(c, actions), later);
  }

  /** The first step takes the mutex, the second a place in the queue. */
  lemma GetsPermit(c: Channel, t: nat, e: Event, encoded: Option<nat>)
    requires t in c.senders && c.senders[t] == WaitingForMutex(e, encoded)
    requires c.mutex.None? && !c.claimed && !c.closed && |c.queue| < 16
    ensures var d := AdvanceSender(AdvanceSender(c, t), t);
      && t in d.senders && d.senders[t].HoldingPermit? && Carries(d.senders[t].event, e, encoded) && Log(d) == Log(c)
  {
    var c1 := EnterSection(c, t, e, encoded);
    assert t in c1.senders && c1.senders[t].WaitingForRoom? && Carries(c1.senders[t].event, e, encoded);
    assert c1.queue == c.queue && c1.taken == c.taken && !c1.closed;
  }

  lemma FillsIt(c: Channel, t: nat)
    requires t in c.senders && c.senders[t].HoldingPermit?
    ensures var d := AdvanceSender(c, t);
      && t in d.senders && d.senders[t] == Sent(c.senders[t].event, |Log(c)|) && d.mutex.None?
      && Log(d) == Log(c) + [c.senders[t].event]
  {
    assert Log(AdvanceSender(c, t)) == Log(c) + [c.senders[t].event];
  }

  lemma RunThree(c: Channel, a: Action)
    ensures Run(c, [a, a, a]) == Apply(Apply(Apply(c, a), a), a)
  {
    RunOne(c, a);
    RunOne(Apply(c, a), a);
    RunOne(Apply(Apply(c, a), a), a);
    RunAppend(c, [a], [a]);
    RunAppend(c, [a, a], [a]);
    assert [a] + [a] == [a, a] && [a, a] + [a] == [a, a, a];
  }

  /** With the mutex free, room in the queue and the stream open, a send returns true and its event comes next. */
  lemma SendGoesThrough(c: Channel, t: nat, e: Event, encoded: Option<nat>)
    requires t in c.senders && c.senders[t] == WaitingForMutex(e, encoded)
    requires c.mutex.None? && !c.claimed && !c.closed && |c.queue| < 16
    ensures var d := Run(c, [Advance(t), Advance(t), Advance(t)]);
      && t in d.senders && d.senders[t].Sent? && d.senders[t].at == |Log(c)| && d.mutex.None?
      && |Log(d)| == |Log(c)| + 1 && Carries(Log(d)[|Log(c)|], e, encoded)
  {
    RunThree(c, Advance(t));
    GetsPermit(c, t, e, encoded);
    FillsIt(AdvanceSender(AdvanceSender(c, t), t), t);
  }

  // ----- who is turned away --------------------------------------------------

  /** The stream is closed exactly when the receiver gave its terminal or is gone. */
  predicate ClosedBy(c: Channel) { c.closed <==> c.seen || c.receiver.Dropped? }

  predicate SameEnd(c: Channel, d: Channel) {
    d.closed == c.closed && d.seen == c.seen && d.receiver == c.receiver && d.synthesized == c.synthesized
  }

  lemma SendersNeverClose(c: Channel, t: nat)
    ensures var d := AdvanceSender(c, t); SameEnd(c, d)
    ensures var d := Abort(c, t); SameEnd(c, d)
  {
  }

  lemma ClosedStep(c: Channel, a: Action)
    requires ClosedBy(c)
    ensures ClosedBy(Apply(c, a))
  {
    match a
    case Advance(t) => SendersNeverClose(c, t);
    case AbortSend(t) => SendersNeverClose(c, t);
    case _ =>
  }

  lemma {:induction false} ClosedAlways(c: Channel, actions: seq<Action>)
    requires ClosedBy(c)
    ensures ClosedBy(Run(c, actions))
    decreases |actions|
  {
    if actions != [] {
      ClosedStep(c, actions[0]);
      ClosedAlways(Apply(c, actions[0]), actions[1..]);
    }
  }

  /** A terminal was enqueued or handed out, or nobody is there to receive. */
  predicate IsOverFor(c: Channel) { c.claimed || c.closed }

  lemma AdvanceTurnsAway(c: Channel, t: nat, u: nat)
    requires t in c.senders && !c.senders[t].Rejected?
    requires t in AdvanceSender(c, u).senders && AdvanceSender(c, u).senders[t].Rejected?
    ensures IsOverFor(c)
  {
    if t != u { OthersAdvance(c, t, u); }
  }

  lemma PollKeepsSenders(c: Channel)
    ensures PollReceiver(c).senders == c.senders
  {
    match c.receiver
    case Starting =>
    case Polling =>
    case _ =>
  }

  /** A send is turned away only after a terminal was enqueued or handed out, or when the receiver is gone. */
  lemma TurnedAwayOnlyAtTheEnd(c: Channel, actions: seq<Action>, a: Action, t: nat)
    requires Reachable(c, actions) && t in c.senders && !c.senders[t].Rejected?
    requires t in Apply(c, a).senders && Apply(c, a).senders[t].Rejected?
    ensures EndsTerminal(Log(c)) || EndsTerminal(Delivered(c)) || c.receiver.Dropped?
  {
    assert IsOverFor(c) by {
      match a
      case Advance(u) => AdvanceTurnsAway(c, t, u);
      case AbortSend(u) => Aborts(c, t, u);
      case Poll => PollKeepsSenders(c);
      case _ =>
    }
    ReachableIsGood(c, actions);
    ClosedAlways(New(), actions);
  }

  // ----- the terminal that the receiver makes up -----------------------------

  lemma OnlyPollsMakeUp(c: Channel, a: Action)
    requires a != Poll
    ensures Apply(c, a).synthesized == c.synthesized
  {
    match a
    case Advance(t) => SendersNeverClose(c, t);
    case AbortSend(t) => SendersNeverClose(c, t);
    case _ =>
  }

  lemma AcceptMakesNothingUp(c: Channel)
    requires c.queue != []
    ensures Accept(c).synthesized == c.synthesized
  {
  }

  lemma PollMakesUp(c: Channel)
    requires ReceiverOk(c) && c.synthesized.None? && PollReceiver(c).synthesized.Some?
    ensures c.queue == [] && (c.cancelled || c.senders == map[])
    ensures PollReceiver(c).synthesized == Some(Error(if c.cancelled then CancelledFailure else ProtocolFailure))
  {
    if c.queue != [] { AcceptMakesNothingUp(c); }
  }

  /**
   * A terminal is made up only with nothing left in the queue, and it is Cancelled exactly when the request was
   * cancelled; otherwise every sender is gone, and it says that the protocol was broken.
   */
  lemma MadeUpTerminalTellsWhy(c: Channel, actions: seq<Action>, a: Action)
    requires Reachable(c, actions) && c.synthesized.None? && Apply(c, a).synthesized.Some?
    ensures a == Poll && c.queue == [] && (c.cancelled || c.senders == map[])
    ensures Apply(c, a).synthesized == Some(Error(if c.cancelled then CancelledFailure else ProtocolFailure))
  {
    ReachableIsGood(c, actions);
    if a != Poll { OnlyPollsMakeUp(c, a); } else { PollMakesUp(c); }
  }

  // ----- after the receiver is dropped ---------------------------------------

  predicate IsGone(c: Channel) { c.receiver.Dropped? && c.cancelled && c.closed }

  /** What is enqueued, and the event of a send that already holds its permit. */
  function Committed(c: Channel): nat { |Log(c)| + if HasPermit(c) then 1 else 0 }

  predicate StaysGone(c: Channel, d: Channel) {
    IsGone(d) && d.out == c.out && Committed(d) <= Committed(c)
  }

  lemma GoneAdvance(c: Channel, t: nat)
    requires Inv(c) && IsGone(c)
    ensures StaysGone(c, AdvanceSender(c, t))
  {
    if t in c.senders && c.senders[t].HoldingPermit? { FillsIt(c, t); }
  }

  lemma GoneAbort(c: Channel, t: nat)
    requires Inv(c) && IsGone(c)
    ensures StaysGone(c, Abort(c, t))
  {
  }

  lemma GoneStep(c: Channel, a: Action)
    requires Inv(c) && IsGone(c)
    ensures StaysGone(c, Apply(c, a))
  {
    match a
    case Advance(t) => GoneAdvance(c, t);
    case AbortSend(t) => GoneAbort(c, t);
    case _ =>
  }

  lemma {:induction false} GoneForever(c: Channel, actions: seq<Action>)
    requires Inv(c) && IsGone(c)
    ensures StaysGone(c, Run(c, actions))
    decreases |actions|
  {
    if actions != [] {
      GoneStep(c, actions[0]);
      ApplyKeeps(c, actions[0]);
      GoneForever(Apply(c, actions[0]), actions[1..]);
    }
  }

  /**
   * Dropping the receiver cancels the request and closes the queue for good: nothing more is handed out, and at
   * most one event is enqueued afterwards, that of the send that already had its place.
   */
  lemma NobodyIsServed(c: Channel, before: seq<Action>, later: seq<Action>)
    requires Reachable(c, before)
    ensures var d := Run(Apply(c, DropReceiver), later);
      && d.cancelled && d.closed && d.out == c.out
      && |Log(d)| <= |Log(c)| + (if HasPermit(c) then 1 else 0)
  {
    ReachableIsGood(c, before);
    ApplyKeeps(c, DropReceiver);
    GoneForever(Apply(c, DropReceiver), later);
  }
}
