/**
 * The bounded provider event stream: any number of sender clones sharing one
 * asynchronous critical section, one receiver, cancellation at any moment, and
 * sends or receives that are dropped while they wait.
 */
module EventStream {
  import opened Prelude

  const CAPACITY: nat := 16
  const MAX_ENCODED: nat := 1_048_576

  datatype Failure = ProtocolFailure | CancelledFailure | ProviderFailure(code: nat)

  datatype Event = Delta(id: nat) | Done(id: nat) | Error(failure: Failure)

  predicate IsTerminal(e: Event) { !e.Delta? }

  /** One `send` call: it waits for the shared mutex, then for room, then fills its permit. */
  datatype Sender =
    | Quiet
    | WaitingForMutex(event: Event, encoded: Option<nat>)
    | WaitingForRoom(event: Event)
    | HoldingPermit(event: Event)
    | Sent(event: Event, at: nat)
    | Rejected

  /** One `next` call. */
  datatype Receiver = AtRest | Starting | Polling | CheckingCancel | SawCancel | Dropped

  /**
   * Everything ever enqueued is `taken`, which the receiver removed, and then
   * `queue`; `out` is what its calls returned. `sentAtCancel` and
   * `sentAtSynthesis` record how much had been enqueued at two moments.
   */
  datatype Channel = Channel(
    taken: seq<Event>, queue: seq<Event>, closed: bool, claimed: bool, mutex: Option<nat>, senders: map<nat, Sender>,
    cancelled: bool, sentAtCancel: nat,
    receiver: Receiver, seen: bool, synthesized: Option<Event>, sentAtSynthesis: nat, out: seq<Option<Event>>)

  datatype Action =
    | Clone(t: nat)
    | DropSender(t: nat)
    | Send(t: nat, event: Event, encoded: Option<nat>)
    | Advance(t: nat)
    | AbortSend(t: nat)
    | Cancel
    | CallNext
    | Poll
    | AbortNext
    | DropReceiver

  /** Every event ever enqueued, in order. */
  function Log(c: Channel): seq<Event> { c.taken + c.queue }

  function New(): Channel {
    Channel([], [], false, false, None, map[0 := Quiet], false, 0, AtRest, false, None, 0, [])
  }

  // ----- the sending side ----------------------------------------------------

  function SetSender(c: Channel, t: nat, s: Sender): Channel {
    c.(senders := c.senders[t := s])
  }

  /** An event too large or not encodable becomes one protocol terminal. */
  function Admitted(e: Event, encoded: Option<nat>): Event {
    if encoded.Some? && encoded.value <= MAX_ENCODED then e else Error(ProtocolFailure)
  }

  function EnterSection(c: Channel, t: nat, e: Event, encoded: Option<nat>): Channel {
    if c.mutex.Some? then c
    else if c.claimed || c.closed then SetSender(c, t, Rejected)
    else SetSender(c, t, WaitingForRoom(Admitted(e, encoded))).(mutex := Some(t))
  }

  function Reserve(c: Channel, t: nat, e: Event): Channel
  {
    if c.closed then SetSender(c, t, Rejected).(mutex := None)
    else if |c.queue| >= CAPACITY then c
    else SetSender(c, t, HoldingPermit(e))
  }

  function Fill(c: Channel, t: nat, e: Event): Channel {
    SetSender(c, t, Sent(e, |Log(c)|)).(
      queue := c.queue + [e], claimed := c.claimed || IsTerminal(e), mutex := None)
  }

  function AdvanceSender(c: Channel, t: nat): Channel
  {
    if t !in c.senders then c
    else
      match c.senders[t]
      case WaitingForMutex(e, encoded) => EnterSection(c, t, e, encoded)
      case WaitingForRoom(e) => Reserve(c, t, e)
      case HoldingPermit(e) => Fill(c, t, e)
      case _ => c
  }

  /** Dropping a send while it waits; once it holds a permit it finishes without waiting again. */
  function Abort(c: Channel, t: nat): Channel {
    if t !in c.senders then c
    else
      match c.senders[t]
      case WaitingForMutex(_, _) => SetSender(c, t, Quiet)
      case WaitingForRoom(_) => SetSender(c, t, Quiet).(mutex := None)
      case _ => c
  }

  predicate Resting(s: Sender) { s.Quiet? || s.Sent? || s.Rejected? }

  // ----- the receiving side --------------------------------------------------

  function Finish(c: Channel): Channel { c.(seen := true, closed := true) }

  function Accept(c: Channel): Channel
    requires c.queue != []
  {
    var e := c.queue[0];
    var d := c.(taken := c.taken + [e], queue := c.queue[1..], receiver := AtRest, out := c.out + [Some(e)]);
    if IsTerminal(e) then Finish(d) else d
  }

  function Synthesize(c: Channel, e: Event): Channel {
    Finish(c.(receiver := AtRest, synthesized := Some(e), sentAtSynthesis := |Log(c)|, out := c.out + [Some(e)]))
  }

  function ClosedTerminal(c: Channel): Event {
    if c.cancelled then Error(CancelledFailure) else Error(ProtocolFailure)
  }

  function PollReceiver(c: Channel): Channel
  {
    match c.receiver
    case Starting =>
      if c.seen then c.(receiver := AtRest, out := c.out + [None])
      else if c.queue != [] then Accept(c)
      else if c.senders == map[] then Synthesize(c, ClosedTerminal(c))
      else c.(receiver := Polling)
    case Polling =>
      if c.queue != [] then Accept(c)
      else if c.senders == map[] then Synthesize(c, ClosedTerminal(c))
      else c.(receiver := CheckingCancel)
    case CheckingCancel => c.(receiver := if c.cancelled then SawCancel else Polling)
    case SawCancel => if c.queue != [] then Accept(c) else Synthesize(c, Error(CancelledFailure))
    case _ => c
  }

  function CancelNow(c: Channel): Channel {
    if c.cancelled then c else c.(cancelled := true, sentAtCancel := |Log(c)|)
  }

  function Apply(c: Channel, a: Action): Channel
  {
    match a
    case Clone(t) => if t in c.senders || c.senders == map[] then c else SetSender(c, t, Quiet)
    case DropSender(t) => if t in c.senders && Resting(c.senders[t]) then c.(senders := c.senders - {t}) else c
    case Send(t, e, encoded) =>
      if t in c.senders && Resting(c.senders[t]) then SetSender(c, t, WaitingForMutex(e, encoded)) else c
    case Advance(t) => AdvanceSender(c, t)
    case AbortSend(t) => Abort(c, t)
    case Cancel => CancelNow(c)
    case CallNext => if c.receiver.AtRest? then c.(receiver := Starting) else c
    case Poll => PollReceiver(c)
    case AbortNext => if c.receiver.Dropped? then c else c.(receiver := AtRest)
    case DropReceiver => CancelNow(c).(receiver := Dropped, closed := true)
  }

  // ----- the invariant -------------------------------------------------------

  /** A terminal can only be the last of a sequence. */
  predicate TerminalOnlyLast(s: seq<Event>) {
    forall i :: 0 <= i < |s| - 1 ==> !IsTerminal(s[i])
  }

  predicate EndsTerminal(s: seq<Event>) { s != [] && IsTerminal(s[|s| - 1]) }

  /** What the receiver has handed out, in order. */
  function Delivered(c: Channel): seq<Event>
  {
    c.taken + if c.synthesized.Some? then [c.synthesized.value] else []
  }

  /** All the events first, then only the end. */
  predicate Reports(out: seq<Option<Event>>, delivered: seq<Event>) {
    && |delivered| <= |out|
    && (forall i :: 0 <= i < |delivered| ==> out[i] == Some(delivered[i]))
    && (forall i :: |delivered| <= i < |out| ==> out[i].None?)
  }

  predicate InSection(s: Sender) { s.WaitingForRoom? || s.HoldingPermit? }

  predicate HasPermit(c: Channel) {
    c.mutex.Some? && c.mutex.value in c.senders && c.senders[c.mutex.value].HoldingPermit?
  }

  ghost predicate SendersOk(c: Channel) {
    && (forall t :: t in c.senders ==> (InSection(c.senders[t]) <==> c.mutex == Some(t)))
    && (c.mutex.Some? ==> c.mutex.value in c.senders && !c.claimed)
    && (forall t :: t in c.senders && c.senders[t].Sent? ==>
          c.senders[t].at < |Log(c)| && Log(c)[c.senders[t].at] == c.senders[t].event)
  }

  predicate QueueOk(c: Channel) {
    && |c.queue| + (if HasPermit(c) then 1 else 0) <= CAPACITY
    && TerminalOnlyLast(Log(c)) && (c.claimed <==> EndsTerminal(Log(c)))
  }

  predicate ReceiverOk(c: Channel)
  {
    && Reports(c.out, Delivered(c))
    && TerminalOnlyLast(Delivered(c))
    && (c.seen <==> EndsTerminal(Delivered(c)))
    && (c.seen ==> c.closed)
    && (|c.out| > |Delivered(c)| ==> c.seen)
    && (c.synthesized.Some? ==> c.seen && c.sentAtSynthesis == |c.taken|)
    && (c.receiver != AtRest && c.receiver != Starting && c.receiver != Dropped ==> !c.seen)
    && (c.receiver.SawCancel? ==> c.cancelled)
  }

  predicate CancelOk(c: Channel) {
    && c.sentAtCancel <= |Log(c)|
    && (c.synthesized == Some(Error(CancelledFailure)) ==> c.cancelled && c.sentAtCancel <= |c.taken|)
  }

  ghost predicate Inv(c: Channel) {
    QueueOk(c) && SendersOk(c) && ReceiverOk(c) && CancelOk(c)
  }

  lemma NewHolds()
    ensures Inv(New())
  {
  }

  lemma LockKeeps(c: Channel, t: nat, e: Event)
    requires Inv(c) && t in c.senders && c.senders[t].WaitingForMutex? && c.mutex.None? && !c.claimed
    ensures Inv(SetSender(c, t, WaitingForRoom(e)).(mutex := Some(t)))
  {
  }

  lemma EnterKeeps(c: Channel, t: nat)
    requires Inv(c) && t in c.senders && c.senders[t].WaitingForMutex?
    ensures Inv(EnterSection(c, t, c.senders[t].event, c.senders[t].encoded))
  {
    if c.mutex.None? {
      if c.claimed || c.closed {
        RosterKeeps(c, SetSender(c, t, Rejected), t, Rejected);
      } else {
        LockKeeps(c, t, Admitted(c.senders[t].event, c.senders[t].encoded));
      }
    }
  }

  lemma ReserveKeeps(c: Channel, t: nat)
    requires Inv(c) && t in c.senders && c.senders[t].WaitingForRoom?
    ensures Inv(Reserve(c, t, c.senders[t].event))
  {
  }

  lemma FillKeeps(c: Channel, t: nat)
    requires Inv(c) && t in c.senders && c.senders[t].HoldingPermit?
    ensures Inv(Fill(c, t, c.senders[t].event))
  {
    assert Log(Fill(c, t, c.senders[t].event)) == Log(c) + [c.senders[t].event];
  }

  /** A dropped send claims nothing: only its own entry and the mutex it held change. */
  lemma AbortKeeps(c: Channel, t: nat)
    requires Inv(c)
    ensures Inv(Abort(c, t))
    ensures Abort(c, t) == c.(senders := Abort(c, t).senders, mutex := Abort(c, t).mutex)
  {
    if t in c.senders {
      match c.senders[t]
      case WaitingForMutex(_, _) => RosterKeeps(c, SetSender(c, t, Quiet), t, Quiet);
      case WaitingForRoom(_) => LeaveKeeps(c, t);
      case _ =>
    }
  }

  lemma LeaveKeeps(c: Channel, t: nat)
    requires Inv(c) && t in c.senders && c.senders[t].WaitingForRoom?
    ensures Inv(SetSender(c, t, Quiet).(mutex := None))
  {
  }

  lemma AcceptKeepsLog(c: Channel)
    requires c.queue != []
    ensures Log(Accept(c)) == Log(c)
  {
    assert c.taken + c.queue == (c.taken + [c.queue[0]]) + c.queue[1..];
  }

  lemma AcceptKeeps(c: Channel)
    requires Inv(c) && !c.seen && c.queue != []
    ensures Inv(Accept(c)) && Log(Accept(c)) == Log(c)
  {
    AcceptKeepsLog(c);
    assert c.queue[0] == Log(c)[|c.taken|];
    assert Delivered(Accept(c)) == Delivered(c) + [c.queue[0]];
  }

  lemma SynthesizeKeeps(c: Channel, e: Event)
    requires Inv(c) && !c.seen && c.queue == [] && IsTerminal(e)
    requires e == Error(CancelledFailure) ==> c.cancelled
    ensures Inv(Synthesize(c, e))
  {
    assert Delivered(Synthesize(c, e)) == Delivered(c) + [e];
  }

  lemma PollKeeps(c: Channel)
    requires Inv(c)
    ensures Inv(PollReceiver(c))
  {
    match c.receiver
    case Starting =>
      if !c.seen {
        if c.queue != [] { AcceptKeeps(c); }
        else if c.senders == map[] { SynthesizeKeeps(c, ClosedTerminal(c)); }
      }
    case Polling =>
      if c.queue != [] { AcceptKeeps(c); }
      else if c.senders == map[] { SynthesizeKeeps(c, ClosedTerminal(c)); }
    case SawCancel =>
      if c.queue != [] { AcceptKeeps(c); } else { SynthesizeKeeps(c, Error(CancelledFailure)); }
    case _ =>
  }

  lemma AdvanceKeeps(c: Channel, t: nat)
    requires Inv(c)
    ensures Inv(AdvanceSender(c, t))
  {
    if t in c.senders {
      match c.senders[t]
      case WaitingForMutex(e, encoded) => EnterKeeps(c, t);
      case WaitingForRoom(e) => ReserveKeeps(c, t);
      case HoldingPermit(e) => FillKeeps(c, t);
      case _ =>
    }
  }

  lemma RosterKeeps(c: Channel, d: Channel, t: nat, s: Sender)
    requires Inv(c) && !InSection(s) && !s.Sent? && c.mutex != Some(t)
    requires d == SetSender(c, t, s) || d == c.(senders := c.senders - {t})
    ensures Inv(d)
  {
  }

  lemma ApplyKeeps(c: Channel, a: Action)
    requires Inv(c)
    ensures Inv(Apply(c, a))
  {
    match a
    case Clone(t) => if t !in c.senders { RosterKeeps(c, SetSender(c, t, Quiet), t, Quiet); }
    case DropSender(t) =>
      if t in c.senders && Resting(c.senders[t]) { RosterKeeps(c, c.(senders := c.senders - {t}), t, Quiet); }
    case Send(t, e, encoded) =>
      if t in c.senders && Resting(c.senders[t]) {
        RosterKeeps(c, SetSender(c, t, WaitingForMutex(e, encoded)), t, WaitingForMutex(e, encoded));
      }
    case Advance(t) => AdvanceKeeps(c, t);
    case AbortSend(t) => AbortKeeps(c, t);
    case Poll => PollKeeps(c);
    case _ =>
  }

  function Run(c: Channel, actions: seq<Action>): Channel
    decreases |actions|
  {
    if actions == [] then c else Run(Apply(c, actions[0]), actions[1..])
  }

  lemma {:induction false} RunKeeps(c: Channel, actions: seq<Action>)
    requires Inv(c)
    ensures Inv(Run(c, actions))
    decreases |actions|
  {
    if actions != [] {
      ApplyKeeps(c, actions[0]);
      RunKeeps(Apply(c, actions[0]), actions[1..]);
    }
  }

  // ----- what every run guarantees -------------------------------------------

  ghost predicate Reachable(c: Channel, actions: seq<Action>) { c == Run(New(), actions) }

  lemma ReachableIsGood(c: Channel, actions: seq<Action>)
    requires Reachable(c, actions)
    ensures Inv(c)
  {
    NewHolds();
    RunKeeps(New(), actions);
  }

  /**
   * What `next` returns is a prefix of the enqueue order and at most one made-up
   * terminal: non-terminals, then exactly one terminal, then nothing forever.
   */
  lemma OneTerminalThenNothing(c: Channel, actions: seq<Action>, i: nat)
    requires Reachable(c, actions) && i < |c.out|
    ensures c.taken <= Log(c)
    ensures i < |c.taken| ==> c.out[i] == Some(Log(c)[i])
    ensures i == |c.taken| && c.synthesized.Some? ==> c.out[i] == c.synthesized
    ensures i > |c.taken| || (i == |c.taken| && c.synthesized.None?) ==> c.out[i].None?
    ensures c.out[i].None? ==> i > 0 && (c.out[i - 1].None? || IsTerminal(c.out[i - 1].value))
    ensures c.out[i].Some? && IsTerminal(c.out[i].value) ==> forall j :: i < j < |c.out| ==> c.out[j].None?
    ensures c.out[i].Some? && !IsTerminal(c.out[i].value) && i + 1 < |c.out| ==> c.out[i + 1].Some?
  {
    ReachableIsGood(c, actions);
    var d := Delivered(c);
    assert i < |d| ==> c.out[i] == Some(d[i]);
  }

  /** Whatever was enqueued before the cancellation is delivered before the Cancelled terminal. */
  lemma QueuedBeforeCancelComesFirst(c: Channel, actions: seq<Action>)
    requires Reachable(c, actions) && c.synthesized == Some(Error(CancelledFailure))
    ensures c.sentAtCancel <= |c.taken| < |c.out| && c.taken <= Log(c) && c.sentAtSynthesis == |c.taken|
    ensures forall i :: 0 <= i < c.sentAtCancel ==> c.out[i] == Some(Log(c)[i])
  {
    ReachableIsGood(c, actions);
    forall i | 0 <= i < c.sentAtCancel ensures c.out[i] == Some(Log(c)[i]) {
      assert Delivered(c)[i] == Log(c)[i];
    }
  }

  /** The queue with an outstanding permit never exceeds its capacity, and at most one terminal is ever enqueued. */
  lemma BoundedWithOneTerminal(c: Channel, actions: seq<Action>, i: nat, j: nat)
    requires Reachable(c, actions)
    ensures |c.queue| <= CAPACITY && (HasPermit(c) ==> |c.queue| < CAPACITY)
    ensures i < |Log(c)| && j < |Log(c)| && IsTerminal(Log(c)[i]) && IsTerminal(Log(c)[j]) ==> i == j == |Log(c)| - 1
  {
    ReachableIsGood(c, actions);
  }

  /** A send that returned true stays in the log; once a terminal is there every later send is turned away. */
  lemma SendsTellTheTruth(c: Channel, actions: seq<Action>, t: nat)
    requires Reachable(c, actions) && t in c.senders
    ensures c.senders[t].Sent? ==> c.senders[t].at < |Log(c)| && Log(c)[c.senders[t].at] == c.senders[t].event
    ensures EndsTerminal(Log(c)) && c.senders[t].WaitingForMutex? ==> AdvanceSender(c, t) == SetSender(c, t, Rejected)
  {
    ReachableIsGood(c, actions);
  }

  predicate Waiting(c: Channel) {
    c.receiver.Starting? || c.receiver.Polling? || c.receiver.CheckingCancel? || c.receiver.SawCancel?
  }

  predicate IsOver(c: Channel) { c.cancelled || c.senders == map[] || c.queue != [] }

  predicate Immediate(c: Channel) { c.seen || c.senders == map[] || c.queue != [] }

  /** How many more polls a call needs. */
  function Remaining(c: Channel): nat {
    match c.receiver
    case Starting => if Immediate(c) then 1 else 4
    case Polling => if Immediate(c) then 1 else 3
    case CheckingCancel => 2
    case SawCancel => 1
    case _ => 0
  }

  lemma PollGetsCloser(c: Channel)
    requires Waiting(c) && IsOver(c) && (c.seen ==> c.receiver.Starting?)
    ensures var d := PollReceiver(c);
            || (d.receiver.AtRest? && |d.out| == |c.out| + 1)
            || (Waiting(d) && IsOver(d) && !d.seen && d.out == c.out && Remaining(d) < Remaining(c))
  {
  }

  /** What happens on the other side. */
  predicate ByOthers(a: Action) {
    !a.CallNext? && !a.Poll? && !a.AbortNext? && !a.DropReceiver?
  }

  /** What belongs to the receiver stays; the queue only grows and cancellation stays. */
  ghost predicate Untouched(c: Channel, d: Channel) {
    && d.receiver == c.receiver && d.seen == c.seen && d.out == c.out && d.taken == c.taken
    && c.queue <= d.queue && (c.cancelled ==> d.cancelled)
  }

  lemma OneOther(c: Channel, a: Action)
    requires ByOthers(a)
    ensures Untouched(c, Apply(c, a))
  {
    match a
    case Advance(t) => SenderLeaves(c, t);
    case _ =>
  }

  lemma SenderLeaves(c: Channel, t: nat)
    ensures Untouched(c, AdvanceSender(c, t))
  {
  }

  lemma NobodyComesBack(c: Channel, a: Action)
    requires ByOthers(a) && c.senders == map[]
    ensures Apply(c, a).senders == map[]
  {
  }

  lemma NoFurther(c: Channel, d: Channel)
    requires Untouched(c, d) && (c.senders == map[] ==> d.senders == map[])
    ensures IsOver(c) ==> IsOver(d)
    ensures Remaining(d) <= Remaining(c)
  {
  }

  /** What the other side does never sets a waiting call back. */
  lemma OthersGetCloser(c: Channel, a: Action)
    requires IsOver(c) && ByOthers(a)
    ensures Untouched(c, Apply(c, a)) && IsOver(Apply(c, a)) && Remaining(Apply(c, a)) <= Remaining(c)
  {
    OneOther(c, a);
    if c.senders == map[] { NobodyComesBack(c, a); }
    NoFurther(c, Apply(c, a));
  }

  /** The actions around one call of `next`, and how often they poll it. */
  predicate AroundCall(actions: seq<Action>) {
    forall a :: a in actions ==> a.Poll? || ByOthers(a)
  }

  function PollCount(actions: seq<Action>): nat {
    if actions == [] then 0 else (if actions[0].Poll? then 1 else 0) + PollCount(actions[1..])
  }

  lemma RestStep(c: Channel, a: Action)
    requires c.receiver.AtRest? && (a.Poll? || ByOthers(a))
    ensures Apply(c, a).receiver.AtRest? && Apply(c, a).out == c.out
  {
    if !a.Poll? { OneOther(c, a); }
  }

  lemma {:induction false} RestStays(c: Channel, actions: seq<Action>)
    requires c.receiver.AtRest? && AroundCall(actions)
    ensures Run(c, actions).receiver.AtRest? && Run(c, actions).out == c.out
    decreases |actions|
  {
    if actions != [] {
      RestStep(c, actions[0]);
      RestStays(Apply(c, actions[0]), actions[1..]);
    }
  }

  /**
   * Once an event is queued, the request is cancelled or every sender is gone, `next` returns within four
   * polls, whatever the other side does between them.
   */
  lemma {:induction false} NextReturns(c: Channel, actions: seq<Action>)
    requires Waiting(c) && IsOver(c) && (c.seen ==> c.receiver.Starting?)
    requires AroundCall(actions) && PollCount(actions) >= Remaining(c)
    ensures Run(c, actions).receiver.AtRest? && |Run(c, actions).out| == |c.out| + 1
    ensures Remaining(c) <= 4
    decreases |actions|
  {
    var d := Apply(c, actions[0]);
    assert actions[0].Poll? || ByOthers(actions[0]);
    if actions[0].Poll? { PollGetsCloser(c); } else { OthersGetCloser(c, actions[0]); }
    if d.receiver.AtRest? { RestStays(d, actions[1..]); } else { NextReturns(d, actions[1..]); }
  }
}
