/**
 * The stream a running tool writes to and the loop that dispatches one call:
 * the first terminal wins, nothing follows it, and what is reported does not
 * depend on when the dispatcher happens to look.
 */
module ToolDispatch {
  import opened Prelude

  datatype Outcome = Outcome(content: nat, isError: bool)

  datatype Item = Progress(message: nat) | Terminal(outcome: Outcome)

  /** The items a receiver may ever see: everything up to and including the first terminal. */
  function UpToTerminal(items: seq<Item>): (r: seq<Item>)
    ensures r <= items
  {
    if items == [] then []
    else if items[0].Terminal? then [items[0]]
    else [items[0]] + UpToTerminal(items[1..])
  }

  predicate Ended(items: seq<Item>) { items != [] && items[|items| - 1].Terminal? }

  /** One more attempted send: it counts unless a terminal came before. */
  lemma {:induction false} OneMoreSend(items: seq<Item>, x: Item)
    ensures UpToTerminal(items + [x]) ==
            if Ended(UpToTerminal(items)) then UpToTerminal(items) else UpToTerminal(items) + [x]
  {
    if items == [] {
      assert [] + [x] == [x];
    } else {
      assert (items + [x])[1..] == items[1..] + [x];
      if items[0].Progress? {
        OneMoreSend(items[1..], x);
      }
    }
  }

  lemma {:induction false} OnlyTheLastIsTerminal(items: seq<Item>, i: nat)
    requires i + 1 < |UpToTerminal(items)|
    ensures UpToTerminal(items)[i].Progress?
  {
    if i > 0 { OnlyTheLastIsTerminal(items[1..], i - 1); }
  }

  lemma {:induction false} TerminalEnds(items: seq<Item>, i: nat)
    requires i < |items| && items[i].Terminal?
    ensures Ended(UpToTerminal(items))
  {
    if items[0].Progress? { TerminalEnds(items[1..], i - 1); }
  }

  /** The messages of the progress items, in order. */
  function Messages(items: seq<Item>): seq<nat> {
    if items == [] then []
    else
      var before := Messages(items[..|items| - 1]);
      match items[|items| - 1]
      case Progress(message) => before + [message]
      case Terminal(_) => before
  }

  lemma MessagesOneMore(items: seq<Item>, x: Item)
    ensures Messages(items + [x]) == if x.Progress? then Messages(items) + [x.message] else Messages(items)
  {
    assert (items + [x])[..|items|] == items;
  }

  /** Both halves of the channel; `terminated` is the flag every clone shares. */
  class ToolStream {
    var terminated: bool
    var queue: seq<Item>
    var receiverGone: bool
    ghost var attempts: seq<Item>   // every send tried while the receiver was there
    ghost var received: seq<Item>   // what was taken out of the queue

    ghost predicate Valid() reads this {
      && terminated == Ended(UpToTerminal(attempts))
      && received + queue == UpToTerminal(attempts)
    }

    constructor ()
      ensures Valid() && !receiverGone && attempts == [] && received == [] && queue == []
    {
      terminated, queue, receiverGone, attempts, received := false, [], false, [], [];
    }

    /** `send`: the test, the claim and the enqueueing under one lock. */
    method Send(item: Item) returns (ok: bool)
      requires Valid() && !receiverGone
      modifies this
      ensures Valid() && !receiverGone
      ensures attempts == old(attempts) + [item] && received == old(received)
      ensures ok <==> !Ended(UpToTerminal(old(attempts)))
      ensures queue == if ok then old(queue) + [item] else old(queue)
    {
      OneMoreSend(attempts, item);
      attempts := attempts + [item];
      if terminated { return false; }
      if item.Terminal? { terminated := true; }
      queue := queue + [item];
      return true;
    }

    /** With the receiver gone the claim is still made, and nothing is delivered. */
    method SendToNobody(item: Item) returns (ok: bool)
      requires receiverGone
      modifies this`terminated
      ensures !ok && terminated == (old(terminated) || item.Terminal?)
    {
      if terminated { return false; }
      if item.Terminal? { terminated := true; }
      return false;
    }

    method Receive() returns (item: Item)
      requires Valid() && queue != []
      modifies this`queue, this`received
      ensures Valid() && item == old(queue)[0] && queue == old(queue)[1..]
      ensures received == old(received) + [item]
      ensures item.Terminal? ==> queue == []
    {
      item := queue[0];
      assert received + queue == (received + [item]) + queue[1..];
      if item.Terminal? { TerminalIsLast(received + [item], queue[1..], attempts); }
      received := received + [item];
      queue := queue[1..];
    }

    /** `drain` after every producer is gone: the rest of the stream, ended by its terminal if there is one. */
    method Drain() returns (items: seq<Item>)
      requires Valid()
      modifies this`queue, this`received
      ensures items == old(queue) && queue == []
    {
      ghost var all := queue;
      items := [];
      assert items + queue == all;
      while queue != []
        invariant Valid() && items + queue == all
        decreases |queue|
      {
        ghost var before := queue;
        var item := Receive();
        Regroup(items, before, item, queue);
        items := items + [item];
        if item.Terminal? { break; }
      }
      assert items + [] == items;
    }

    static lemma Regroup(items: seq<Item>, before: seq<Item>, item: Item, rest: seq<Item>)
      requires before != [] && item == before[0] && rest == before[1..]
      ensures (items + [item]) + rest == items + before
    {
    }

    static lemma TerminalIsLast(received: seq<Item>, queue: seq<Item>, attempts: seq<Item>)
      requires received + queue == UpToTerminal(attempts) && Ended(received)
      ensures queue == []
    {
      var i := |received| - 1;
      assert UpToTerminal(attempts)[i] == received[i];
      if |queue| > 0 { OnlyTheLastIsTerminal(attempts, i); }
    }
  }

  // ----- dispatching one call ------------------------------------------------

  /**
   * What happens around the dispatch loop, one turn of the select at a time: a
   * clone of the stream sends, the execution is seen to be ready, or the loop
   * takes one queued item. After the last entry every clone is gone.
   */
  datatype Tick = Sends(item: Item) | Ready(outcome: Outcome) | Takes

  predicate Finishes(world: seq<Tick>) { exists i :: 0 <= i < |world| && world[i].Ready? }

  /** The sends in the order of the shared lock; a ready execution sends its own outcome, once. */
  function Attempts(world: seq<Tick>): seq<Item> {
    if world == [] then []
    else
      var front := world[..|world| - 1];
      match world[|world| - 1]
      case Sends(item) => Attempts(front) + [item]
      case Ready(outcome) => if Finishes(front) then Attempts(front) else Attempts(front) + [Terminal(outcome)]
      case Takes => Attempts(front)
  }

  datatype Event = ToolStarted | ToolProgress(message: nat) | ToolCompleted(outcome: Outcome)

  function Announce(messages: seq<nat>): seq<Event> {
    seq(|messages|, i requires 0 <= i < |messages| => ToolProgress(messages[i]))
  }

  lemma AnnounceOneMore(messages: seq<nat>, m: nat)
    ensures Announce(messages + [m]) == Announce(messages) + [ToolProgress(m)]
  {
  }

  lemma {:induction false} AttemptsHaveTerminal(world: seq<Tick>)
    requires Finishes(world)
    ensures exists i :: 0 <= i < |Attempts(world)| && Attempts(world)[i].Terminal?
  {
    var front := world[..|world| - 1];
    FinishesOneMore(world, |world| - 1);
    assert world[..|world| - 1 + 1] == world;
    if Finishes(front) {
      AttemptsHaveTerminal(front);
      var i :| 0 <= i < |Attempts(front)| && Attempts(front)[i].Terminal?;
      assert Attempts(world)[i].Terminal?;
    } else {
      assert Attempts(world)[|Attempts(world)| - 1].Terminal?;
    }
  }

  /** The sends of a schedule, and whether its execution was seen to be ready. */
  function SendCount(world: seq<Tick>): nat {
    if world == [] then 0 else SendCount(world[..|world| - 1]) + if world[|world| - 1].Sends? then 1 else 0
  }

  /** Attempts are never withdrawn. */
  lemma {:induction false} AttemptsGrow(world: seq<Tick>, i: nat)
    requires i <= |world|
    ensures Attempts(world[..i]) <= Attempts(world)
    decreases |world| - i
  {
    if i < |world| {
      assert world[..i + 1][..i] == world[..i];
      AttemptsGrow(world, i + 1);
    } else {
      assert world[..i] == world;
    }
  }

  /**
   * Each send is attempted in its place, after what was attempted before it, and so is the outcome of the execution
   * when it is first seen to be ready; and nothing else is.
   */
  lemma AttemptsAreTheSends(world: seq<Tick>, i: nat)
    requires i < |world|
    ensures var at, all := |Attempts(world[..i])|, Attempts(world);
      && |all| == SendCount(world) + (if Finishes(world) then 1 else 0)
      && (world[i].Sends? ==> at < |all| && all[at] == world[i].item)
      && (world[i].Ready? && !Finishes(world[..i]) ==> at < |all| && all[at] == Terminal(world[i].outcome))
  {
    AttemptCount(world);
    assert world[..i + 1][..i] == world[..i] && world[..i + 1][i] == world[i];
    AttemptsGrow(world, i + 1);
    if world[i].Sends? || (world[i].Ready? && !Finishes(world[..i])) {
      assert |Attempts(world[..i + 1])| == |Attempts(world[..i])| + 1;
      assert Attempts(world)[..|Attempts(world[..i + 1])|] == Attempts(world[..i + 1]);
    }
  }

  lemma {:induction false} AttemptCount(world: seq<Tick>)
    ensures |Attempts(world)| == SendCount(world) + if Finishes(world) then 1 else 0
  {
    if world != [] {
      var front := world[..|world| - 1];
      AttemptCount(front);
      FinishesOneMore(world, |front|);
      assert world[..|front| + 1] == world;
    }
  }

  /** What is reported is the stream itself: each item before the first terminal is progress with its message. */
  lemma {:induction false} MessagesAreTheStream(items: seq<Item>)
    requires forall i :: 0 <= i < |items| - 1 ==> items[i].Progress?
    ensures |Messages(items)| == if items != [] && items[|items| - 1].Terminal? then |items| - 1 else |items|
    ensures forall i :: 0 <= i < |Messages(items)| ==> items[i] == Progress(Messages(items)[i])
  {
    if items != [] { MessagesAreTheStream(items[..|items| - 1]); }
  }

  /**
   * The select loop of `dispatch_tool_call`. Whatever the schedule: one start, the
   * progress sent before the first terminal in the order it was sent, and one
   * completion with the outcome of the first terminal.
   */
  method Dispatch(world: seq<Tick>) returns (events: seq<Event>, outcome: Outcome)
    requires Finishes(world)
    ensures Ended(UpToTerminal(Attempts(world)))
    ensures var seen := UpToTerminal(Attempts(world));
            && outcome == seen[|seen| - 1].outcome
            && events == [ToolStarted] + Announce(Messages(seen)) + [ToolCompleted(outcome)]
  {
    var stream := new ToolStream();
    var executed: Option<Outcome>, streamed: Option<Outcome> := None, None;
    events := [ToolStarted];
    var i := 0;
    while i < |world|
      invariant 0 <= i <= |world| && fresh(stream)
      invariant LoopOk(stream, streamed, events, world[..i])
      invariant executed.Some? <==> Finishes(world[..i])
    {
      FinishesOneMore(world, i);
      executed, streamed, events := Turn(stream, executed, streamed, events, world, i);
      i := i + 1;
    }
    assert world[..i] == world;
    streamed, events := TakeRest(stream, streamed, events);
    FirstTerminalExists(world);
    assert streamed.Some?;   // the fallbacks behind it are never needed
    outcome := streamed.value;
    events := events + [ToolCompleted(outcome)];
  }

  ghost predicate LoopOk(stream: ToolStream, streamed: Option<Outcome>, events: seq<Event>, world: seq<Tick>)
    reads stream
  {
    && stream.Valid() && !stream.receiverGone && stream.attempts == Attempts(world)
    && events == [ToolStarted] + Announce(Messages(stream.received))
    && Reported(streamed, stream.received)
  }

  method Take(stream: ToolStream, streamed: Option<Outcome>, events: seq<Event>)
    returns (streamed': Option<Outcome>, events': seq<Event>)
    requires stream.Valid() && stream.queue != []
    requires events == [ToolStarted] + Announce(Messages(stream.received)) && Reported(streamed, stream.received)
    modifies stream`queue, stream`received
    ensures stream.Valid() && |stream.queue| < old(|stream.queue|)
    ensures events' == [ToolStarted] + Announce(Messages(stream.received)) && Reported(streamed', stream.received)
  {
    ghost var before := stream.received;
    var item := stream.Receive();
    streamed', events' := Report(item, streamed, events, before);
  }

  /** With every producer gone the loop takes what is left. */
  method TakeRest(stream: ToolStream, streamed: Option<Outcome>, events: seq<Event>)
    returns (streamed': Option<Outcome>, events': seq<Event>)
    requires stream.Valid()
    requires events == [ToolStarted] + Announce(Messages(stream.received)) && Reported(streamed, stream.received)
    modifies stream`queue, stream`received
    ensures stream.received == UpToTerminal(stream.attempts)
    ensures events' == [ToolStarted] + Announce(Messages(stream.received)) && Reported(streamed', stream.received)
  {
    streamed', events' := streamed, events;
    while stream.queue != []
      invariant stream.Valid()
      invariant events' == [ToolStarted] + Announce(Messages(stream.received)) && Reported(streamed', stream.received)
      decreases |stream.queue|
    {
      streamed', events' := Take(stream, streamed', events');
    }
    assert stream.received + [] == stream.received;
  }

  lemma FirstTerminalExists(world: seq<Tick>)
    requires Finishes(world)
    ensures Ended(UpToTerminal(Attempts(world)))
  {
    AttemptsHaveTerminal(world);
    var k :| 0 <= k < |Attempts(world)| && Attempts(world)[k].Terminal?;
    TerminalEnds(Attempts(world), k);
  }

  /** One turn of the select: a ready execution is looked at before the queue. */
  method Turn(stream: ToolStream, executed: Option<Outcome>, streamed: Option<Outcome>, events: seq<Event>,
              world: seq<Tick>, i: nat)
    returns (executed': Option<Outcome>, streamed': Option<Outcome>, events': seq<Event>)
    requires i < |world| && LoopOk(stream, streamed, events, world[..i])
    requires executed.Some? <==> Finishes(world[..i])
    modifies stream
    ensures LoopOk(stream, streamed', events', world[..i + 1])
    ensures executed'.Some? <==> executed.Some? || world[i].Ready?
  {
    assert world[..i + 1][..i] == world[..i];
    executed', streamed', events' := executed, streamed, events;
    match world[i] {
      case Sends(item) =>
        var _ := stream.Send(item);
      case Ready(result) =>
        if executed.None? {
          var _ := stream.Send(Terminal(result));
          executed' := Some(result);
        }
      case Takes =>
        if stream.queue != [] {
          streamed', events' := Take(stream, streamed, events);
        }
    }
  }

  ghost predicate Reported(streamed: Option<Outcome>, received: seq<Item>) {
    Ended(received) ==> streamed == Some(received[|received| - 1].outcome)
  }

  lemma FinishesOneMore(world: seq<Tick>, i: nat)
    requires i < |world|
    ensures Finishes(world[..i + 1]) <==> Finishes(world[..i]) || world[i].Ready?
  {
    if Finishes(world[..i]) {
      var k :| 0 <= k < i && world[..i][k].Ready?;
      assert world[..i + 1][k].Ready?;
    }
    if world[i].Ready? { assert world[..i + 1][i].Ready?; }
    if Finishes(world[..i + 1]) && !world[i].Ready? {
      var k :| 0 <= k < i + 1 && world[..i + 1][k].Ready?;
      assert world[..i][k].Ready?;
    }
  }

  method Report(item: Item, streamed: Option<Outcome>, events: seq<Event>, ghost before: seq<Item>)
    returns (streamed': Option<Outcome>, events': seq<Event>)
    requires events == [ToolStarted] + Announce(Messages(before)) && Reported(streamed, before)
    ensures events' == [ToolStarted] + Announce(Messages(before + [item])) && Reported(streamed', before + [item])
  {
    MessagesOneMore(before, item);
    match item {
      case Progress(message) =>
        AnnounceOneMore(Messages(before), message);
        streamed', events' := streamed, events + [ToolProgress(message)];
      case Terminal(outcome) =>
        streamed', events' := Some(outcome), events;
    }
  }
}
