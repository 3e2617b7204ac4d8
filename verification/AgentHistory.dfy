/** Conversation histories, the events that announce them, and the order they keep. */
module AgentHistory {
  datatype Call = Call(id: nat, name: nat)

  datatype Reply = Reply(text: nat, calls: seq<Call>, truncated: bool)

  datatype Message =
    | User(text: nat)
    | Assistant(reply: Reply)
    | ToolResult(callId: nat, content: nat, isError: bool)

  datatype Outcome = Completed | Steered | Aborted

  datatype Event =
    | TurnStarted
    | TurnEnded(outcome: Outcome)
    | MessageAdded(message: Message)
    | MessageDelta(delta: nat)
    | ToolStarted(callId: nat)
    | ToolProgress(callId: nat, text: nat)
    | ToolCompleted(result: Message)
    | ErrorRaised

  /** One result for each call, in call order, with the call's id. */
  predicate Answers(calls: seq<Call>, results: seq<Message>) {
    && |results| == |calls|
    && forall i :: 0 <= i < |calls| ==> results[i].ToolResult? && results[i].callId == calls[i].id
  }

  /** Every assistant message is followed at once by the results of exactly its calls. */
  predicate Disciplined(h: seq<Message>)
    decreases |h|
  {
    h == [] ||
    match h[0]
    case User(_) => Disciplined(h[1..])
    case Assistant(reply) =>
      && |reply.calls| < |h|
      && Answers(reply.calls, h[1..1 + |reply.calls|])
      && Disciplined(h[1 + |reply.calls|..])
    case ToolResult(_, _, _) => false
  }

  /** The user inputs of a history, in order. */
  function Inputs(h: seq<Message>): seq<nat> {
    if h == [] then []
    else
      var before := Inputs(h[..|h| - 1]);
      match h[|h| - 1] case User(text) => before + [text] case _ => before
  }

  function Results(h: seq<Message>): seq<Message> {
    if h == [] then []
    else
      var before := Results(h[..|h| - 1]);
      if h[|h| - 1].ToolResult? then before + [h[|h| - 1]] else before
  }

  /** The messages of a history that the agent made itself: replies and results. */
  function Made(h: seq<Message>): seq<Message> {
    if h == [] then []
    else
      var before := Made(h[..|h| - 1]);
      if h[|h| - 1].User? then before else before + [h[|h| - 1]]
  }

  /** The messages that a list of events announced, the tool results among the completions, and the errors. */
  function Announced(events: seq<Event>): seq<Message> {
    if events == [] then []
    else
      var before := Announced(events[..|events| - 1]);
      match events[|events| - 1] case MessageAdded(m) => before + [m] case _ => before
  }

  function Completions(events: seq<Event>): seq<Message> {
    if events == [] then []
    else
      var before := Completions(events[..|events| - 1]);
      match events[|events| - 1] case ToolCompleted(m) => before + [m] case _ => before
  }

  function Errors(events: seq<Event>): nat {
    if events == [] then 0
    else Errors(events[..|events| - 1]) + if events[|events| - 1].ErrorRaised? then 1 else 0
  }

  predicate IsBracket(e: Event) { e.TurnStarted? || e.TurnEnded? }

  lemma OneMoreMessage(h: seq<Message>, m: Message)
    ensures Inputs(h + [m]) == if m.User? then Inputs(h) + [m.text] else Inputs(h)
    ensures Results(h + [m]) == if m.ToolResult? then Results(h) + [m] else Results(h)
  {
    assert (h + [m])[..|h|] == h;
  }

  lemma {:induction false} MoreMade(h: seq<Message>, more: seq<Message>, users: bool)
    requires forall i :: 0 <= i < |more| ==> more[i].User? == users
    ensures Made(h + more) == if users then Made(h) else Made(h) + more
    decreases |more|
  {
    if more == [] {
      assert h + more == h;
    } else {
      var front, x := more[..|more| - 1], more[|more| - 1];
      MoreMade(h, front, users);
      assert (h + more)[..|h + more| - 1] == h + front && (h + more)[|h + more| - 1] == x;
      assert more == front + [x];
    }
  }

  lemma OneMoreEvent(events: seq<Event>, e: Event)
    ensures Announced(events + [e]) == if e.MessageAdded? then Announced(events) + [e.message] else Announced(events)
    ensures Completions(events + [e]) == if e.ToolCompleted? then Completions(events) + [e.result]
            else Completions(events)
    ensures Errors(events + [e]) == Errors(events) + if e.ErrorRaised? then 1 else 0
  {
    assert (events + [e])[..|events|] == events;
  }

  lemma OneMoreResult(events: seq<Event>, m: Message)
    ensures Announced(events + [ToolCompleted(m)] + [MessageAdded(m)]) == Announced(events) + [m]
    ensures Completions(events + [ToolCompleted(m)] + [MessageAdded(m)]) == Completions(events) + [m]
    ensures Errors(events + [ToolCompleted(m)] + [MessageAdded(m)]) == Errors(events)
  {
    OneMoreEvent(events, ToolCompleted(m));
    OneMoreEvent(events + [ToolCompleted(m)], MessageAdded(m));
  }

  lemma FrontOfConcat<T>(a: seq<T>, b: seq<T>, n: nat)
    requires 0 < n <= |a|
    ensures (a + b)[0] == a[0] && (a + b)[1..n] == a[1..n] && (a + b)[n..] == a[n..] + b
  {
  }

  lemma {:induction false} DisciplinedAppend(a: seq<Message>, b: seq<Message>)
    requires Disciplined(a) && Disciplined(b)
    ensures Disciplined(a + b)
    decreases |a|
  {
    if a == [] {
      assert a + b == b;
    } else {
      var n := if a[0].Assistant? then 1 + |a[0].reply.calls| else 1;
      DisciplinedAppend(a[n..], b);
      FrontOfConcat(a, b, n);
    }
  }

  lemma DisciplinedInput(h: seq<Message>, text: nat)
    requires Disciplined(h)
    ensures Disciplined(h + [User(text)])
  {
    assert Disciplined([User(text)]) by { assert [User(text)][1..] == []; }
    DisciplinedAppend(h, [User(text)]);
  }

  /** An answered reply completes a disciplined history. */
  lemma DisciplinedReply(h: seq<Message>, reply: Reply, results: seq<Message>)
    requires Disciplined(h) && Answers(reply.calls, results)
    ensures Disciplined(h + [Assistant(reply)] + results)
  {
    var block := [Assistant(reply)] + results;
    assert block[1..1 + |reply.calls|] == results && block[1 + |reply.calls|..] == [];
    DisciplinedAppend(h, block);
    assert h + block == h + [Assistant(reply)] + results;
  }

  lemma InsideABlock(h: seq<Message>, n: nat, i: nat)
    requires Disciplined(h) && 0 < i < n && h != []
    requires n == if h[0].Assistant? then 1 + |h[0].reply.calls| else 1
    ensures i < |h| && h[i].ToolResult?
  {
    assert h[1..n][i - 1] == h[i];
  }

  /** The discipline as a reader of the list states it: each call of each reply has its result in its place. */
  lemma {:induction false} EachCallIsAnswered(h: seq<Message>, i: nat, j: nat)
    requires Disciplined(h) && i < |h| && h[i].Assistant? && j < |h[i].reply.calls|
    ensures i + 1 + j < |h|
    ensures h[i + 1 + j].ToolResult? && h[i + 1 + j].callId == h[i].reply.calls[j].id
    decreases |h|
  {
    var n := if h[0].Assistant? then 1 + |h[0].reply.calls| else 1;
    if i == 0 {
      assert h[1..n][j] == h[1 + j];
    } else if i < n {
      InsideABlock(h, n, i);
    } else {
      EachCallIsAnswered(h[n..], i - n, j);
    }
  }

  // ----- inputs by origin ----------------------------------------------------

  datatype Origin = Prompt | Steering | FollowUp

  datatype Input = Input(origin: Origin, text: nat)

  function From(inputs: seq<Input>, origin: Origin): seq<nat> {
    if inputs == [] then []
    else
      var before := From(inputs[..|inputs| - 1], origin);
      if inputs[|inputs| - 1].origin == origin then before + [inputs[|inputs| - 1].text] else before
  }

  function Tagged(texts: seq<nat>, origin: Origin): (r: seq<Input>)
    ensures |r| == |texts| && forall i :: 0 <= i < |r| ==> r[i] == Input(origin, texts[i])
  {
    seq(|texts|, i requires 0 <= i < |texts| => Input(origin, texts[i]))
  }

  lemma OneMoreInput(inputs: seq<Input>, x: Input, origin: Origin)
    ensures From(inputs + [x], origin) == if x.origin == origin then From(inputs, origin) + [x.text]
            else From(inputs, origin)
  {
    assert (inputs + [x])[..|inputs|] == inputs;
  }

  lemma OneMoreTagged(inputs: seq<Input>, front: seq<nat>, x: nat, origin: Origin, o: Origin)
    ensures From(inputs + Tagged(front + [x], o), origin) ==
            if o == origin then From(inputs + Tagged(front, o), origin) + [x]
                else From(inputs + Tagged(front, o), origin)
  {
    OneMoreInput(inputs + Tagged(front, o), Input(o, x), origin);
    assert inputs + Tagged(front + [x], o) == (inputs + Tagged(front, o)) + [Input(o, x)];
  }

  lemma {:induction false} MoreInputs(inputs: seq<Input>, texts: seq<nat>, origin: Origin, o: Origin)
    ensures From(inputs + Tagged(texts, o), origin) == if o == origin then From(inputs, origin) + texts
            else From(inputs, origin)
    decreases |texts|
  {
    if texts == [] {
      assert inputs + Tagged(texts, o) == inputs;
    } else {
      var front, x := texts[..|texts| - 1], texts[|texts| - 1];
      assert texts == front + [x];
      MoreInputs(inputs, front, origin, o);
      OneMoreTagged(inputs, front, x, origin, o);
    }
  }
}
