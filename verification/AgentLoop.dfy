/**
 * One turn of the agent, as the code runs it: the double loop over responses,
 * tool calls, steering and follow-ups. The loop is followed for any number of
 * rounds, and does what `AgentScript` says of its script.
 */
module AgentLoop {
  import opened Prelude

  import opened AgentHistory
  import opened AgentScript

  /** What else the agent's record held before the turn. */
  datatype Before = Before(events: seq<Event>, requests: seq<seq<Message>>)

  class Agent {
    var messages: seq<Message>
    var events: seq<Event>
    var steerQueue: seq<nat>
    var followQueue: seq<nat>
    ghost var requests: seq<seq<Message>> // the history at each provider request
    const mode: QueueMode
    const rewrite: nat -> nat             // the hook on user input

    constructor (mode_: QueueMode, rewrite_: nat -> nat)
      ensures mode == mode_ && rewrite == rewrite_ && messages == [] && events == []
      ensures steerQueue == [] && followQueue == []
    {
      mode, rewrite, messages, events, steerQueue, followQueue := mode_, rewrite_, [], [], [], [];
    }

    method Emit(e: Event)
      modifies this`events
      ensures events == old(events) + [e]
    {
      events := events + [e];
    }

    /** `push_message`. */
    method Push(m: Message)
      modifies this`messages, this`events
      ensures messages == old(messages) + [m] && events == old(events) + [MessageAdded(m)]
    {
      messages := messages + [m];
      Emit(MessageAdded(m));
    }

    // ----- tool calls --------------------------------------------------------

    method Report(id: nat, progress: seq<nat>)
      modifies this`events
      ensures events == old(events) + Progress(id, progress)
    {
      for i := 0 to |progress|
        invariant events == old(events) + Progress(id, progress)[..i]
      {
        Emit(ToolProgress(id, progress[i]));
      }
    }

    /** One call answered, whether it ran or not. */
    method Answer(id: nat, progress: seq<nat>, m: Message)
      modifies this`messages, this`events
      ensures messages == old(messages) + [m] && events == old(events) + CallEvents(id, progress, m)
    {
      Emit(ToolStarted(id));
      Report(id, progress);
      Emit(ToolCompleted(m));
      Push(m);
    }

    /** The first `k` calls of a reply are answered. */
    ghost predicate AnsweredTo(
      reply: Reply, tools: nat -> ToolRun, k: nat, before: seq<Message>, log: seq<Event>)
      requires k <= |reply.calls|
      reads `messages, `events
    {
      messages == before + ResultsTo(reply, tools, k) && events == log + CallsTo(reply, tools, k)
    }

    method AnswerNext(
      reply: Reply, ghost tools: nat -> ToolRun, k: nat, progress: seq<nat>, m: Message,
      ghost before: seq<Message>, ghost log: seq<Event>)
      requires k < |reply.calls| && AnsweredTo(reply, tools, k, before, log)
      requires m == ResultFor(reply, tools, k) && progress == ProgressOf(reply, tools, k)
      modifies this`messages, this`events
      ensures AnsweredTo(reply, tools, k + 1, before, log)
    {
      Answer(reply.calls[k].id, progress, m);
    }

    /** Arguments of a truncated reply are never executed. */
    method Refuse(reply: Reply, ghost tools: nat -> ToolRun, ghost before: seq<Message>, ghost log: seq<Event>)
      requires reply.truncated && AnsweredTo(reply, tools, 0, before, log)
      modifies this`messages, this`events
      ensures AnsweredTo(reply, tools, |reply.calls|, before, log)
    {
      for k := 0 to |reply.calls|
        invariant AnsweredTo(reply, tools, k, before, log)
      {
        AnswerNext(reply, tools, k, [], ToolResult(reply.calls[k].id, TRUNCATED, true), before, log);
      }
    }

    /** The undispatched rest of a reply, once cancellation was seen. */
    method CancelRest(
      reply: Reply, ghost tools: nat -> ToolRun, from: nat, ghost before: seq<Message>, ghost log: seq<Event>)
      requires !reply.truncated && from <= |reply.calls| && AnsweredTo(reply, tools, from, before, log)
      requires SeenBy(tools, from + 1)
      modifies this`messages, this`events
      ensures AnsweredTo(reply, tools, |reply.calls|, before, log)
    {
      for k := from to |reply.calls|
        invariant AnsweredTo(reply, tools, k, before, log)
      {
        assert SeenBy(tools, k + 1);
        AnswerNext(reply, tools, k, [], ToolResult(reply.calls[k].id, CANCELLED, true), before, log);
      }
    }

    /** The calls of one reply: refused when truncated, otherwise run until cancellation is seen. */
    method RunCalls(reply: Reply, tools: nat -> ToolRun) returns (aborted: bool)
      modifies this`messages, this`events
      ensures AnsweredTo(reply, tools, |reply.calls|, old(messages), old(events))
      ensures aborted <==> !reply.truncated && SeenBy(tools, |reply.calls|)
    {
      ghost var before, log := messages, events;
      if reply.truncated {
        Refuse(reply, tools, before, log);
        return false;
      }
      for k := 0 to |reply.calls|
        invariant AnsweredTo(reply, tools, k, before, log) && !SeenBy(tools, k)
      {
        var run := tools(k);
        if run.cancelledBefore {
          CancelRest(reply, tools, k, before, log);
          return true;
        }
        AnswerNext(reply, tools, k, run.progress, ToolResult(reply.calls[k].id, run.content, run.isError), before, log);
      }
      return false;
    }

    // ----- one round ---------------------------------------------------------

    method Relay(deltas: seq<nat>)
      modifies this`events
      ensures events == old(events) + Deltas(deltas)
    {
      for i := 0 to |deltas|
        invariant events == old(events) + Deltas(deltas)[..i]
      {
        Emit(MessageDelta(deltas[i]));
      }
    }

    /** `stream_assistant`: the deltas, then the reply, an abort or an error. */
    method Stream(r: Response) returns (reply: Option<Reply>)
      modifies this`messages, this`events, this`requests
      ensures reply == if r.Replies? then Some(r.reply) else None
      ensures requests == old(requests) + [old(messages)]
      ensures messages == old(messages) + if r.Replies? then [Assistant(r.reply)] else []
      ensures events == old(events) + Deltas(r.deltas) + match r
                        case Replies(_, m) => [MessageAdded(Assistant(m))]
                        case Aborts(_) => []
                        case Fails(_) => [ErrorRaised]
    {
      requests := requests + [messages];
      Relay(r.deltas);
      match r {
        case Replies(_, m) =>
          Push(Assistant(m));
          return Some(m);
        case Aborts(_) =>
          return None;
        case Fails(_) =>
          Emit(ErrorRaised);
          return None;
      }
    }

    /** One response and the calls it asks for; `None` when the loop goes on. */
    method Respond(round: Round) returns (ending: Option<Ending>)
      requires !round.cancelledAtTop
      modifies this`messages, this`events, this`requests
      ensures messages == old(messages) + Output(round) && events == old(events) + RoundEvents(round)
      ensures requests == old(requests) + [old(messages)]
      ensures ending == if Breaks(round) then Some(Failed) else if Interrupts(round) then Some(Ended(Aborted)) else None
    {
      var reply := Stream(round.response);
      if reply.None? {
        return Some(if round.response.Fails? then Failed else Ended(Aborted));
      }
      var aborted := RunCalls(reply.value, round.tools);
      return if aborted then Some(Ended(Aborted)) else None;
    }

    /** The drained inputs enter the history, rewritten, in their order. */
    method Inject(pending: seq<nat>, ghost inputs: seq<Input>)
      requires |inputs| == |pending| && forall i :: 0 <= i < |inputs| ==> inputs[i].text == pending[i]
      modifies this`messages, this`events
      ensures messages == old(messages) + Users(rewrite, inputs)
      ensures events == old(events) + Announce(Users(rewrite, inputs))
    {
      ghost var users := Users(rewrite, inputs);
      for k := 0 to |pending|
        invariant messages == old(messages) + users[..k] && events == old(events) + Announce(users)[..k]
      {
        Push(User(rewrite(pending[k])));
      }
    }

    // ----- the loop ----------------------------------------------------------

    /** `drain_queue` on the steering queue, after whatever arrived. */
    method DrainSteer(arrivals: seq<nat>) returns (d: seq<nat>)
      modifies this`steerQueue
      ensures d == Drained(old(steerQueue) + arrivals, mode) && d + steerQueue == old(steerQueue) + arrivals
      ensures mode.OneAtATime? ==> |d| == Min(1, |old(steerQueue) + arrivals|)
      ensures mode.All? ==> steerQueue == []
    {
      var queue := steerQueue + arrivals;
      d := Drained(queue, mode);
      steerQueue := queue[|d|..];
    }

    method DrainFollowUps(arrivals: seq<nat>) returns (d: seq<nat>)
      modifies this`followQueue
      ensures d == Drained(old(followQueue) + arrivals, mode) && d + followQueue == old(followQueue) + arrivals
      ensures mode.OneAtATime? ==> |d| == Min(1, |old(followQueue) + arrivals|)
      ensures mode.All? ==> followQueue == []
    {
      var queue := followQueue + arrivals;
      d := Drained(queue, mode);
      followQueue := queue[|d|..];
    }

    /** Everything the stage says is in place, on top of what there was before the turn. */
    ghost predicate Recorded(s: Script, t: Before, g: Stage) reads `messages, `events, `requests {
      && messages == s.base + g.history
      && events == t.events + [TurnStarted] + g.events
      && requests == t.requests + g.requests
    }

    ghost predicate QueuesOf(p: Plan) reads `steerQueue, `followQueue {
      steerQueue == p.steers && followQueue == p.followUps
    }

    /** About to enter a round: the queues, what waits for it, and whether any steer was drained yet. */
    ghost predicate AtHead(g: Stage, pending: seq<nat>, steered: bool) reads `steerQueue, `followQueue {
      QueuesOf(g.plan) && Texts(g.plan.pending) == pending && (steered <==> From(Taken(g), Steering) != [])
    }

    /** After the quiet round `r` from `g`, with the follow-ups not yet drained. */
    ghost predicate AtRest(g: Stage, r: Round, steered: bool) reads `steerQueue, `followQueue {
      && Finishes(r) && Quiet(g.plan, r) && steerQueue == [] && followQueue == g.plan.followUps
      && (steered <==> From(Taken(g), Steering) != [])
    }

    /** The round ends the turn before its queues are drained. */
    ghost predicate CutBy(r: Round, ending: Ending) {
      (ending == Failed && Breaks(r)) || (ending == Ended(Aborted) && Interrupts(r))
    }

    /** Inputs, then response and calls; `None` when the loop goes on. */
    method InjectAndRespond(pending: seq<nat>, ghost inputs: seq<Input>, r: Round) returns (ending: Option<Ending>)
      requires pending == Texts(inputs)
      modifies this`messages, this`events, this`requests
      ensures messages == old(messages) + Users(rewrite, inputs) + Output(r)
      ensures events == old(events) + Announce(Users(rewrite, inputs)) + RoundEvents(r)
      ensures requests == old(requests) + if r.cancelledAtTop then [] else [old(messages) + Users(rewrite, inputs)]
      ensures ending.None? <==> Finishes(r)
      ensures ending.Some? ==> CutBy(r, ending.value)
    {
      Inject(pending, inputs);
      if r.cancelledAtTop {
        return Some(Ended(Aborted));
      }
      ending := Respond(r);
    }

    method OneRound(ghost s: Script, ghost t: Before, ghost g: Stage, pending: seq<nat>, r: Round)
      returns (ending: Option<Ending>)
      requires Recorded(s, t, g) && Texts(g.plan.pending) == pending && s.rewrite == rewrite
      modifies this`messages, this`events, this`requests
      ensures Recorded(s, t, Next(s, g, r))
      ensures ending.None? <==> Finishes(r)
      ensures ending.Some? ==> CutBy(r, ending.value)
    {
      ghost var users := Users(s.rewrite, g.plan.pending);
      Regroup(s.base, g.history, users, Output(r));
      Regroup(t.events + [TurnStarted], g.events, Announce(users), RoundEvents(r));
      Regroup(t.requests, g.requests, RequestOf(s, g, r), []);
      ending := InjectAndRespond(pending, g.plan.pending, r);
    }

    lemma SameRest(d: seq<nat>, a: seq<nat>, b: seq<nat>)
      requires d + a == d + b
      ensures a == b
    {
      assert a == (d + a)[|d|..] && b == (d + b)[|d|..];
    }

    /** The plan after a round that drained `d` and leads straight to the next. */
    lemma Drains(s: Script, g: Stage, r: Round, d: seq<nat>)
      requires d == Drained(g.plan.steers + r.steers, s.mode) && (d != [] || !Idle(r))
      ensures var h := Next(s, g, r);
        && d + h.plan.steers == g.plan.steers + r.steers && h.plan.followUps == g.plan.followUps
        && Texts(h.plan.pending) == d && From(Taken(h), Steering) == From(Taken(g), Steering) + d
    {
      var h := Next(s, g, r);
      assert h.plan.pending == Tagged(d, Steering) && Texts(h.plan.pending) == d;
      assert From(Taken(h), Steering) == From(Taken(g), Steering) + d by {
        MoreInputs(Taken(g), d, Steering, Steering);
      }
    }

    /** The steering drain after a round that finished, and where it leaves the loop. */
    method Settle(ghost s: Script, ghost g: Stage, ghost steered: bool, r: Round)
      returns (again: bool, steers: seq<nat>)
      requires QueuesOf(g.plan) && Finishes(r) && (steered <==> From(Taken(g), Steering) != []) && s.mode == mode
      modifies this`steerQueue
      ensures again || steers != [] ==> AtHead(Next(s, g, r), steers, steered || steers != []) && !Stops(g.plan, r)
      ensures !again && steers == [] ==> AtRest(g, r, steered)
    {
      again := r.response.reply.calls != [] || !r.stopPasses;
      steers := DrainSteer(r.steers);
      if steers != [] || !Idle(r) {
        Drains(s, g, r, steers);
        SameRest(steers, steerQueue, Next(s, g, r).plan.steers);
      }
    }

    /** One pass of the inner loop, up to and including the drain of the steering queue. */
    method Pass(ghost s: Script, ghost t: Before, ghost g: Stage, pending: seq<nat>, ghost steered: bool, r: Round)
      returns (ending: Option<Ending>, again: bool, steers: seq<nat>)
      requires Recorded(s, t, g) && AtHead(g, pending, steered) && s.mode == mode && s.rewrite == rewrite
      modifies this`messages, this`events, this`requests, this`steerQueue
      ensures Recorded(s, t, Next(s, g, r))
      ensures ending.Some? ==> QueuesOf(g.plan) && CutBy(r, ending.value)
      ensures ending.None? && (again || steers != []) ==>
                Finishes(r) && !Stops(g.plan, r) && AtHead(Next(s, g, r), steers, steered || steers != [])
      ensures ending.None? && !again && steers == [] ==> AtRest(g, r, steered)
    {
      again, steers := true, [];
      ending := OneRound(s, t, g, pending, r);
      if ending.None? {
        again, steers := Settle(s, g, steered, r);
      }
    }

    lemma DrainsLater(s: Script, g: Stage, r: Round, d: seq<nat>)
      requires Quiet(g.plan, r) && d == Drained(g.plan.followUps + r.followUps, s.mode)
      ensures var h := Next(s, g, r);
        && h.plan.steers == [] && Texts(h.plan.pending) == d
        && d + h.plan.followUps == g.plan.followUps + r.followUps
        && From(Taken(h), Steering) == From(Taken(g), Steering)
    {
      var h := Next(s, g, r);
      assert h.plan.pending == Tagged(d, FollowUp) && Texts(h.plan.pending) == d;
      assert From(Taken(h), Steering) == From(Taken(g), Steering) by { MoreInputs(Taken(g), d, Steering, FollowUp); }
    }

    /** The agent would stop: follow-ups push it on, or there are none. */
    method PushOn(ghost s: Script, ghost g: Stage, ghost steered: bool, r: Round) returns (followUps: seq<nat>)
      requires AtRest(g, r, steered) && s.mode == mode
      modifies this`followQueue
      ensures QueuesOf(Next(s, g, r).plan)
      ensures followUps != [] ==> AtHead(Next(s, g, r), followUps, steered)
      ensures followUps == [] <==> Stops(g.plan, r)
    {
      followUps := DrainFollowUps(r.followUps);
      DrainsLater(s, g, r, followUps);
      SameRest(followUps, followQueue, Next(s, g, r).plan.followUps);
    }

    lemma SteersAtStart(inputs: seq<Input>, d: seq<nat>)
      requires |inputs| == 1 && inputs[0].origin == Prompt
      ensures From(inputs + Tagged(d, Steering), Steering) == d
    {
      OneMoreInput([], inputs[0], Steering);
      assert [] + [inputs[0]] == inputs;
      MoreInputs(inputs, d, Steering, Steering);
      assert [] + d == d;
    }

    lemma HeadAtStart(s: Script, d: seq<nat>)
      requires d == Drained(s.steers, s.mode) && d + steerQueue == s.steers && followQueue == s.followUps
      ensures AtHead(First(s), d, d != [])
    {
      var g := First(s);
      var steers := From(Taken(g), Steering);
      assert steers == d by { SteersAtStart(g.injected, d); }
      assert QueuesOf(g.plan) by { SameRest(d, steerQueue, g.plan.steers); }
      assert Texts(g.plan.pending) == d;
    }

    /** The prompt, and the steering that was queued while the agent was idle. */
    method Enter(s: Script, ghost t: Before) returns (pending: seq<nat>)
      requires messages == s.base && events == t.events + [TurnStarted] && requests == t.requests
      requires steerQueue == s.steers && followQueue == s.followUps && s.mode == mode && s.rewrite == rewrite
      modifies this`messages, this`events, this`steerQueue
      ensures Recorded(s, t, First(s)) && AtHead(First(s), pending, pending != [])
    {
      Push(User(rewrite(s.prompt)));
      pending := DrainSteer([]);
      assert s.steers + [] == s.steers;
      HeadAtStart(s, pending);
    }

    /** Round `n`, should the loop go on, starts from `g`. */
    ghost predicate Reached(s: Script, n: nat, g: Stage) {
      g == At(s, n) && Runs(s, n)
    }

    /** At the head of the inner loop, about to enter round `n`. */
    ghost predicate Head(s: Script, t: Before, n: nat, g: Stage, pending: seq<nat>, steered: bool)
      reads `messages, `events, `requests, `steerQueue, `followQueue
    {
      Reached(s, n, g) && Recorded(s, t, g) && AtHead(g, pending, steered)
    }

    /** Below the inner loop, which ran dry after round `n - 1`, from `g`. */
    ghost predicate Rest(s: Script, t: Before, n: nat, g: Stage, steered: bool)
      reads `messages, `events, `requests, `steerQueue, `followQueue
    {
      && n > 0 && Reached(s, n - 1, g) && Recorded(s, t, Next(s, g, s.world(n - 1)))
      && AtRest(g, s.world(n - 1), steered)
    }

    /** The turn entered `rounds` rounds and is over, or is followed no further. */
    ghost predicate Over(s: Script, t: Before, fuel: nat, rounds: nat, ending: Ending)
      reads `messages, `events, `requests, `steerQueue, `followQueue
    {
      Ends(s, fuel, rounds, ending) && Recorded(s, t, At(s, rounds)) && QueuesOf(At(s, Settled(rounds, ending)).plan)
    }

    lemma ReachedFirst(s: Script)
      ensures Reached(s, 0, First(s))
    {
      AtFirst(s);
    }

    lemma ReachedNext(s: Script, n: nat, g: Stage)
      requires n > 0 && Reached(s, n - 1, g) && Finishes(s.world(n - 1)) && !Stops(g.plan, s.world(n - 1))
      ensures Reached(s, n, Next(s, g, s.world(n - 1)))
    {
      assert Runs(s, n) by { OneMoreRuns(s, n); }
      assert At(s, n) == Next(s, g, s.world(n - 1)) by { AtNext(s, n); }
    }

    lemma CutIsOver(s: Script, t: Before, fuel: nat, n: nat, g: Stage, ending: Ending)
      requires 0 < n <= fuel && Reached(s, n - 1, g) && Recorded(s, t, Next(s, g, s.world(n - 1)))
      requires QueuesOf(g.plan) && CutBy(s.world(n - 1), ending)
      ensures Over(s, t, fuel, n, ending)
    {
      AtNext(s, n);
    }

    lemma DryIsOver(s: Script, t: Before, fuel: nat, n: nat, g: Stage, steered: bool, ending: Ending)
      requires 0 < n <= fuel && Reached(s, n - 1, g) && Recorded(s, t, Next(s, g, s.world(n - 1)))
      requires Stops(g.plan, s.world(n - 1)) && QueuesOf(Next(s, g, s.world(n - 1)).plan)
      requires (steered <==> From(Taken(g), Steering) != []) && ending == Ended(if steered then Steered else Completed)
      ensures Over(s, t, fuel, n, ending)
    {
      AtNext(s, n);
    }

    /** Round `n - 1` of the inner loop, from `g` to `h`. */
    method Step(
      ghost s: Script, ghost t: Before, ghost fuel: nat, ghost n: nat, ghost g: Stage,
      pending: seq<nat>, before: bool, r: Round)
      returns (ghost h: Stage, steered: bool, ending: Option<Ending>, again: bool, steers: seq<nat>)
      requires 0 < n <= fuel && Head(s, t, n - 1, g, pending, before) && r == s.world(n - 1)
      requires s.mode == mode && s.rewrite == rewrite
      modifies this`messages, this`events, this`requests, this`steerQueue
      ensures ending.Some? ==> Over(s, t, fuel, n, ending.value)
      ensures ending.None? && (again || steers != []) ==> Head(s, t, n, h, steers, steered)
      ensures ending.None? && !again && steers == [] ==> Rest(s, t, n, h, steered)
    {
      ending, again, steers := Pass(s, t, g, pending, before, r);
      steered := before || steers != [];
      h := g;
      if ending.Some? {
        CutIsOver(s, t, fuel, n, g, ending.value);
      } else if again || steers != [] {
        ReachedNext(s, n, g);
        h := Next(s, g, r);
      }
    }

    /** The inner loop from round `n` on: it runs dry before round `m`, or the turn is over. */
    method Inner(s: Script, ghost t: Before, fuel: nat, n: nat, ghost from: Stage, waiting: seq<nat>, before: bool)
      returns (m: nat, ghost g: Stage, steered: bool, ending: Option<Ending>)
      requires n <= fuel && Head(s, t, n, from, waiting, before) && s.mode == mode && s.rewrite == rewrite
      modifies this`messages, this`events, this`requests, this`steerQueue
      ensures n <= m <= fuel
      ensures ending.None? ==> n < m && Rest(s, t, m, g, steered)
      ensures ending.Some? ==> Over(s, t, fuel, m, ending.value)
    {
      var pending, again := waiting, true;
      m, g, steered := n, from, before;
      while again || pending != []
        invariant n <= m <= fuel && (m == n ==> again)
        invariant again || pending != [] ==> Head(s, t, m, g, pending, steered)
        invariant !again && pending == [] ==> Rest(s, t, m, g, steered)
        decreases fuel - m
      {
        if m == fuel { return m, g, steered, Some(StillRunning); }
        m := m + 1;
        g, steered, ending, again, pending := Step(s, t, fuel, m, g, pending, steered, s.world(m - 1));
        if ending.Some? { return; }
      }
      ending := None;
    }

    /** Below the inner loop: follow-ups lead back to it, or the turn is over. */
    method Outer(
      ghost s: Script, ghost t: Before, ghost fuel: nat, ghost n: nat, ghost g: Stage, steered: bool, r: Round)
      returns (ghost h: Stage, pending: seq<nat>)
      requires 0 < n <= fuel && Rest(s, t, n, g, steered) && r == s.world(n - 1) && s.mode == mode
      modifies this`followQueue
      ensures pending != [] ==> Head(s, t, n, h, pending, steered)
      ensures pending == [] ==> Over(s, t, fuel, n, Ended(if steered then Steered else Completed))
    {
      h := Next(s, g, r);
      pending := PushOn(s, g, steered, r);
      if pending == [] {
        DryIsOver(s, t, fuel, n, g, steered, Ended(if steered then Steered else Completed));
      } else {
        ReachedNext(s, n, g);
      }
    }

    /** `double_loop`, followed for at most `fuel` rounds. */
    method DoubleLoop(s: Script, fuel: nat, ghost t: Before) returns (rounds: nat, ending: Ending)
      requires messages == s.base && events == t.events + [TurnStarted] && requests == t.requests
      requires steerQueue == s.steers && followQueue == s.followUps && s.mode == mode && s.rewrite == rewrite
      modifies this`messages, this`events, this`requests, this`steerQueue, this`followQueue
      ensures Over(s, t, fuel, rounds, ending)
    {
      var pending := Enter(s, t);
      var steered := pending != [];
      ghost var g := First(s);
      ReachedFirst(s);
      rounds := 0;
      while true
        invariant rounds <= fuel && Head(s, t, rounds, g, pending, steered)
        decreases fuel - rounds
      {
        var early: Option<Ending>;
        rounds, g, steered, early := Inner(s, t, fuel, rounds, g, pending, steered);
        if early.Some? { return rounds, early.value; }
        g, pending := Outer(s, t, fuel, rounds, g, steered, s.world(rounds - 1));
        if pending == [] { break; }
      }
      ending := Ended(if steered then Steered else Completed);
    }

    /** `run_turn`: the whole turn, between its two brackets. */
    method RunTurn(prompt: nat, world: nat -> Round, fuel: nat) returns (rounds: nat, ending: Ending)
      modifies this
      ensures var s := Script(old(messages), old(steerQueue), old(followQueue), mode, rewrite, prompt, world);
        && Ends(s, fuel, rounds, ending)
        && messages == old(messages) + At(s, rounds).history
        && events == old(events) + TurnEvents(At(s, rounds), ending)
        && requests == old(requests) + At(s, rounds).requests
        && QueuesOf(At(s, Settled(rounds, ending)).plan)
    {
      var s := Script(messages, steerQueue, followQueue, mode, rewrite, prompt, world);
      ghost var t := Before(events, requests);
      Emit(TurnStarted);
      rounds, ending := DoubleLoop(s, fuel, t);
      if ending != StillRunning {
        Emit(TurnEnded(if ending.Ended? then ending.outcome else Aborted));
      }
      Regroup(t.events, [TurnStarted], At(s, rounds).events, TurnEnd(ending));
    }
  }
}
