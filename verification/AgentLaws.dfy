/**
 * Further laws of a turn of the agent: how many messages each drain delivers in
 * the two queue modes, what each request shows, what each call comes to, what is
 * said while a round runs, and when a turn stops.
 */
module AgentLaws {
  import opened AgentHistory
  import opened AgentScript

  // ----- the two queue modes -------------------------------------------------

  /** One at a time, a drain takes exactly the oldest message; otherwise it takes everything. */
  lemma DrainTakes(queue: seq<nat>, mode: QueueMode)
    ensures mode.OneAtATime? && queue != [] ==> Drained(queue, mode) == [queue[0]]
    ensures mode.All? ==> Drained(queue, mode) == queue
  {
  }

  /** What the round before `n`, or the start of the turn, left in the steering queue before its drain. */
  ghost function Waiting(s: Script, n: nat): seq<nat> {
    if n == 0 then s.steers else At(s, n - 1).plan.steers + s.world(n - 1).steers
  }

  /** The inputs are the texts, all of one origin and in their order. */
  predicate AreFrom(inputs: seq<Input>, o: Origin, texts: seq<nat>) {
    |inputs| == |texts| && forall i :: 0 <= i < |inputs| ==> inputs[i] == Input(o, texts[i])
  }

  /** What a drain of a waiting queue delivers to the next round. */
  predicate Delivers(mode: QueueMode, inputs: seq<Input>, o: Origin, waiting: seq<nat>, left: seq<nat>) {
    if mode.All? then AreFrom(inputs, o, waiting) && left == []
    else if waiting == [] then inputs == [] && left == []
    else AreFrom(inputs, o, [waiting[0]]) && left == waiting[1..]
  }

  /**
   * Before every round the steering queue is drained: one at a time it gives up exactly its oldest message, and
   * otherwise all of them, whatever the turn has met so far. Only when it is empty and the agent would stop do
   * the follow-ups come instead, in the same way.
   */
  lemma DrainsByMode(s: Script, n: nat)
    ensures var p, waiting := At(s, n).plan, Waiting(s, n);
      if waiting == [] && n > 0 && Quiet(At(s, n - 1).plan, s.world(n - 1)) then
        p.steers == [] && Delivers(s.mode, p.pending, FollowUp,
                                   At(s, n - 1).plan.followUps + s.world(n - 1).followUps, p.followUps)
      else Delivers(s.mode, p.pending, Steering, waiting, p.steers)
  {
    if n == 0 { AtFirst(s); } else { AtNext(s, n); }
  }

  /** One at a time, no round takes more than one message after the prompt. */
  lemma OneMessageARound(s: Script, n: nat)
    requires s.mode.OneAtATime?
    ensures |At(s, n).plan.pending| <= 1
  {
    DrainsByMode(s, n);
  }

  /** Otherwise no steer ever waits for a second drain. */
  lemma AllLeavesNothing(s: Script, n: nat)
    requires s.mode.All?
    ensures At(s, n).plan.steers == []
  {
    DrainsByMode(s, n);
  }

  // ----- requests ------------------------------------------------------------

  lemma NextShowsEverything(s: Script, g: Stage, r: Round)
    ensures r.cancelledAtTop ==> Next(s, g, r).requests == g.requests
    ensures var q := s.base + Asked(s, g);
      !r.cancelledAtTop ==>
        Next(s, g, r).requests == g.requests + [q] && q + Output(r) == s.base + Next(s, g, r).history
  {
    var h, asked := Next(s, g, r), Asked(s, g);
    assert h.requests == g.requests + RequestOf(s, g, r);
    assert h.history == asked + Output(r);
    assert (s.base + asked) + Output(r) == s.base + (asked + Output(r));
  }

  /**
   * Each round that is not cancelled at its top sends one request, which shows all the conversation has before
   * the reply: with what the round then adds it is the new history.
   */
  lemma RequestsShowEverything(s: Script, n: nat)
    requires n > 0
    ensures var before, after, r := At(s, n - 1).requests, At(s, n).requests, s.world(n - 1);
      if r.cancelledAtTop then after == before
      else
        && |after| == |before| + 1 && after[..|before|] == before
        && after[|before|] + Output(r) == s.base + At(s, n).history
  {
    assert At(s, n) == Next(s, At(s, n - 1), s.world(n - 1)) by { AtNext(s, n); }
    NextShowsEverything(s, At(s, n - 1), s.world(n - 1));
  }

  /** The steering that is taken with the prompt. */
  function FirstSteers(s: Script): (users: seq<Message>) {
    if s.steers == [] then []
    else if s.mode.OneAtATime? then [User(s.rewrite(s.steers[0]))]
    else seq(|s.steers|, i requires 0 <= i < |s.steers| => User(s.rewrite(s.steers[i])))
  }

  lemma AskedFirst(s: Script)
    ensures s.base + Asked(s, First(s)) == s.base + [User(s.rewrite(s.prompt))] + FirstSteers(s)
  {
    assert Users(s.rewrite, First(s).plan.pending) == FirstSteers(s);
  }

  /** The first request of a turn: what the agent held, the prompt, and the steering that was already queued. */
  lemma FirstRequest(s: Script)
    requires !s.world(0).cancelledAtTop
    ensures At(s, 1).requests == [s.base + [User(s.rewrite(s.prompt))] + FirstSteers(s)]
  {
    assert At(s, 1) == Next(s, First(s), s.world(0)) by {
      AtFirst(s);
      AtNext(s, 1);
    }
    assert Next(s, First(s), s.world(0)).requests == [s.base + Asked(s, First(s))];
    AskedFirst(s);
  }

  // ----- the calls of a reply ------------------------------------------------

  lemma {:induction false} ResultAt(reply: Reply, tools: nat -> ToolRun, n: nat, j: nat)
    requires j < n <= |reply.calls|
    ensures ResultsTo(reply, tools, n)[j] == ResultFor(reply, tools, j)
    decreases n
  {
    if j < n - 1 { ResultAt(reply, tools, n - 1, j); }
  }

  /**
   * The result of a call is what its tool gave, unless the reply was cut off or cancellation was seen before the
   * call or an earlier one; then it is an error that says which.
   */
  lemma CallComesTo(r: Round, j: nat)
    requires !r.cancelledAtTop && r.response.Replies? && j < |r.response.reply.calls|
    ensures j + 1 < |Output(r)| && Output(r)[j + 1].ToolResult?
    ensures var reply, m := r.response.reply, Output(r)[j + 1];
      && m.callId == reply.calls[j].id
      && (reply.truncated ==> m.isError && m.content == TRUNCATED)
      && (!reply.truncated && (exists k :: 0 <= k <= j && r.tools(k).cancelledBefore) ==>
            m.isError && m.content == CANCELLED)
      && (!reply.truncated && (forall k :: 0 <= k <= j ==> !r.tools(k).cancelledBefore) ==>
            m.isError == r.tools(j).isError && m.content == r.tools(j).content)
  {
    var reply := r.response.reply;
    ResultAt(reply, r.tools, |reply.calls|, j);
    assert Output(r)[j + 1] == ResultsTo(reply, r.tools, |reply.calls|)[j];
    if k :| 0 <= k <= j && r.tools(k).cancelledBefore {
      assert SeenBy(r.tools, j + 1);
    }
  }

  // ----- what is said while a round runs -------------------------------------

  /** The deltas among the events, in order. */
  function DeltasIn(events: seq<Event>): seq<nat> {
    if events == [] then []
    else
      var before := DeltasIn(events[..|events| - 1]);
      match events[|events| - 1] case MessageDelta(d) => before + [d] case _ => before
  }

  /** What an event says about the call with its id. */
  datatype Mark = Begun(id: nat) | Told(id: nat, text: nat) | Finished(id: nat)

  function MarksIn(events: seq<Event>): seq<Mark> {
    if events == [] then []
    else
      var before := MarksIn(events[..|events| - 1]);
      match events[|events| - 1]
      case ToolStarted(id) => before + [Begun(id)]
      case ToolProgress(id, text) => before + [Told(id, text)]
      case ToolCompleted(m) => if m.ToolResult? then before + [Finished(m.callId)] else before
      case _ => before
  }

  /** The events say just these deltas and these marks. */
  predicate Says(events: seq<Event>, deltas: seq<nat>, marks: seq<Mark>) {
    DeltasIn(events) == deltas && MarksIn(events) == marks
  }

  lemma OneMoreSays(events: seq<Event>, e: Event)
    ensures DeltasIn(events + [e]) == DeltasIn(events) + if e.MessageDelta? then [e.delta] else []
    ensures MarksIn(events + [e]) == MarksIn(events) +
            if e.ToolStarted? then [Begun(e.callId)]
            else if e.ToolProgress? then [Told(e.callId, e.text)]
            else if e.ToolCompleted? && e.result.ToolResult? then [Finished(e.result.callId)]
            else []
  {
    assert (events + [e])[..|events|] == events;
  }

  predicate Silent(e: Event) { e.MessageAdded? || e.ErrorRaised? }

  lemma {:induction false} SaysNothing(events: seq<Event>, deltas: seq<nat>, marks: seq<Mark>, more: seq<Event>)
    requires Says(events, deltas, marks) && forall i :: 0 <= i < |more| ==> Silent(more[i])
    ensures Says(events + more, deltas, marks)
    decreases |more|
  {
    if more == [] {
      assert events + more == events;
    } else {
      var front, x := more[..|more| - 1], more[|more| - 1];
      SaysNothing(events, deltas, marks, front);
      OneMoreSays(events + front, x);
      assert events + more == (events + front) + [x];
    }
  }

  lemma {:induction false} SaysDeltas(events: seq<Event>, deltas: seq<nat>, marks: seq<Mark>, more: seq<nat>)
    requires Says(events, deltas, marks)
    ensures Says(events + Deltas(more), deltas + more, marks)
    decreases |more|
  {
    if more == [] {
      assert events + Deltas(more) == events && deltas + more == deltas;
    } else {
      var front, x := more[..|more| - 1], more[|more| - 1];
      SaysDeltas(events, deltas, marks, front);
      OneMoreSays(events + Deltas(front), MessageDelta(x));
      assert Deltas(more) == Deltas(front) + [MessageDelta(x)];
      Regroup(events, Deltas(front), [MessageDelta(x)], []);
      Regroup(deltas, front, [x], []);
    }
  }

  function ToldAll(id: nat, progress: seq<nat>): (marks: seq<Mark>) {
    seq(|progress|, i requires 0 <= i < |progress| => Told(id, progress[i]))
  }

  lemma {:induction false} SaysProgress(
    events: seq<Event>, deltas: seq<nat>, marks: seq<Mark>, id: nat, more: seq<nat>)
    requires Says(events, deltas, marks)
    ensures Says(events + Progress(id, more), deltas, marks + ToldAll(id, more))
    decreases |more|
  {
    if more == [] {
      assert events + Progress(id, more) == events && marks + ToldAll(id, more) == marks;
    } else {
      var front, x := more[..|more| - 1], more[|more| - 1];
      SaysProgress(events, deltas, marks, id, front);
      OneMoreSays(events + Progress(id, front), ToolProgress(id, x));
      assert Progress(id, more) == Progress(id, front) + [ToolProgress(id, x)];
      assert ToldAll(id, more) == ToldAll(id, front) + [Told(id, x)];
      Regroup(events, Progress(id, front), [ToolProgress(id, x)], []);
      Regroup(marks, ToldAll(id, front), [Told(id, x)], []);
    }
  }

  /** Nobody cancelled before call `j` or an earlier one. */
  predicate Runs(reply: Reply, tools: nat -> ToolRun, j: nat) {
    !reply.truncated && forall k :: 0 <= k <= j ==> !tools(k).cancelledBefore
  }

  /** A call begins, tells the progress of its tool if it runs, and is finished. */
  function CallMarks(id: nat, progress: seq<nat>): seq<Mark> {
    [Begun(id)] + ToldAll(id, progress) + [Finished(id)]
  }

  /** A call ends with its completion, and with its result in the history, which says no more. */
  lemma SaysEnd(events: seq<Event>, deltas: seq<nat>, marks: seq<Mark>, m: Message)
    requires Says(events, deltas, marks) && m.ToolResult?
    ensures Says(events + ([ToolCompleted(m)] + [MessageAdded(m)]), deltas, marks + [Finished(m.callId)])
  {
    OneMoreSays(events, ToolCompleted(m));
    OneMoreSays(events + [ToolCompleted(m)], MessageAdded(m));
    assert events + ([ToolCompleted(m)] + [MessageAdded(m)]) == events + [ToolCompleted(m)] + [MessageAdded(m)];
  }

  lemma SaysCall(
    events: seq<Event>, deltas: seq<nat>, marks: seq<Mark>, id: nat, progress: seq<nat>, m: Message)
    requires Says(events, deltas, marks) && m.ToolResult? && m.callId == id
    ensures Says(events + CallEvents(id, progress, m), deltas, marks + CallMarks(id, progress))
  {
    var a := events + [ToolStarted(id)];
    OneMoreSays(events, ToolStarted(id));
    SaysProgress(a, deltas, marks + [Begun(id)], id, progress);
    SaysEnd(a + Progress(id, progress), deltas, marks + [Begun(id)] + ToldAll(id, progress), m);
    Regroup(events, [ToolStarted(id)], Progress(id, progress), [ToolCompleted(m)] + [MessageAdded(m)]);
    assert CallEvents(id, progress, m)
        == [ToolStarted(id)] + Progress(id, progress) + ([ToolCompleted(m)] + [MessageAdded(m)]);
    Regroup(marks, [Begun(id)], ToldAll(id, progress), [Finished(id)]);
  }

  /** What the tool of call `j` reports, which is nothing unless it runs. */
  function Reported(reply: Reply, tools: nat -> ToolRun, j: nat): seq<nat> {
    if Runs(reply, tools, j) then tools(j).progress else []
  }

  lemma ReportsIfItRuns(reply: Reply, tools: nat -> ToolRun, j: nat)
    requires j < |reply.calls|
    ensures ProgressOf(reply, tools, j) == Reported(reply, tools, j)
  {
  }

  /** Each call is finished before the next one begins. */
  function MarksTo(reply: Reply, tools: nat -> ToolRun, n: nat): seq<Mark>
    requires n <= |reply.calls|
  {
    if n == 0 then []
    else MarksTo(reply, tools, n - 1) + CallMarks(reply.calls[n - 1].id, Reported(reply, tools, n - 1))
  }

  lemma {:induction false} SaysCalls(
    events: seq<Event>, deltas: seq<nat>, marks: seq<Mark>, reply: Reply, tools: nat -> ToolRun, n: nat)
    requires Says(events, deltas, marks) && n <= |reply.calls|
    ensures Says(events + CallsTo(reply, tools, n), deltas, marks + MarksTo(reply, tools, n))
    decreases n
  {
    if n == 0 {
      assert events + CallsTo(reply, tools, n) == events && marks + MarksTo(reply, tools, n) == marks;
    } else {
      var before, said := CallsTo(reply, tools, n - 1), MarksTo(reply, tools, n - 1);
      var id, progress := reply.calls[n - 1].id, Reported(reply, tools, n - 1);
      var m := ResultFor(reply, tools, n - 1);
      SaysCalls(events, deltas, marks, reply, tools, n - 1);
      SaysCall(events + before, deltas, marks + said, id, progress, m);
      ReportsIfItRuns(reply, tools, n - 1);
      Regroup(events, before, CallEvents(id, progress, m), []);
      Regroup(marks, said, CallMarks(id, progress), []);
    }
  }

  function RoundDeltas(r: Round): seq<nat> {
    if r.cancelledAtTop then [] else r.response.deltas
  }

  function RoundMarks(r: Round): seq<Mark> {
    if r.cancelledAtTop || !r.response.Replies? then []
    else MarksTo(r.response.reply, r.tools, |r.response.reply.calls|)
  }

  lemma SaysReply(events: seq<Event>, deltas: seq<nat>, marks: seq<Mark>, r: Round)
    requires Says(events, deltas, marks) && !r.cancelledAtTop && r.response.Replies?
    ensures Says(events + RoundEvents(r), deltas + RoundDeltas(r), marks + RoundMarks(r))
  {
    var reply, more := r.response.reply, Deltas(r.response.deltas);
    var said, calls := [MessageAdded(Assistant(reply))], CallsTo(reply, r.tools, |reply.calls|);
    SaysDeltas(events, deltas, marks, r.response.deltas);
    SaysNothing(events + more, deltas + r.response.deltas, marks, said);
    SaysCalls(events + more + said, deltas + r.response.deltas, marks, reply, r.tools, |reply.calls|);
    assert RoundEvents(r) == more + said + calls;
    Regroup(events, more, said, calls);
  }

  /** The deltas of a response are relayed as they come, and then each call is reported in its order. */
  lemma SaysRound(events: seq<Event>, deltas: seq<nat>, marks: seq<Mark>, r: Round)
    requires Says(events, deltas, marks)
    ensures Says(events + RoundEvents(r), deltas + RoundDeltas(r), marks + RoundMarks(r))
  {
    if !r.cancelledAtTop && r.response.Replies? {
      SaysReply(events, deltas, marks, r);
    } else if r.cancelledAtTop {
      assert events + [] == events && deltas + [] == deltas && marks + [] == marks;
    } else {
      var more := Deltas(r.response.deltas);
      var last := if r.response.Fails? then [ErrorRaised] else [];
      SaysDeltas(events, deltas, marks, r.response.deltas);
      SaysNothing(events + more, deltas + r.response.deltas, marks, last);
      assert events + RoundEvents(r) == events + more + last && marks + [] == marks;
    }
  }

  /** What the first `n` rounds say. */
  function SaidDeltas(s: Script, n: nat): seq<nat> {
    if n == 0 then [] else SaidDeltas(s, n - 1) + RoundDeltas(s.world(n - 1))
  }

  function SaidMarks(s: Script, n: nat): seq<Mark> {
    if n == 0 then [] else SaidMarks(s, n - 1) + RoundMarks(s.world(n - 1))
  }

  lemma SaysNext(s: Script, g: Stage, r: Round, deltas: seq<nat>, marks: seq<Mark>)
    requires Says(g.events, deltas, marks)
    ensures Says(Next(s, g, r).events, deltas + RoundDeltas(r), marks + RoundMarks(r))
  {
    var users := Announce(Users(s.rewrite, g.plan.pending));
    SaysNothing(g.events, deltas, marks, users);
    SaysRound(g.events + users, deltas, marks, r);
  }

  /** The events of a turn relay the deltas and report the calls of its rounds, in their order, and no others. */
  lemma {:induction false} TurnSays(s: Script, n: nat)
    ensures Says(At(s, n).events, SaidDeltas(s, n), SaidMarks(s, n))
    decreases n, 1
  {
    if n == 0 {
      AtFirst(s);
      SaysNothing([], [], [], First(s).events);
      assert [] + First(s).events == First(s).events;
    } else {
      OneMoreSaid(s, n);
    }
  }

  lemma {:induction false} OneMoreSaid(s: Script, n: nat)
    requires n > 0
    ensures Says(At(s, n).events, SaidDeltas(s, n), SaidMarks(s, n))
    decreases n, 0
  {
    var g, h := At(s, n - 1), At(s, n);
    assert Says(g.events, SaidDeltas(s, n - 1), SaidMarks(s, n - 1)) by { TurnSays(s, n - 1); }
    assert h == Next(s, g, s.world(n - 1)) by { AtNext(s, n); }
    SaysNext(s, g, s.world(n - 1), SaidDeltas(s, n - 1), SaidMarks(s, n - 1));
    assert Says(h.events, SaidDeltas(s, n), SaidMarks(s, n));
  }

  // ----- when it stops -------------------------------------------------------

  /** Somebody cancelled while the round could still hear of it. */
  predicate SeesCancellation(r: Round) {
    || r.cancelledAtTop
    || match r.response
       case Aborts(_) => true
       case Fails(_) => false
       case Replies(_, reply) =>
         !reply.truncated && exists j :: 0 <= j < |reply.calls| && r.tools(j).cancelledBefore
  }

  lemma InterruptsIf(r: Round)
    ensures Interrupts(r) == SeesCancellation(r)
  {
  }

  /** A turn is aborted exactly by a cancellation that one of its rounds sees, and broken off by a failed request. */
  lemma EndsFor(s: Script, fuel: nat, n: nat, e: Ending)
    requires Ends(s, fuel, n, e)
    ensures e == Ended(Aborted) <==> exists k: nat :: k < n && SeesCancellation(s.world(k))
    ensures e == Failed <==> exists k: nat :: k < n && !s.world(k).cancelledAtTop && s.world(k).response.Fails?
  {
    AbortedIffCancelled(s, fuel, n, e);
    forall r: Round ensures Interrupts(r) == SeesCancellation(r) { InterruptsIf(r); }
    forall k: nat ensures Breaks(s.world(k)) == (!s.world(k).cancelledAtTop && s.world(k).response.Fails?) {}
  }

  /** The agent has nothing left to do after the round: no call, no message, and nobody pushes it on. */
  predicate NothingLeft(p: Plan, r: Round) {
    && !r.cancelledAtTop && r.response.Replies? && r.response.reply.calls == [] && r.stopPasses
    && p.steers == [] && r.steers == [] && p.followUps == [] && r.followUps == []
  }

  /** A turn that is not cut short stops after the first round that leaves nothing to do, and after no other. */
  lemma StopsWhenDone(s: Script, fuel: nat, n: nat, e: Ending, k: nat)
    requires Ends(s, fuel, n, e) && k < n
    ensures NothingLeft(At(s, k).plan, s.world(k)) && Finishes(s.world(k)) <==>
            k == n - 1 && (e == Ended(Completed) || e == Ended(Steered))
  {
    if k < n - 1 || e == StillRunning { assert GoesOn(s, k); }
  }
}
