/**
 * What a turn of the agent amounts to, as a function of everything it meets:
 * the prompt, the two queues, and a script that says what the provider, the
 * tools, cancellation and the arrival of messages do in each round.
 */
module AgentScript {
  import opened AgentHistory

  datatype QueueMode = OneAtATime | All

  /** What becomes of one request; `Aborts` and `Fails` cover the checks before it is sent as well. */
  datatype Response =
    | Replies(deltas: seq<nat>, reply: Reply)
    | Aborts(deltas: seq<nat>)
    | Fails(deltas: seq<nat>)

  /** What happens at one call: cancellation seen just before it, its progress, its result. */
  datatype ToolRun = ToolRun(cancelledBefore: bool, progress: seq<nat>, content: nat, isError: bool)

  /** What one round of the inner loop meets, and what arrived in the queues before each is drained. */
  datatype Round = Round(
    cancelledAtTop: bool, response: Response, tools: nat -> ToolRun, stopPasses: bool,
    steers: seq<nat>, followUps: seq<nat>)

  /** How a turn ended, or that it was followed no further. */
  datatype Ending = Ended(outcome: Outcome) | Failed | StillRunning

  /** Everything a turn depends on; `base`, `steers` and `followUps` are what the agent holds when it begins. */
  datatype Script = Script(
    base: seq<Message>, steers: seq<nat>, followUps: seq<nat>, mode: QueueMode,
    rewrite: nat -> nat, prompt: nat, world: nat -> Round)

  const TRUNCATED: nat := 0
  const CANCELLED: nat := 1

  function Drained(queue: seq<nat>, mode: QueueMode): (d: seq<nat>)
    ensures d <= queue && (d == [] <==> queue == [])
  {
    if mode.All? || queue == [] then queue else [queue[0]]
  }

  // ----- one round -----------------------------------------------------------

  /** Cancellation was seen before one of the first `n` calls. */
  predicate SeenBy(tools: nat -> ToolRun, n: nat) {
    exists k :: 0 <= k < n && tools(k).cancelledBefore
  }

  /** The round ends the turn as aborted: at the top, in the response or before a call that would have run. */
  predicate Interrupts(r: Round) {
    || r.cancelledAtTop
    || r.response.Aborts?
    || (r.response.Replies? && !r.response.reply.truncated && SeenBy(r.tools, |r.response.reply.calls|))
  }

  /** The round ends the turn with an error. */
  predicate Breaks(r: Round) {
    !r.cancelledAtTop && r.response.Fails?
  }

  predicate Finishes(r: Round) {
    !Interrupts(r) && !Breaks(r)
  }

  /** The model asked for nothing more and the stop gate lets it stop. */
  predicate Idle(r: Round) {
    r.response.Replies? && r.response.reply.calls == [] && r.stopPasses
  }

  function ResultFor(reply: Reply, tools: nat -> ToolRun, k: nat): (m: Message)
    requires k < |reply.calls|
    ensures m.ToolResult? && m.callId == reply.calls[k].id
  {
    if reply.truncated then ToolResult(reply.calls[k].id, TRUNCATED, true)
    else if SeenBy(tools, k + 1) then ToolResult(reply.calls[k].id, CANCELLED, true)
    else ToolResult(reply.calls[k].id, tools(k).content, tools(k).isError)
  }

  function ResultsTo(reply: Reply, tools: nat -> ToolRun, n: nat): (results: seq<Message>)
    requires n <= |reply.calls|
    ensures Answers(reply.calls[..n], results)
  {
    if n == 0 then [] else ResultsTo(reply, tools, n - 1) + [ResultFor(reply, tools, n - 1)]
  }

  /** What a round adds to the history after its inputs. */
  function Output(r: Round): seq<Message> {
    if r.cancelledAtTop || !r.response.Replies? then []
    else [Assistant(r.response.reply)] + ResultsTo(r.response.reply, r.tools, |r.response.reply.calls|)
  }

  function Deltas(deltas: seq<nat>): seq<Event> {
    seq(|deltas|, i requires 0 <= i < |deltas| => MessageDelta(deltas[i]))
  }

  function Progress(id: nat, progress: seq<nat>): seq<Event> {
    seq(|progress|, i requires 0 <= i < |progress| => ToolProgress(id, progress[i]))
  }

  /** Refused calls report no progress. */
  function ProgressOf(reply: Reply, tools: nat -> ToolRun, k: nat): seq<nat>
    requires k < |reply.calls|
  {
    if reply.truncated || SeenBy(tools, k + 1) then [] else tools(k).progress
  }

  function CallEvents(id: nat, progress: seq<nat>, result: Message): seq<Event> {
    [ToolStarted(id)] + Progress(id, progress) + [ToolCompleted(result), MessageAdded(result)]
  }

  function CallsTo(reply: Reply, tools: nat -> ToolRun, n: nat): seq<Event>
    requires n <= |reply.calls|
  {
    if n == 0 then []
    else
      CallsTo(reply, tools, n - 1)
      + CallEvents(reply.calls[n - 1].id, ProgressOf(reply, tools, n - 1), ResultFor(reply, tools, n - 1))
  }

  /** What a round emits after its inputs. */
  function RoundEvents(r: Round): seq<Event> {
    if r.cancelledAtTop then []
    else match r.response
      case Replies(deltas, reply) =>
        Deltas(deltas) + [MessageAdded(Assistant(reply))] + CallsTo(reply, r.tools, |reply.calls|)
      case Aborts(deltas) => Deltas(deltas)
      case Fails(deltas) => Deltas(deltas) + [ErrorRaised]
  }

  // ----- the rounds of a turn ------------------------------------------------

  /** The queues, and what was drained from them for the next round. */
  datatype Plan = Plan(steers: seq<nat>, followUps: seq<nat>, pending: seq<Input>)

  function Start(s: Script): Plan {
    var d := Drained(s.steers, s.mode);
    Plan(s.steers[|d|..], s.followUps, Tagged(d, Steering))
  }

  /** After a round, steering comes first; follow-ups only when the agent would stop. */
  function After(mode: QueueMode, p: Plan, r: Round): Plan {
    var queue := p.steers + r.steers;
    if queue == [] && Idle(r) then
      var later := p.followUps + r.followUps;
      var d := Drained(later, mode);
      Plan([], later[|d|..], Tagged(d, FollowUp))
    else
      var d := Drained(queue, mode);
      Plan(queue[|d|..], p.followUps, Tagged(d, Steering))
  }

  /** Follow-ups are drained after a round that finished like this. */
  predicate Quiet(p: Plan, r: Round) {
    Idle(r) && p.steers + r.steers == []
  }

  /** The follow-ups that came before the drain after a round, if it is drained then. */
  function Later(p: Plan, r: Round): seq<nat> {
    if Quiet(p, r) then r.followUps else []
  }

  /** Nothing is left to do after the round. */
  predicate Stops(p: Plan, r: Round) {
    Finishes(r) && Quiet(p, r) && p.followUps + r.followUps == []
  }

  /**
   * Between two rounds: the plan, what arrived in each queue up to its last drain, the inputs that
   * entered the history, and all the turn added, requested and emitted.
   */
  datatype Stage = Stage(
    plan: Plan, steersCame: seq<nat>, followUpsCame: seq<nat>, injected: seq<Input>,
    history: seq<Message>, requests: seq<seq<Message>>, events: seq<Event>)

  function Texts(inputs: seq<Input>): seq<nat> {
    seq<nat>(|inputs|, i requires 0 <= i < |inputs| => inputs[i].text)
  }

  function Users(rewrite: nat -> nat, inputs: seq<Input>): (h: seq<Message>)
    ensures |h| == |inputs|
  {
    seq<Message>(|inputs|, i requires 0 <= i < |inputs| => User(rewrite(inputs[i].text)))
  }

  function Announce(h: seq<Message>): seq<Event> {
    seq(|h|, i requires 0 <= i < |h| => MessageAdded(h[i]))
  }

  /** The prompt and everything drained so far, in that order. */
  function Taken(g: Stage): seq<Input> {
    g.injected + g.plan.pending
  }

  /** What the turn added by the time it asks the provider again. */
  function Asked(s: Script, g: Stage): seq<Message> {
    g.history + Users(s.rewrite, g.plan.pending)
  }

  /** The request of a round, unless the turn was cancelled before it. */
  function RequestOf(s: Script, g: Stage, r: Round): seq<seq<Message>> {
    if r.cancelledAtTop then [] else [s.base + Asked(s, g)]
  }

  function First(s: Script): Stage {
    Stage(Start(s), s.steers, s.followUps, [Input(Prompt, s.prompt)], [User(s.rewrite(s.prompt))], [],
          [MessageAdded(User(s.rewrite(s.prompt)))])
  }

  function Next(s: Script, g: Stage, r: Round): Stage {
    Stage(After(s.mode, g.plan, r), g.steersCame + r.steers, g.followUpsCame + Later(g.plan, r),
          Taken(g), Asked(s, g) + Output(r), g.requests + RequestOf(s, g, r),
          g.events + Announce(Users(s.rewrite, g.plan.pending)) + RoundEvents(r))
  }

  /** Stage `k` follows from the one before. */
  ghost predicate Follows(s: Script, stages: seq<Stage>, k: nat)
    requires 0 < k < |stages|
  {
    stages[k] == Next(s, stages[k - 1], s.world(k - 1))
  }

  ghost predicate AreStages(s: Script, stages: seq<Stage>) {
    && stages != [] && stages[0] == First(s)
    && forall k {:trigger Follows(s, stages, k)} :: 0 < k < |stages| ==> Follows(s, stages, k)
  }

  lemma OneMoreStage(s: Script, stages: seq<Stage>, more: seq<Stage>)
    requires AreStages(s, stages) && |more| == |stages| + 1 && more[..|stages|] == stages
    requires Follows(s, more, |stages|)
    ensures AreStages(s, more)
  {
    assert more[0] == stages[0];
    forall k | 0 < k < |stages| ensures Follows(s, more, k) {
      assert Follows(s, stages, k);
      assert more[k] == stages[k] && more[k - 1] == stages[k - 1];
    }
  }

  lemma {:induction false} StagesExist(s: Script, n: nat)
    ensures exists stages :: AreStages(s, stages) && |stages| == n + 1
  {
    if n == 0 {
      assert AreStages(s, [First(s)]);
    } else {
      StagesExist(s, n - 1);
      var stages :| AreStages(s, stages) && |stages| == n;
      OneMoreStage(s, stages, stages + [Next(s, stages[n - 1], s.world(n - 1))]);
    }
  }

  lemma {:induction false} StagesAgree(s: Script, a: seq<Stage>, b: seq<Stage>, k: nat)
    requires AreStages(s, a) && AreStages(s, b) && k < |a| && k < |b|
    ensures a[k] == b[k]
  {
    if k > 0 {
      StagesAgree(s, a, b, k - 1);
      assert Follows(s, a, k) && Follows(s, b, k);
    }
  }

  /** The turn after `n` rounds: the last of its first `n + 1` stages. */
  ghost function At(s: Script, n: nat): Stage {
    StagesExist(s, n);
    var stages :| AreStages(s, stages) && |stages| == n + 1;
    stages[n]
  }

  lemma AtFirst(s: Script)
    ensures At(s, 0) == First(s)
  {
    StagesExist(s, 0);
  }

  lemma AtNext(s: Script, n: nat)
    requires n > 0
    ensures At(s, n) == Next(s, At(s, n - 1), s.world(n - 1))
  {
    StagesExist(s, n - 1);
    StagesExist(s, n);
    var a :| AreStages(s, a) && |a| == n && At(s, n - 1) == a[n - 1];
    var b :| AreStages(s, b) && |b| == n + 1 && At(s, n) == b[n];
    StagesAgree(s, a, b, n - 1);
    assert Follows(s, b, n);
  }

  /** Round `k` leads to another. */
  ghost predicate GoesOn(s: Script, k: nat) {
    Finishes(s.world(k)) && !Stops(At(s, k).plan, s.world(k))
  }

  ghost predicate Runs(s: Script, n: nat) {
    forall k: nat :: k < n ==> GoesOn(s, k)
  }

  lemma OneMoreRuns(s: Script, n: nat)
    requires n > 0 && Runs(s, n - 1) && GoesOn(s, n - 1)
    ensures Runs(s, n)
  {
    forall k: nat | k < n ensures GoesOn(s, k) {
      if k != n - 1 { assert k < n - 1; }
    }
  }

  /** Followed for at most `fuel` rounds, the turn enters `rounds` of them and ends like this. */
  ghost predicate Ends(s: Script, fuel: nat, rounds: nat, ending: Ending) {
    if ending == StillRunning then rounds == fuel && Runs(s, rounds)
    else 0 < rounds <= fuel && Runs(s, rounds - 1) && EndsWith(At(s, rounds - 1), s.world(rounds - 1), ending)
  }

  /** How a turn ends whose last round starts from `g`. */
  predicate EndsWith(g: Stage, r: Round, ending: Ending) {
    match ending
    case StillRunning => false
    case Failed => Breaks(r)
    case Ended(Aborted) => Interrupts(r)
    case Ended(outcome) => Stops(g.plan, r) && (outcome == Steered <==> From(Taken(g), Steering) != [])
  }

  /** The rounds whose queues were drained: an aborted or failed round gets no further than its calls. */
  function Settled(rounds: nat, ending: Ending): nat
    requires ending == Failed || ending == Ended(Aborted) ==> rounds > 0
  {
    if ending == Failed || ending == Ended(Aborted) then rounds - 1 else rounds
  }

  /** The closing bracket; a turn that is still running has none yet. */
  function TurnEnd(ending: Ending): seq<Event> {
    match ending
    case StillRunning => []
    case Failed => [TurnEnded(Aborted)]
    case Ended(outcome) => [TurnEnded(outcome)]
  }

  /** The events of a whole turn. */
  function TurnEvents(g: Stage, ending: Ending): seq<Event> {
    [TurnStarted] + g.events + TurnEnd(ending)
  }

  // ----- how it ends ---------------------------------------------------------

  lemma NotBefore(s: Script, fuel: nat, n: nat, e: Ending, m: nat, f: Ending)
    requires Ends(s, fuel, n, e) && Ends(s, fuel, m, f) && f != StillRunning
    ensures n < m || (n == m && e != StillRunning)
  {
    assert !GoesOn(s, m - 1);
  }

  lemma OneWay(g: Stage, r: Round, e: Ending, f: Ending)
    requires EndsWith(g, r, e) && EndsWith(g, r, f)
    ensures e == f
  {
  }

  lemma SameRounds(s: Script, fuel: nat, n: nat, e: Ending, m: nat, f: Ending)
    requires Ends(s, fuel, n, e) && Ends(s, fuel, m, f) && f != StillRunning
    ensures n == m && e != StillRunning
  {
    NotBefore(s, fuel, n, e, m, f);
    if e != StillRunning { NotBefore(s, fuel, m, f, n, e); }
  }

  /** The script decides how many rounds there are and how the turn ends. */
  lemma OneEnding(s: Script, fuel: nat, n: nat, e: Ending, m: nat, f: Ending)
    requires Ends(s, fuel, n, e) && Ends(s, fuel, m, f)
    ensures n == m && e == f
  {
    if f != StillRunning {
      SameRounds(s, fuel, n, e, m, f);
      OneWay(At(s, n - 1), s.world(n - 1), e, f);
    } else if e != StillRunning {
      SameRounds(s, fuel, m, f, n, e);
    }
  }

  lemma CutShort(s: Script, fuel: nat, n: nat, e: Ending, k: nat)
    requires Ends(s, fuel, n, e) && k < n && (Interrupts(s.world(k)) || Breaks(s.world(k)))
    ensures k == n - 1 && (e == Failed || e == Ended(Aborted))
  {
    assert !GoesOn(s, k);
  }

  /** Aborted exactly when cancellation is seen in a round entered, an error exactly when a request fails in one. */
  lemma AbortedIffCancelled(s: Script, fuel: nat, n: nat, e: Ending)
    requires Ends(s, fuel, n, e)
    ensures e == Ended(Aborted) <==> exists k: nat :: k < n && Interrupts(s.world(k))
    ensures e == Failed <==> exists k: nat :: k < n && Breaks(s.world(k))
  {
    if k: nat :| k < n && Interrupts(s.world(k)) { CutShort(s, fuel, n, e, k); }
    if k: nat :| k < n && Breaks(s.world(k)) { CutShort(s, fuel, n, e, k); }
  }

  // ----- the queues ----------------------------------------------------------

  /** Everything that arrived was drained in order or still waits. */
  predicate Kept(inputs: seq<Input>, o: Origin, queue: seq<nat>, arrived: seq<nat>) {
    From(inputs, o) + queue == arrived
  }

  lemma Moves(inputs: seq<Input>, queue: seq<nat>, arrived: seq<nat>, d: seq<nat>, o: Origin)
    requires Kept(inputs, o, queue, arrived) && d <= queue
    ensures Kept(inputs + Tagged(d, o), o, queue[|d|..], arrived)
  {
    MoreInputs(inputs, d, o, o);
    assert queue == d + queue[|d|..];
  }

  lemma Stays(inputs: seq<Input>, queue: seq<nat>, arrived: seq<nat>, d: seq<nat>, o: Origin, other: Origin)
    requires Kept(inputs, o, queue, arrived) && other != o
    ensures Kept(inputs + Tagged(d, other), o, queue, arrived)
  {
    MoreInputs(inputs, d, o, other);
  }

  lemma Arrives(inputs: seq<Input>, o: Origin, queue: seq<nat>, arrived: seq<nat>, more: seq<nat>)
    requires Kept(inputs, o, queue, arrived)
    ensures Kept(inputs, o, queue + more, arrived + more)
  {
    assert From(inputs, o) + (queue + more) == (From(inputs, o) + queue) + more;
  }

  lemma AfterMoves(mode: QueueMode, inputs: seq<Input>, p: Plan, r: Round, a: seq<nat>, b: seq<nat>)
    requires Kept(inputs, Steering, p.steers, a) && Kept(inputs, FollowUp, p.followUps, b)
    ensures var q := After(mode, p, r);
      && Kept(inputs + q.pending, Steering, q.steers, a + r.steers)
      && Kept(inputs + q.pending, FollowUp, q.followUps, b + Later(p, r))
  {
    var queue := p.steers + r.steers;
    Arrives(inputs, Steering, p.steers, a, r.steers);
    if queue == [] && Idle(r) {
      var later := p.followUps + r.followUps;
      Arrives(inputs, FollowUp, p.followUps, b, r.followUps);
      Moves(inputs, later, b + r.followUps, Drained(later, mode), FollowUp);
      Stays(inputs, queue, a + r.steers, Drained(later, mode), Steering, FollowUp);
    } else {
      Moves(inputs, queue, a + r.steers, Drained(queue, mode), Steering);
      Stays(inputs, p.followUps, b, Drained(queue, mode), FollowUp, Steering);
      assert b + Later(p, r) == b;
    }
  }

  /** Every message that came was taken exactly once, in order, or still waits in its queue. */
  predicate Fifo(g: Stage) {
    && Kept(Taken(g), Steering, g.plan.steers, g.steersCame)
    && Kept(Taken(g), FollowUp, g.plan.followUps, g.followUpsCame)
  }

  lemma StartMoves(s: Script)
    ensures Fifo(First(s))
  {
    var inputs := [Input(Prompt, s.prompt)];
    OneMoreInput([], inputs[0], Steering);
    OneMoreInput([], inputs[0], FollowUp);
    assert [] + [inputs[0]] == inputs;
    Moves(inputs, s.steers, s.steers, Drained(s.steers, s.mode), Steering);
    Stays(inputs, s.followUps, s.followUps, Drained(s.steers, s.mode), FollowUp, Steering);
  }

  lemma FifoNext(s: Script, g: Stage, r: Round)
    requires Fifo(g)
    ensures Fifo(Next(s, g, r))
  {
    AfterMoves(s.mode, Taken(g), g.plan, r, g.steersCame, g.followUpsCame);
  }

  lemma {:induction false} QueuesAreFifo(s: Script, n: nat)
    ensures Fifo(At(s, n))
    decreases n, 1
  {
    if n == 0 {
      AtFirst(s);
      StartMoves(s);
    } else {
      FifoAfter(s, n);
    }
  }

  lemma {:induction false} FifoAfter(s: Script, n: nat)
    requires n > 0
    ensures Fifo(At(s, n))
    decreases n, 0
  {
    var g, h := At(s, n - 1), At(s, n);
    assert Fifo(g) by { QueuesAreFifo(s, n - 1); }
    assert h == Next(s, g, s.world(n - 1)) by { AtNext(s, n); }
    FifoNext(s, g, s.world(n - 1));
    assert Fifo(h);
  }

  /** The steers of the script, up to the drain of round `n - 1`, after those that were queued before. */
  function SteersOf(s: Script, n: nat): seq<nat> {
    if n == 0 then s.steers else SteersOf(s, n - 1) + s.world(n - 1).steers
  }

  /** Likewise the follow-ups, of the rounds after which their queue is drained. */
  ghost function FollowUpsOf(s: Script, n: nat): seq<nat> {
    if n == 0 then s.followUps else FollowUpsOf(s, n - 1) + Later(At(s, n - 1).plan, s.world(n - 1))
  }

  predicate HasCome(g: Stage, steers: seq<nat>, followUps: seq<nat>) {
    g.steersCame == steers && g.followUpsCame == followUps
  }

  lemma {:induction false} WhatCame(s: Script, n: nat)
    ensures HasCome(At(s, n), SteersOf(s, n), FollowUpsOf(s, n))
    decreases n, 1
  {
    if n == 0 { AtFirst(s); } else { OneMoreCame(s, n); }
  }

  lemma {:induction false} OneMoreCame(s: Script, n: nat)
    requires n > 0
    ensures HasCome(At(s, n), SteersOf(s, n), FollowUpsOf(s, n))
    decreases n, 0
  {
    var g, h := At(s, n - 1), At(s, n);
    assert HasCome(g, SteersOf(s, n - 1), FollowUpsOf(s, n - 1)) by { WhatCame(s, n - 1); }
    assert h == Next(s, g, s.world(n - 1)) by { AtNext(s, n); }
    assert HasCome(h, SteersOf(s, n), FollowUpsOf(s, n));
  }

  /** What a turn injected by its end, against what the queues hold at `p` and what came up to there. */
  predicate Delivered(injected: seq<Input>, g: Stage) {
    && Kept(injected, Steering, g.plan.steers, g.steersCame)
    && Kept(injected, FollowUp, g.plan.followUps, g.followUpsCame)
  }

  /** After a round with nothing left to do, all that was drained is in the history. */
  lemma NothingWaits(s: Script, g: Stage, r: Round)
    requires Stops(g.plan, r)
    ensures Next(s, g, r).plan == Plan([], [], []) && Taken(Next(s, g, r)) == Next(s, g, r).injected
  {
  }

  lemma EndedQueues(s: Script, fuel: nat, n: nat, e: Ending)
    requires Ends(s, fuel, n, e) && e != StillRunning
    ensures Delivered(At(s, n).injected, At(s, Settled(n, e)))
  {
    QueuesAreFifo(s, Settled(n, e));
    AtNext(s, n);
    if Settled(n, e) == n {
      NothingWaits(s, At(s, n - 1), s.world(n - 1));
    }
  }

  lemma AllDrained(s: Script, g: Stage, r: Round)
    requires Stops(g.plan, r) && Delivered(Next(s, g, r).injected, Next(s, g, r))
    ensures var h := Next(s, g, r);
      From(h.injected, Steering) == h.steersCame && From(h.injected, FollowUp) == h.followUpsCame
  {
    NothingWaits(s, g, r);
    var inputs := Next(s, g, r).injected;
    assert From(inputs, Steering) + [] == From(inputs, Steering);
    assert From(inputs, FollowUp) + [] == From(inputs, FollowUp);
  }

  /** A turn that was not cut short leaves both queues empty, and it was steered exactly when a steer ever came. */
  lemma SteeredIffSteersCame(s: Script, fuel: nat, n: nat, e: Ending)
    requires Ends(s, fuel, n, e) && (e == Ended(Completed) || e == Ended(Steered))
    ensures At(s, n).plan == Plan([], [], [])
    ensures From(At(s, n).injected, Steering) == At(s, n).steersCame
    ensures From(At(s, n).injected, FollowUp) == At(s, n).followUpsCame
    ensures e == Ended(Steered) <==> At(s, n).steersCame != []
  {
    EndedQueues(s, fuel, n, e);
    AtNext(s, n);
    NothingWaits(s, At(s, n - 1), s.world(n - 1));
    AllDrained(s, At(s, n - 1), s.world(n - 1));
  }

  /** A follow-up enters only after a response without calls whose steering drain was empty. */
  lemma FollowUpsWait(s: Script, n: nat, i: nat)
    requires i < |At(s, n).plan.pending| && At(s, n).plan.pending[i].origin == FollowUp
    ensures n > 0 && s.world(n - 1).response.Replies? && s.world(n - 1).response.reply.calls == []
    ensures At(s, n - 1).plan.steers == [] && s.world(n - 1).steers == []
  {
    if n == 0 { AtFirst(s); } else { AtNext(s, n); }
  }

  // ----- the history ---------------------------------------------------------

  lemma {:induction false} DisciplinedInputs(h: seq<Message>, rewrite: nat -> nat, inputs: seq<Input>)
    requires Disciplined(h)
    ensures Disciplined(h + Users(rewrite, inputs))
    decreases |inputs|
  {
    if inputs == [] {
      assert h + Users(rewrite, inputs) == h;
    } else {
      var front, x := inputs[..|inputs| - 1], inputs[|inputs| - 1];
      DisciplinedInputs(h, rewrite, front);
      DisciplinedInput(h + Users(rewrite, front), rewrite(x.text));
      assert h + Users(rewrite, inputs) == (h + Users(rewrite, front)) + [User(rewrite(x.text))];
    }
  }

  lemma DisciplinedOutput(h: seq<Message>, r: Round)
    requires Disciplined(h)
    ensures Disciplined(h + Output(r))
  {
    if Output(r) == [] {
      assert h + Output(r) == h;
    } else {
      var reply := r.response.reply;
      var results := ResultsTo(reply, r.tools, |reply.calls|);
      assert reply.calls[..|reply.calls|] == reply.calls;
      DisciplinedReply(h, reply, results);
      assert h + Output(r) == h + [Assistant(reply)] + results;
    }
  }

  /** Every request shows the model a history in which each call is answered. */
  predicate RequestsOk(base: seq<Message>, requests: seq<seq<Message>>) {
    forall r :: r in requests ==> base <= r && Disciplined(r[|base|..])
  }

  lemma RequestsAppend(base: seq<Message>, a: seq<seq<Message>>, b: seq<seq<Message>>)
    requires RequestsOk(base, a) && RequestsOk(base, b)
    ensures RequestsOk(base, a + b)
  {
  }

  lemma OneRequest(s: Script, g: Stage, r: Round)
    requires Disciplined(Asked(s, g))
    ensures RequestsOk(s.base, RequestOf(s, g, r))
  {
    assert (s.base + Asked(s, g))[|s.base|..] == Asked(s, g);
  }

  lemma DisciplinedNext(s: Script, g: Stage, r: Round)
    requires Disciplined(g.history) && RequestsOk(s.base, g.requests)
    ensures Disciplined(Next(s, g, r).history) && RequestsOk(s.base, Next(s, g, r).requests)
  {
    DisciplinedInputs(g.history, s.rewrite, g.plan.pending);
    DisciplinedOutput(Asked(s, g), r);
    OneRequest(s, g, r);
    RequestsAppend(s.base, g.requests, RequestOf(s, g, r));
  }

  /** At every request and after every round, each call of each reply is answered at once and in order. */
  lemma {:induction false} AlwaysDisciplined(s: Script, n: nat)
    ensures Disciplined(At(s, n).history) && RequestsOk(s.base, At(s, n).requests)
  {
    if n == 0 {
      AtFirst(s);
      DisciplinedInput([], s.rewrite(s.prompt));
      assert [] + [User(s.rewrite(s.prompt))] == First(s).history;
    } else {
      AtNext(s, n);
      AlwaysDisciplined(s, n - 1);
      DisciplinedNext(s, At(s, n - 1), s.world(n - 1));
    }
  }

  function Rewritten(rewrite: nat -> nat, inputs: seq<Input>): (texts: seq<nat>)
    ensures |texts| == |inputs|
  {
    seq<nat>(|inputs|, i requires 0 <= i < |inputs| => rewrite(inputs[i].text))
  }

  lemma {:induction false} InputsOfUsers(h: seq<Message>, rewrite: nat -> nat, inputs: seq<Input>)
    ensures Inputs(h + Users(rewrite, inputs)) == Inputs(h) + Rewritten(rewrite, inputs)
    ensures Results(h + Users(rewrite, inputs)) == Results(h)
    decreases |inputs|
  {
    if inputs == [] {
      assert h + Users(rewrite, inputs) == h;
    } else {
      var front, x := inputs[..|inputs| - 1], inputs[|inputs| - 1];
      InputsOfUsers(h, rewrite, front);
      OneMoreUser(h, rewrite, front, x, inputs);
    }
  }

  lemma OneMoreUser(h: seq<Message>, rewrite: nat -> nat, front: seq<Input>, x: Input, inputs: seq<Input>)
    requires inputs == front + [x]
    ensures Inputs(h + Users(rewrite, inputs)) == Inputs(h + Users(rewrite, front)) + [rewrite(x.text)]
    ensures Results(h + Users(rewrite, inputs)) == Results(h + Users(rewrite, front))
    ensures Rewritten(rewrite, inputs) == Rewritten(rewrite, front) + [rewrite(x.text)]
  {
    var before := h + Users(rewrite, front);
    OneMoreMessage(before, User(rewrite(x.text)));
    assert h + Users(rewrite, inputs) == before + [User(rewrite(x.text))];
  }

  lemma OneMoreOf(h: seq<Message>, front: seq<Message>, x: Message, results: seq<Message>)
    requires x.ToolResult? && results == front + [x]
    ensures Inputs(h + results) == Inputs(h + front) && Results(h + results) == Results(h + front) + [x]
  {
    OneMoreMessage(h + front, x);
    assert h + results == (h + front) + [x];
  }

  lemma {:induction false} InputsOfResults(h: seq<Message>, results: seq<Message>)
    requires forall i :: 0 <= i < |results| ==> results[i].ToolResult?
    ensures Inputs(h + results) == Inputs(h) && Results(h + results) == Results(h) + results
    decreases |results|
  {
    if results == [] {
      assert h + results == h;
    } else {
      var front, x := results[..|results| - 1], results[|results| - 1];
      assert results == front + [x];
      InputsOfResults(h, front);
      OneMoreOf(h, front, x, results);
      Regroup(Results(h), front, [x], []);
    }
  }

  /** The results among what a round adds. */
  function OutputResults(r: Round): seq<Message> {
    if r.cancelledAtTop || !r.response.Replies? then []
    else ResultsTo(r.response.reply, r.tools, |r.response.reply.calls|)
  }

  lemma InputsOfReply(h: seq<Message>, reply: Reply, results: seq<Message>)
    requires forall i :: 0 <= i < |results| ==> results[i].ToolResult?
    ensures Inputs(h + ([Assistant(reply)] + results)) == Inputs(h)
    ensures Results(h + ([Assistant(reply)] + results)) == Results(h) + results
  {
    OneMoreMessage(h, Assistant(reply));
    InputsOfResults(h + [Assistant(reply)], results);
    assert h + ([Assistant(reply)] + results) == h + [Assistant(reply)] + results;
  }

  lemma InputsOfOutput(h: seq<Message>, r: Round)
    ensures Inputs(h + Output(r)) == Inputs(h) && Results(h + Output(r)) == Results(h) + OutputResults(r)
  {
    if Output(r) == [] {
      assert h + [] == h && Results(h) + [] == Results(h);
    } else {
      InputsOfReply(h, r.response.reply, OutputResults(r));
    }
  }

  lemma RewrittenConcat(rewrite: nat -> nat, a: seq<Input>, b: seq<Input>)
    ensures Rewritten(rewrite, a + b) == Rewritten(rewrite, a) + Rewritten(rewrite, b)
  {
  }

  lemma InputsOfRound(h: seq<Message>, rewrite: nat -> nat, before: seq<Input>, pending: seq<Input>, r: Round)
    requires Inputs(h) == Rewritten(rewrite, before)
    ensures Inputs(h + Users(rewrite, pending) + Output(r)) == Rewritten(rewrite, before + pending)
  {
    InputsOfUsers(h, rewrite, pending);
    InputsOfOutput(h + Users(rewrite, pending), r);
    RewrittenConcat(rewrite, before, pending);
  }

  /** The user messages of the history are the inputs injected, rewritten, each once and in that order. */
  predicate Entered(s: Script, g: Stage) {
    Inputs(g.history) == Rewritten(s.rewrite, g.injected)
  }

  lemma PromptEnters(s: Script)
    ensures Entered(s, First(s))
  {
    OneMoreMessage([], User(s.rewrite(s.prompt)));
    assert [] + [User(s.rewrite(s.prompt))] == First(s).history;
  }

  lemma RoundEnters(s: Script, g: Stage, r: Round)
    requires Entered(s, g)
    ensures Entered(s, Next(s, g, r))
  {
    InputsOfRound(g.history, s.rewrite, g.injected, g.plan.pending, r);
  }

  lemma {:induction false} InputsEnterOnce(s: Script, n: nat)
    ensures Entered(s, At(s, n))
  {
    if n == 0 {
      AtFirst(s);
      PromptEnters(s);
    } else {
      AtNext(s, n);
      InputsEnterOnce(s, n - 1);
      RoundEnters(s, At(s, n - 1), s.world(n - 1));
    }
  }

  /** What the first `n` rounds of the script make: each reply, with one result for each of its calls. */
  function Outputs(s: Script, n: nat): seq<Message> {
    if n == 0 then [] else Outputs(s, n - 1) + Output(s.world(n - 1))
  }

  predicate HasMade(g: Stage, made: seq<Message>) { Made(g.history) == made }

  lemma MadeFirst(s: Script)
    ensures HasMade(First(s), [])
  {
    MoreMade([], First(s).history, true);
    assert [] + First(s).history == First(s).history;
  }

  lemma MadeNext(s: Script, g: Stage, r: Round, made: seq<Message>)
    requires HasMade(g, made)
    ensures HasMade(Next(s, g, r), made + Output(r))
  {
    MoreMade(g.history, Users(s.rewrite, g.plan.pending), true);
    MoreMade(Asked(s, g), Output(r), false);
  }

  /** Besides the user messages the history holds exactly what the rounds entered make, in their order. */
  lemma {:induction false} OutputsAreTheScripts(s: Script, n: nat)
    ensures HasMade(At(s, n), Outputs(s, n))
    decreases n, 1
  {
    if n == 0 {
      AtFirst(s);
      MadeFirst(s);
    } else {
      OneMoreOutput(s, n);
    }
  }

  lemma {:induction false} OneMoreOutput(s: Script, n: nat)
    requires n > 0
    ensures HasMade(At(s, n), Outputs(s, n))
    decreases n, 0
  {
    var g, h := At(s, n - 1), At(s, n);
    assert HasMade(g, Outputs(s, n - 1)) by { OutputsAreTheScripts(s, n - 1); }
    assert h == Next(s, g, s.world(n - 1)) by { AtNext(s, n); }
    MadeNext(s, g, s.world(n - 1), Outputs(s, n - 1));
    assert HasMade(h, Outputs(s, n));
  }

  // ----- the events ----------------------------------------------------------

  /** Events that say nothing of the history, the results, the errors or the brackets. */
  predicate Chatter(e: Event) { e.MessageDelta? || e.ToolStarted? || e.ToolProgress? }

  /** `events` tells a history `h` with this many errors, and contains no bracket. */
  predicate Tells(events: seq<Event>, h: seq<Message>, errors: nat) {
    && Announced(events) == h && Completions(events) == Results(h) && Errors(events) == errors
    && forall i :: 0 <= i < |events| ==> !IsBracket(events[i])
  }

  lemma {:induction false} TellsChatter(events: seq<Event>, h: seq<Message>, errors: nat, more: seq<Event>)
    requires Tells(events, h, errors) && forall i :: 0 <= i < |more| ==> Chatter(more[i])
    ensures Tells(events + more, h, errors)
    decreases |more|
  {
    if more == [] {
      assert events + more == events;
    } else {
      var front, x := more[..|more| - 1], more[|more| - 1];
      TellsChatter(events, h, errors, front);
      OneMoreEvent(events + front, x);
      assert events + more == (events + front) + [x];
    }
  }

  lemma TellsMessage(events: seq<Event>, h: seq<Message>, errors: nat, m: Message)
    requires Tells(events, h, errors) && !m.ToolResult?
    ensures Tells(events + [MessageAdded(m)], h + [m], errors)
  {
    OneMoreEvent(events, MessageAdded(m));
    OneMoreMessage(h, m);
  }

  lemma TellsResult(events: seq<Event>, h: seq<Message>, errors: nat, m: Message)
    requires Tells(events, h, errors) && m.ToolResult?
    ensures Tells(events + [ToolCompleted(m)] + [MessageAdded(m)], h + [m], errors)
  {
    OneMoreResult(events, m);
    OneMoreMessage(h, m);
  }

  lemma TellsCall(events: seq<Event>, h: seq<Message>, errors: nat, id: nat, progress: seq<nat>, m: Message)
    requires Tells(events, h, errors) && m.ToolResult?
    ensures Tells(events + CallEvents(id, progress, m), h + [m], errors)
  {
    var started := [ToolStarted(id)] + Progress(id, progress);
    TellsChatter(events, h, errors, started);
    TellsResult(events + started, h, errors, m);
    Regroup(events, started, [ToolCompleted(m)], [MessageAdded(m)]);
    assert started + [ToolCompleted(m)] + [MessageAdded(m)] == CallEvents(id, progress, m);
  }

  lemma Regroup<T>(a: seq<T>, b: seq<T>, c: seq<T>, d: seq<T>)
    ensures a + b + c + d == a + (b + c + d) && a + b + c == a + (b + c)
  {
  }

  lemma {:induction false} TellsUsers(
    events: seq<Event>, h: seq<Message>, errors: nat, rewrite: nat -> nat, inputs: seq<Input>)
    requires Tells(events, h, errors)
    ensures Tells(events + Announce(Users(rewrite, inputs)), h + Users(rewrite, inputs), errors)
    decreases |inputs|
  {
    var users := Users(rewrite, inputs);
    if inputs == [] {
      assert events + Announce(users) == events && h + users == h;
    } else {
      var front, x := inputs[..|inputs| - 1], inputs[|inputs| - 1];
      TellsUsers(events, h, errors, rewrite, front);
      UsersGrow(events, h, rewrite, front, x, inputs);
      TellsMessage(events + Announce(Users(rewrite, front)), h + Users(rewrite, front), errors, User(rewrite(x.text)));
    }
  }

  lemma UsersGrow(
    events: seq<Event>, h: seq<Message>, rewrite: nat -> nat, front: seq<Input>, x: Input, inputs: seq<Input>)
    requires inputs == front + [x]
    ensures h + Users(rewrite, inputs) == h + Users(rewrite, front) + [User(rewrite(x.text))]
    ensures events + Announce(Users(rewrite, inputs)) ==
            events + Announce(Users(rewrite, front)) + [MessageAdded(User(rewrite(x.text)))]
  {
  }

  lemma {:induction false} TellsCalls(
    events: seq<Event>, h: seq<Message>, errors: nat, reply: Reply, tools: nat -> ToolRun, n: nat)
    requires Tells(events, h, errors) && n <= |reply.calls|
    ensures Tells(events + CallsTo(reply, tools, n), h + ResultsTo(reply, tools, n), errors)
    decreases n
  {
    var more, added := CallsTo(reply, tools, n), ResultsTo(reply, tools, n);
    if n == 0 {
      assert events + more == events && h + added == h;
    } else {
      var before, results := CallsTo(reply, tools, n - 1), ResultsTo(reply, tools, n - 1);
      var id, progress := reply.calls[n - 1].id, ProgressOf(reply, tools, n - 1);
      var m := ResultFor(reply, tools, n - 1);
      TellsCalls(events, h, errors, reply, tools, n - 1);
      TellsCall(events + before, h + results, errors, id, progress, m);
      assert more == before + CallEvents(id, progress, m) && added == results + [m];
      Regroup(events, before, CallEvents(id, progress, m), []);
      Regroup(h, results, [m], []);
    }
  }

  lemma TellsReply(events: seq<Event>, h: seq<Message>, errors: nat, r: Round)
    requires Tells(events, h, errors) && !r.cancelledAtTop && r.response.Replies?
    ensures Tells(events + RoundEvents(r), h + Output(r), errors)
  {
    var deltas, reply := Deltas(r.response.deltas), r.response.reply;
    var n := |reply.calls|;
    var said, added := [MessageAdded(Assistant(reply))], [Assistant(reply)];
    TellsChatter(events, h, errors, deltas);
    TellsMessage(events + deltas, h, errors, Assistant(reply));
    TellsCalls(events + deltas + said, h + added, errors, reply, r.tools, n);
    assert RoundEvents(r) == deltas + said + CallsTo(reply, r.tools, n);
    assert Output(r) == added + ResultsTo(reply, r.tools, n);
    Regroup(events, deltas, said, CallsTo(reply, r.tools, n));
    Regroup(h, added, ResultsTo(reply, r.tools, n), []);
  }

  lemma TellsRound(events: seq<Event>, h: seq<Message>, r: Round)
    requires Tells(events, h, 0)
    ensures Tells(events + RoundEvents(r), h + Output(r), if Breaks(r) then 1 else 0)
  {
    if !r.cancelledAtTop && r.response.Replies? {
      TellsReply(events, h, 0, r);
    } else {
      assert h + Output(r) == h;
      if r.cancelledAtTop {
        assert events + RoundEvents(r) == events;
      } else {
        TellsChatter(events, h, 0, Deltas(r.response.deltas));
        if r.response.Fails? {
          OneMoreEvent(events + Deltas(r.response.deltas), ErrorRaised);
          assert events + RoundEvents(r) == events + Deltas(r.response.deltas) + [ErrorRaised];
        }
      }
    }
  }

  lemma TellsNext(s: Script, g: Stage, r: Round)
    requires Tells(g.events, g.history, 0)
    ensures Tells(Next(s, g, r).events, Next(s, g, r).history, if Breaks(r) then 1 else 0)
  {
    TellsUsers(g.events, g.history, 0, s.rewrite, g.plan.pending);
    TellsRound(g.events + Announce(Users(s.rewrite, g.plan.pending)), Asked(s, g), r);
  }

  /** The events fold to exactly the history, and there is no error while the turn goes on. */
  lemma {:induction false} EventsTellTheHistory(s: Script, n: nat)
    requires Runs(s, n)
    ensures Tells(At(s, n).events, At(s, n).history, 0)
  {
    if n == 0 {
      AtFirst(s);
      TellsMessage([], [], 0, User(s.rewrite(s.prompt)));
      assert [] + First(s).events == First(s).events && [] + First(s).history == First(s).history;
    } else {
      assert GoesOn(s, n - 1);
      AtNext(s, n);
      EventsTellTheHistory(s, n - 1);
      TellsNext(s, At(s, n - 1), s.world(n - 1));
    }
  }

  /** One opening bracket, one closing one that names the outcome, one error exactly when the turn failed. */
  predicate Bracketed(turn: seq<Event>, history: seq<Message>, ending: Ending) {
    && |turn| > 1 && turn[0] == TurnStarted
    && turn[|turn| - 1] == TurnEnded(if ending.Ended? then ending.outcome else Aborted)
    && Tells(turn[1..|turn| - 1], history, if ending == Failed then 1 else 0)
  }

  lemma TurnIsBracketed(s: Script, fuel: nat, n: nat, e: Ending)
    requires Ends(s, fuel, n, e) && e != StillRunning
    ensures Bracketed(TurnEvents(At(s, n), e), At(s, n).history, e)
  {
    AtNext(s, n);
    EventsTellTheHistory(s, n - 1);
    TellsNext(s, At(s, n - 1), s.world(n - 1));
    var g := At(s, n);
    var turn := TurnEvents(g, e);
    assert turn[1..|turn| - 1] == g.events;
  }
}
