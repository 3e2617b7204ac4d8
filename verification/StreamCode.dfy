/**
 * The code of the receiving half: `next` as it is written, with whatever the
 * senders, the cancellation and the clock do between its polls, answers to the
 * steps of the protocol.
 */
module StreamCode {
  import opened Prelude
  import opened EventStream

  lemma {:induction false} RunAppend(c: Channel, a: seq<Action>, b: seq<Action>)
    ensures Run(c, a + b) == Run(Run(c, a), b)
    decreases |a|
  {
    if a == [] {
      assert a + b == b;
    } else {
      assert (a + b)[1..] == a[1..] + b;
      RunAppend(Apply(c, a[0]), a[1..], b);
    }
  }

  lemma RunOne(c: Channel, a: Action)
    ensures Run(c, [a]) == Apply(c, a)
  {
    assert [a][1..] == [];
  }

  /** The others never touch what belongs to the receiver. */
  lemma {:induction false} OthersLeaveTheReceiver(c: Channel, actions: seq<Action>)
    requires forall a :: a in actions ==> ByOthers(a)
    ensures Untouched(c, Run(c, actions))
    decreases |actions|
  {
    if actions != [] {
      OneOther(c, actions[0]);
      OthersLeaveTheReceiver(Apply(c, actions[0]), actions[1..]);
    }
  }

  class EventStreamReceiver {
    var channel: Channel          // the queue, the token and the senders, shared with the other side
    ghost var start: Channel
    ghost var actions: seq<Action>

    ghost predicate Traced() reads this { channel == Run(start, actions) }

    constructor (c: Channel)
      ensures channel == c && start == c && actions == [] && Traced()
    {
      channel, start, actions := c, c, [];
    }

    /** The moves of the other side between two polls. */
    method Meanwhile(others: seq<Action>)
      requires Traced() && forall a :: a in others ==> ByOthers(a)
      modifies this`channel, this`actions
      ensures Traced() && Untouched(old(channel), channel) && actions == old(actions) + others
    {
      OthersLeaveTheReceiver(channel, others);
      RunAppend(start, actions, others);
      channel := Run(channel, others);
      actions := actions + others;
    }

    method Move(a: Action, next: Channel)
      requires Traced() && next == Apply(channel, a)
      modifies this`channel, this`actions
      ensures Traced() && channel == next && actions == old(actions) + [a]
    {
      RunAppend(start, actions, [a]);
      RunOne(channel, a);
      channel := next;
      actions := actions + [a];
    }

    /** `accept`: hands the event out, and closes the stream after a terminal. */
    method TakeQueued() returns (e: Event)
      requires Traced() && channel.queue != [] && !channel.seen && Waiting(channel) && !channel.receiver.CheckingCancel?
      modifies this`channel, this`actions
      ensures Traced() && old(actions) <= actions && e == old(channel.queue)[0]
      ensures channel.receiver.AtRest? && channel.out == old(channel.out) + [Some(e)]
      ensures channel.seen == IsTerminal(e) && (IsTerminal(e) ==> channel.closed)
    {
      e := channel.queue[0];
      var next := channel.(taken := channel.taken + [e], queue := channel.queue[1..], receiver := AtRest,
                           out := channel.out + [Some(e)]);
      if IsTerminal(e) { next := next.(seen := true, closed := true); }
      Move(Poll, next);
    }

    /** `synthesize`: makes the terminal up and closes the stream. */
    method MakeUp(e: Event)
      requires Traced() && channel.queue == [] && !channel.seen
      requires || ((channel.receiver.Starting? || channel.receiver.Polling?)
                   && channel.senders == map[] && e == ClosedTerminal(channel))
               || (channel.receiver.SawCancel? && e == Error(CancelledFailure))
      modifies this`channel, this`actions
      ensures Traced() && old(actions) <= actions
      ensures channel.receiver.AtRest? && channel.out == old(channel.out) + [Some(e)]
      ensures channel.seen && channel.closed && channel.synthesized == Some(e)
    {
      Move(Poll, Synthesize(channel, e));
    }

    /** The attempt that opens `next`, and again the one after cancellation was seen. */
    method TryReceive() returns (r: Option<Event>)
      requires Traced() && !channel.seen && (channel.receiver.Starting? || channel.receiver.Polling?)
      modifies this`channel, this`actions
      ensures Traced() && old(actions) <= actions
      ensures r.Some? ==> channel.receiver.AtRest? && channel.out == old(channel.out) + [r]
      ensures r.None? <==> old(channel.queue) == [] && old(channel.senders) != map[]
      ensures r.None? ==> channel == old(channel)
      ensures old(channel.queue) != [] ==> r == Some(old(channel.queue)[0])
      ensures old(channel.queue) == [] && r.Some? ==> r == Some(ClosedTerminal(old(channel)))
    {
      if channel.queue != [] {
        var e := TakeQueued();
        return Some(e);
      }
      if channel.senders == map[] {
        var e := if channel.cancelled then Error(CancelledFailure) else Error(ProtocolFailure);
        MakeUp(e);
        return Some(e);
      }
      return None;
    }

    /**
     * `next`, polled once for each entry of `world`; what the other side does
     * before that poll and before the look at the token is the entry. It has
     * returned, or is still waiting when the script ends; either way what
     * happened is a run of the protocol. What was queued first is returned at
     * once, and a call whose request is cancelled never outlasts one poll.
     */
    method Next(world: seq<(seq<Action>, seq<Action>)>) returns (r: Option<Option<Event>>)
      requires Traced() && channel.receiver.AtRest? && (channel.seen ==> channel.closed)
      requires forall w :: w in world ==> (forall a :: a in w.0 ==> ByOthers(a)) && forall a :: a in w.1 ==> ByOthers(a)
      modifies this`channel, this`actions
      ensures Traced() && old(actions) <= actions
      ensures r.Some? ==> channel.receiver.AtRest? && channel.out == old(channel.out) + [r.value]
      ensures r.None? ==> Waiting(channel) && channel.out == old(channel.out)
      ensures old(channel.seen) ==> r == Some(None)
      ensures !old(channel.seen) && old(channel.queue) != [] ==> r == Some(Some(old(channel.queue)[0]))
      ensures !old(channel.seen) && old(channel.queue) == [] && old(channel.senders) == map[] ==>
                r == Some(Some(ClosedTerminal(old(channel))))
      ensures r.None? ==> world == [] || !channel.cancelled
      ensures IsOver(old(channel)) && world != [] ==> r.Some?
    {
      Move(CallNext, channel.(receiver := Starting));
      if channel.seen {
        Move(Poll, channel.(receiver := AtRest, out := channel.out + [None]));
        return Some(None);
      }
      var e := TryReceive();
      if e.Some? { return Some(e); }
      Move(Poll, channel.(receiver := Polling));
      r := PollUntilReady(world);
    }

    method PollUntilReady(world: seq<(seq<Action>, seq<Action>)>) returns (r: Option<Option<Event>>)
      requires Traced() && channel.receiver.Polling? && !channel.seen
      requires forall w :: w in world ==> (forall a :: a in w.0 ==> ByOthers(a)) && forall a :: a in w.1 ==> ByOthers(a)
      modifies this`channel, this`actions
      ensures Traced() && old(actions) <= actions
      ensures r.Some? ==> channel.receiver.AtRest? && channel.out == old(channel.out) + [r.value]
      ensures r.None? ==> Waiting(channel) && channel.out == old(channel.out)
      ensures r.None? ==> world == [] || !channel.cancelled
      ensures old(channel.cancelled) && world != [] ==> r.Some?
    {
      var k := 0;
      while k < |world|
        invariant 0 <= k <= |world| && Traced() && old(actions) <= actions
        invariant channel.receiver.Polling? && !channel.seen
        invariant channel.out == old(channel.out)
        invariant k == 0 ==> channel == old(channel)
        invariant k > 0 ==> !channel.cancelled && !old(channel.cancelled)
      {
        r := PollOnce(world[k].0, world[k].1);
        if r.Some? { return; }
        k := k + 1;
      }
      return None;
    }

    /** One poll of the queue and one look at the token. */
    method PollOnce(before: seq<Action>, between: seq<Action>) returns (r: Option<Option<Event>>)
      requires Traced() && channel.receiver.Polling? && !channel.seen
      requires (forall a :: a in before ==> ByOthers(a)) && forall a :: a in between ==> ByOthers(a)
      modifies this`channel, this`actions
      ensures Traced() && old(actions) <= actions
      ensures r.Some? ==> channel.receiver.AtRest? && channel.out == old(channel.out) + [r.value]
      ensures r.None? ==> channel.receiver.Polling? && !channel.seen && channel.out == old(channel.out)
      ensures r.None? ==> !channel.cancelled && !old(channel.cancelled)
    {
      Meanwhile(before);
      var e := TryReceive();
      if e.Some? { return Some(e); }
      Move(Poll, channel.(receiver := CheckingCancel));
      Meanwhile(between);
      if !channel.cancelled {
        Move(Poll, channel.(receiver := Polling));
        return None;
      }
      Move(Poll, channel.(receiver := SawCancel));
      if channel.queue != [] {
        var last := TakeQueued();
        return Some(Some(last));
      }
      MakeUp(Error(CancelledFailure));
      return Some(Some(Error(CancelledFailure)));
    }
  }
}
