/**
 * Runs of the terminal protocol as one thread lives through them: what the run
 * passed, which restorations the thread made, and what the others leave alone.
 */
module TerminalTrace {
  import opened Prelude

  import opened TerminalProtocol
  import opened TerminalSafety

  predicate ByOthers(a: Action, me: nat) {
    a.DropLease? || a.t != me
  }

  /** Native calls that undo what was done; and native calls that all do what they are asked. */
  predicate Undoes(n: Native) { n.leaveOk == ALL && n.setPage == SetOk }

  predicate Works(n: Native) { Undoes(n) && n.enterOk && n.glyphs && n.pageKnown }

  // ----- what happened in a run ----------------------------------------------

  /** The state before action `k` of a run. */
  ghost function Before(base: nat, actions: seq<Action>, k: nat): State
    requires k <= |actions|
  {
    if WellFormed(Init(base)) then Run(Init(base), actions[..k]) else Init(base)
  }

  /** The run was in state `s` since its action `since`. */
  ghost predicate Passed(base: nat, actions: seq<Action>, since: nat, s: State) {
    exists k :: since <= k <= |actions| && s == Before(base, actions, k)
  }

  /** Action `k` was a step of thread `t` that was at `pc`. */
  ghost predicate Stepped(base: nat, actions: seq<Action>, t: nat, k: nat, pc: PC) {
    k < |actions| && actions[k].Step? && actions[k].t == t && Pc(Before(base, actions, k), t) == pc
  }

  /** Since action `since` thread `t` made both halves of `restore` for the guard `o`. */
  ghost predicate RanRestore(base: nat, actions: seq<Action>, since: nat, t: nat, o: nat, why: Why) {
    exists i: nat, j: nat, modes: bool :: since <= i < j
      && Stepped(base, actions, t, i, RestoreModes(o, why))
      && Stepped(base, actions, t, j, RestoreOutput(o, why, modes))
  }

  lemma BeforeStays(base: nat, a: seq<Action>, b: seq<Action>, k: nat)
    requires a <= b && k <= |a|
    ensures Before(base, a, k) == Before(base, b, k)
  {
    assert a[..k] == b[..k];
  }

  lemma PassedStays(base: nat, a: seq<Action>, b: seq<Action>, since: nat, s: State)
    requires a <= b && Passed(base, a, since, s)
    ensures Passed(base, b, since, s)
  {
    var k :| since <= k <= |a| && s == Before(base, a, k);
    BeforeStays(base, a, b, k);
  }

  lemma SteppedStays(base: nat, a: seq<Action>, b: seq<Action>, t: nat, k: nat, pc: PC)
    requires a <= b && Stepped(base, a, t, k, pc)
    ensures Stepped(base, b, t, k, pc)
  {
    BeforeStays(base, a, b, k);
  }

  lemma RanRestoreStays(base: nat, a: seq<Action>, b: seq<Action>, since: nat, t: nat, o: nat, why: Why)
    requires a <= b && RanRestore(base, a, since, t, o, why)
    ensures RanRestore(base, b, since, t, o, why)
  {
    var i: nat, j: nat, m :| since <= i < j
      && Stepped(base, a, t, i, RestoreModes(o, why)) && Stepped(base, a, t, j, RestoreOutput(o, why, m));
    SteppedStays(base, a, b, t, i, RestoreModes(o, why));
    SteppedStays(base, a, b, t, j, RestoreOutput(o, why, m));
  }

  /** Nobody else touches the guard of an entry, or the terminal, until somebody cancels it. */
  ghost predicate EntryUntouched(s: State, s': State, me: nat) {
    IsEntry(Pc(s, me)) ==>
      var o := Pc(s, me).o;
      && s'.slot == s.slot == Entering(o) && o in s.inners && o in s'.inners
      && (s.inners[o].cancelled ==> s'.inners[o].cancelled)
      && (!s'.inners[o].cancelled ==> s'.inners[o] == s.inners[o] && s'.world == s.world)
  }

  /** A cancelled guard stays so and takes on no mode. */
  ghost predicate CancelledShrinks(s: State, s': State) {
    forall o :: Cancelled(s, o) ==> Cancelled(s', o) && s'.inners[o].entered <= s.inners[o].entered
  }

  ghost predicate Untouched(s: State, s': State, me: nat) {
    Pc(s', me) == Pc(s, me) && EntryUntouched(s, s', me) && CancelledShrinks(s, s')
  }

  lemma OtherThread(s: State, t: nat, n: Native, me: nat, base: nat)
    requires Inv(s, base) && WellFormed(s) && t != me
    ensures Pc(StepThread(s, t, n), me) == Pc(s, me) && EntryUntouched(s, StepThread(s, t, n), me)
  {
    assert PcOk(s, Pc(s, t)) && PcOk(s, Pc(s, me));
  }

  lemma OtherAction(s: State, a: Action, me: nat, base: nat)
    requires Inv(s, base) && WellFormed(s) && ByOthers(a, me)
    ensures Untouched(s, Apply(s, a), me)
  {
    assert PcOk(s, Pc(s, me));
    if a.Step? { OtherThread(s, a.t, a.native, me, base); }
    forall o | Cancelled(s, o)
      ensures Cancelled(Apply(s, a), o) && Apply(s, a).inners[o].entered <= s.inners[o].entered
    {
      CancelledStep(s, a, o, base);
    }
  }

  lemma UntouchedItself(s: State, me: nat, base: nat)
    requires Inv(s, base)
    ensures Untouched(s, s, me)
  {
    assert PcOk(s, Pc(s, me));
  }

  lemma UntouchedTwice(s: State, s': State, s'': State, me: nat)
    requires Untouched(s, s', me) && Untouched(s', s'', me)
    ensures Untouched(s, s'', me)
  {
  }
}
