/**
 * What publication, issue and activation come to: which document wins, what each
 * family is offered, which stamp is drawn, and that an undisturbed activation
 * puts its Packs in place.
 */
module PackEffects {
  import opened Prelude

  import opened PackSafety
  import opened PackSelection
  import Fence = GenerationFence
  import Word = GenerationWord

  // ----- which document wins -------------------------------------------------

  /** The authority after these documents were offered to it one after the other. */
  function OfferedAll(a: Authority, ds: seq<Option<Document>>): Authority {
    if ds == [] then a else Publish(OfferedAll(a, ds[..|ds| - 1]), ds[|ds| - 1]).0
  }

  ghost predicate BreaksRecord(start: Option<Document>, ds: seq<Option<Document>>, i: nat)
    requires i < |ds|
  {
    Revision(start) < Revision(ds[i]) && forall j :: 0 <= j < i ==> Revision(ds[j]) < Revision(ds[i])
  }

  /** `held` is the first of the start and the offers with the highest revision. */
  ghost predicate Wins(start: Option<Document>, ds: seq<Option<Document>>, held: Option<Document>) {
    && (forall i :: 0 <= i < |ds| ==> Revision(ds[i]) <= Revision(held)) && Revision(start) <= Revision(held)
    && (held == start || exists i :: 0 <= i < |ds| && BreaksRecord(start, ds, i) && ds[i] == held)
  }

  /** One more offer is taken over only when its revision is the highest yet. */
  lemma WinsAfterOneMore(
    start: Option<Document>, front: seq<Option<Document>>, d: Option<Document>, before: Option<Document>,
    held: Option<Document>)
    requires Wins(start, front, before)
    requires if Revision(d) > Revision(before) then held == d else held == before
    ensures Wins(start, front + [d], held)
  {
    var ds := front + [d];
    if held == before && before != start {
      var i :| 0 <= i < |front| && BreaksRecord(start, front, i) && front[i] == before;
      assert BreaksRecord(start, ds, i) && ds[i] == held;
    } else if held != before {
      assert BreaksRecord(start, ds, |front|) && ds[|front|] == held;
    }
    forall i | 0 <= i < |ds| ensures Revision(ds[i]) <= Revision(held) {
      if i < |front| { assert ds[i] == front[i]; }
    }
  }

  /** However many documents an open authority is offered, it holds the first one of the highest revision. */
  lemma {:induction false} HighestRevisionWins(a: Authority, ds: seq<Option<Document>>)
    requires !a.closed && !a.poisoned
    ensures !OfferedAll(a, ds).closed && !OfferedAll(a, ds).poisoned
    ensures Wins(a.document, ds, OfferedAll(a, ds).document)
    decreases |ds|
  {
    if ds != [] {
      var front, d := ds[..|ds| - 1], ds[|ds| - 1];
      HighestRevisionWins(a, front);
      WinsAfterOneMore(a.document, front, d, OfferedAll(a, front).document, OfferedAll(a, ds).document);
      assert ds == front + [d];
    }
  }

  /** The answer of a publication tells what became of the document. */
  lemma PublishAnswers(a: Authority, d: Option<Document>)
    ensures var (b, r) := Publish(a, d);
      && (r.Ok? ==> b.document == d && !a.closed && !a.poisoned)
      && (r.Err? ==> b == a)
      && (!a.closed && !a.poisoned ==>
            && (r.Ok? <==> b.document == d)
            && (r == Err(RevisionRegression) <==> Revision(d) < Revision(b.document))
            && (r == Err(RevisionConflict) <==> d != b.document && Revision(d) == Revision(b.document)))
  {
  }

  // ----- what is issued ------------------------------------------------------

  /** Draw `k` is the first that is not in use, and no draw before it failed. */
  predicate FirstUnused(live: set<Stamp>, draws: seq<Option<Stamp>>, attempts: nat, k: nat) {
    && k < attempts && k < |draws| && draws[k].Some? && draws[k].value !in live
    && forall j :: 0 <= j < k ==> draws[j].Some? && draws[j].value in live
  }

  lemma FirstUnusedLater(live: set<Stamp>, draws: seq<Option<Stamp>>, attempts: nat, k: nat)
    requires k > 0 && attempts > 0 && |draws| > 0 && draws[0].Some? && draws[0].value in live
    ensures FirstUnused(live, draws, attempts, k) <==> FirstUnused(live, draws[1..], attempts - 1, k - 1)
  {
    if FirstUnused(live, draws, attempts, k) {
      forall j | 0 <= j < k - 1 ensures draws[1..][j].Some? && draws[1..][j].value in live {
        assert draws[1..][j] == draws[j + 1];
      }
    }
    if FirstUnused(live, draws[1..], attempts - 1, k - 1) {
      forall j | 0 <= j < k ensures draws[j].Some? && draws[j].value in live {
        if j > 0 { assert draws[j] == draws[1..][j - 1]; }
      }
    }
  }

  /** Minting gives the first unused draw, if there is one among the attempts. */
  lemma {:induction false} MintGivesFirstUnused(live: set<Stamp>, draws: seq<Option<Stamp>>, attempts: nat)
    ensures Mint(live, draws, attempts).Some? <==> exists k: nat :: FirstUnused(live, draws, attempts, k)
    ensures forall k: nat :: FirstUnused(live, draws, attempts, k) ==> Mint(live, draws, attempts) == draws[k]
    decreases attempts
  {
    if attempts > 0 && |draws| > 0 && draws[0].Some? {
      if draws[0].value !in live {
        assert FirstUnused(live, draws, attempts, 0);
      } else {
        MintGivesFirstUnused(live, draws[1..], attempts - 1);
        forall k: nat | k > 0
          ensures FirstUnused(live, draws, attempts, k) <==> FirstUnused(live, draws[1..], attempts - 1, k - 1)
        {
          FirstUnusedLater(live, draws, attempts, k);
        }
        if Mint(live, draws[1..], attempts - 1).Some? {
          var k: nat :| FirstUnused(live, draws[1..], attempts - 1, k);
          assert FirstUnused(live, draws, attempts, k + 1);
        }
      }
    }
  }

  /** The cached selection is what the accepted document still says. */
  predicate StillSays(a: Authority, f: Family, cache: Option<Selection>)
    requires |a.projection| == |ALL_FAMILIES|
  {
    cache.Some? && cache.value.revision == Revision(a.document) && cache.value.packIds == Current(a, f)
  }

  /**
   * An open authority issues a selection when the cached one still holds or one of eight draws is unused, and then
   * it can be activated, by its stamp alone, until the authority closes.
   */
  lemma IssuedCanBeActivated(
    a: Authority, f: Family, cache: Option<Selection>, draws: seq<Option<Stamp>>, stamp: Stamp)
    requires |a.projection| == |ALL_FAMILIES|
    ensures var (b, cache', r) := Issue(a, f, cache, draws);
      && (r.Some? <==> !a.closed && !a.poisoned
                       && (StillSays(a, f, cache) || exists k: nat :: FirstUnused(a.liveStamps, draws, 8, k)))
      && |b.projection| == |ALL_FAMILIES|
      && (r.Some? ==>
            && BeginActivation(b, f, cache', r.value.stamp) == Ok(r.value)
            && CheckCommit(b, f, cache', r.value) == Ok(())
            && (stamp != r.value.stamp ==> BeginActivation(b, f, cache', stamp) == Err(InvalidSelection))
            && BeginActivation(Close(b), f, cache', r.value.stamp) == Err(Unavailable)
            && CheckCommit(Close(b), f, cache', r.value) == Err(Unavailable))
  {
    MintGivesFirstUnused(a.liveStamps, draws, 8);
  }

  /** After a newer document is accepted, what is issued to a family is exactly what that document gives it. */
  lemma FamiliesGetTheirOwn(
    a: Authority, d: Document, f: Family, cache: Option<Selection>, draws: seq<Option<Stamp>>)
    requires !a.closed && !a.poisoned && d.revision > Revision(a.document) && ProjectionOk(a)
    ensures var b, c := Publish(a, Some(d)).0, d.composition;
      && |b.projection| == |ALL_FAMILIES|
      && var r := Issue(b, f, cache, draws).2;
        r.Some? ==>
          && r.value.revision == d.revision
          && (f == Providers ==> r.value.packIds == c.providers)
          && (f == Usage ==> r.value.packIds == c.usage)
          && (f == Ui ==> r.value.packIds == c.themes)
          && (f == Web && c.web.Some? ==> r.value.packIds == [c.web.value])
          && (f == Mcp && c.mcp.Some? ==> r.value.packIds == [c.mcp.value])
          && ((f == Web && c.web.None?) || (f == Mcp && c.mcp.None?) ==> r.value.packIds == [])
  {
    var b := Publish(a, Some(d)).0;
    assert Current(b, f) == Selected(d.composition, f);
  }

  // ----- an undisturbed activation -------------------------------------------

  lemma {:induction false} RunConcat(s: State, a: seq<Action>, b: seq<Action>)
    requires Inv(s)
    ensures Run(s, a + b) == Run(Run(s, a), b)
    decreases |a|
  {
    if a == [] {
      assert a + b == b;
    } else {
      ApplyKeeps(s, a[0]);
      assert (a + b)[0] == a[0] && (a + b)[1..] == a[1..] + b;
      RunConcat(Apply(s, a[0]), a[1..], b);
    }
  }

  function Loads(c: nat, n: nat): seq<Action> {
    seq(n, i => Load(c, None))
  }

  predicate IsPreparing(s: State, c: nat, target: Selection, g: nat, n: nat) {
    && c in s.clients && n <= |target.packIds|
    && s.clients[c].task == Preparing(target, g, target.packIds[..n])
  }

  /** Nothing but the client `c` moves from `s` to `s'`. */
  predicate OnlyClient(s: State, s': State, c: nat) {
    && s'.authority == s.authority && s'.generations == s.generations && c in s.clients && c in s'.clients
    && s'.clients[c].cache == s.clients[c].cache && s'.clients[c].family == s.clients[c].family
    && s'.clients[c].active == s.clients[c].active
  }

  lemma OneLoad(s: State, c: nat, target: Selection, g: nat, n: nat)
    requires Inv(s) && IsPreparing(s, c, target, g, n) && n < |target.packIds|
    ensures IsPreparing(Apply(s, Load(c, None)), c, target, g, n + 1) && OnlyClient(s, Apply(s, Load(c, None)), c)
  {
    assert target.packIds[..n + 1] == target.packIds[..n] + [target.packIds[n]];
  }

  lemma {:induction false} LoadsAll(s: State, c: nat, target: Selection, g: nat, n: nat)
    requires Inv(s) && IsPreparing(s, c, target, g, 0) && n <= |target.packIds|
    ensures IsPreparing(Run(s, Loads(c, n)), c, target, g, n) && OnlyClient(s, Run(s, Loads(c, n)), c)
    decreases n
  {
    if n > 0 {
      LoadsAll(s, c, target, g, n - 1);
      assert Loads(c, n) == Loads(c, n - 1) + [Load(c, None)];
      RunConcat(s, Loads(c, n - 1), [Load(c, None)]);
      RunOne(Run(s, Loads(c, n - 1)), Load(c, None));
      OneLoad(Run(s, Loads(c, n - 1)), c, target, g, n - 1);
    }
  }

  lemma RunOne(s: State, a: Action)
    requires Inv(s)
    ensures Run(s, [a]) == Apply(s, a)
  {
    ApplyKeeps(s, a);
    assert [a][1..] == [];
  }

  /** The generation is current, its authority open, and nobody is at its commit mutex. */
  predicate ReadyFence(fence: Fence.State) {
    && Word.Phase(fence.word) == Word.CURRENT && fence.epoch != Fence.CLOSED
    && fence.lock.None? && !fence.poisoned
  }

  /** The client is at this point of its commit, on a fence that stays ready for it. */
  predicate AtCommit(s: State, c: nat, t: Task, g: nat) {
    && c in s.clients && s.clients[c].task == t && g in s.generations
    && Word.Phase(s.generations[g].word) == Word.CURRENT && s.generations[g].epoch != Fence.CLOSED
  }

  lemma Locks(s: State, c: nat, target: Selection, g: nat, packs: Option<seq<PackId>>)
    requires Inv(s) && AtCommit(s, c, Prepared(target, g, packs), g) && ReadyFence(s.generations[g])
    ensures AtCommit(Apply(s, LockCommit(c)), c, Locked(target, g, packs), g)
    ensures var s' := Apply(s, LockCommit(c));
      s'.authority == s.authority && s'.clients[c] == s.clients[c].(task := Locked(target, g, packs))
  {
    assert OnFence(s.generations, c, s.clients[c].task);
  }

  lemma Opens(s: State, c: nat, target: Selection, g: nat, packs: Option<seq<PackId>>)
    requires Inv(s) && AtCommit(s, c, Locked(target, g, packs), g)
    ensures var s' := Apply(s, OpenWindow(c));
      && AtCommit(s', c, Window(target, g, packs), g)
      && s'.authority == s.authority && s'.clients[c] == s.clients[c].(task := Window(target, g, packs))
  {
    assert OnFence(s.generations, c, s.clients[c].task);
  }

  lemma Commits(s: State, c: nat, target: Selection, g: nat, packs: Option<seq<PackId>>)
    requires Inv(s) && AtCommit(s, c, Window(target, g, packs), g)
    requires CheckCommit(s.authority, s.clients[c].family, s.clients[c].cache, target).Ok?
    ensures var s' := Apply(s, Commit(c));
      && c in s'.clients && s'.clients[c].task == Finished(Ok(target.stamp))
      && s'.clients[c].active == Some(ActiveSet(target, target.packIds))
  {
    assert ClientOk(s.authority, s.clients[c]);
  }

  function CommitSteps(c: nat): seq<Action> { [LockCommit(c), OpenWindow(c), Commit(c)] }

  /** The activation of `target` is over and its Packs are in place, in order. */
  predicate InPlace(s: State, c: nat, target: Selection) {
    && c in s.clients && s.clients[c].task == Finished(Ok(target.stamp))
    && s.clients[c].active == Some(ActiveSet(target, target.packIds))
  }

  /** A prepared set commits in three steps. */
  lemma CommitsIt(s: State, c: nat, target: Selection, g: nat, packs: Option<seq<PackId>>)
    requires Inv(s) && AtCommit(s, c, Prepared(target, g, packs), g) && ReadyFence(s.generations[g])
    requires CheckCommit(s.authority, s.clients[c].family, s.clients[c].cache, target).Ok?
    ensures InPlace(Run(s, CommitSteps(c)), c, target)
  {
    var s1 := Apply(s, LockCommit(c));
    var s2 := Apply(s1, OpenWindow(c));
    Locks(s, c, target, g, packs);
    ApplyKeeps(s, LockCommit(c));
    Opens(s1, c, target, g, packs);
    ApplyKeeps(s1, OpenWindow(c));
    Commits(s2, c, target, g, packs);
    RunOne(s2, Commit(c));
    assert CommitSteps(c)[1..] == [OpenWindow(c), Commit(c)] && CommitSteps(c)[1..][1..] == [Commit(c)];
  }

  /** From the selection's stamp to its Packs in place: begin, load each Pack, and commit. */
  function Undisturbed(c: nat, stamp: Stamp, g: nat, confirms: bool, packs: nat): seq<Action> {
    [Begin(c, stamp, g)] + (if confirms then [] else Loads(c, packs) + [Load(c, None)]) + CommitSteps(c)
  }

  lemma LoadsThenPrepared(s: State, c: nat, target: Selection, g: nat)
    requires Inv(s) && IsPreparing(s, c, target, g, 0)
    ensures var s' := Run(s, Loads(c, |target.packIds|) + [Load(c, None)]);
      && OnlyClient(s, s', c)
      && s'.clients[c].task == Prepared(target, g, Some(target.packIds))
  {
    var n := |target.packIds|;
    LoadsAll(s, c, target, g, n);
    RunConcat(s, Loads(c, n), [Load(c, None)]);
    RunOne(Run(s, Loads(c, n)), Load(c, None));
    assert target.packIds[..n] == target.packIds;
  }

  /**
   * A current selection, on a ready generation and with nobody in the way, is activated: afterwards exactly its
   * Packs are in place, in order, whether they were loaded now or were active already.
   */
  lemma ActivationSucceeds(s: State, c: nat, target: Selection, g: nat)
    requires Inv(s) && c in s.clients && s.clients[c].task.Idle? && HasActivity(s, c, g) && ReadyFence(s.generations[g])
    requires BeginActivation(s.authority, s.clients[c].family, s.clients[c].cache, target.stamp) == Ok(target)
    ensures var active := s.clients[c].active;
      InPlace(Run(s, Undisturbed(c, target.stamp, g, active.Some? && active.value.target == target,
                                 |target.packIds|)), c, target)
  {
    var me := s.clients[c];
    var confirms := me.active.Some? && me.active.value.target == target;
    var s0 := Apply(s, Begin(c, target.stamp, g));
    ApplyKeeps(s, Begin(c, target.stamp, g));
    RunOne(s, Begin(c, target.stamp, g));
    var loads := if confirms then [] else Loads(c, |target.packIds|) + [Load(c, None)];
    if !confirms {
      assert target.packIds[..0] == [];
      LoadsThenPrepared(s0, c, target, g);
    }
    var s1 := Run(s0, loads);
    var packs := if confirms then None else Some(target.packIds);
    assert s1.clients[c].task == Prepared(target, g, packs);
    CommitsIt(s1, c, target, g, packs);
    RunConcat(s, [Begin(c, target.stamp, g)] + loads, CommitSteps(c));
    RunConcat(s, [Begin(c, target.stamp, g)], loads);
  }

  // ----- why an activation fails ---------------------------------------------

  /** What was wrong, in the state before the step with which client `c` failed. */
  predicate Explains(s: State, c: nat, a: Action, e: ActivationError)
    requires c in s.clients && |s.authority.projection| == |ALL_FAMILIES|
  {
    var me, open := s.clients[c], !s.authority.closed && !s.authority.poisoned;
    match a
    case Begin(d, stamp, _) =>
      && d == c
      && if open then
           e == InvalidSelection && !(StillSays(s.authority, me.family, me.cache) && me.cache.value.stamp == stamp)
         else e == Unavailable
    case Load(d, failure) => d == c && failure == Some(e)
    case LockCommit(d) =>
      && d == c && me.task.Prepared? && me.task.generation in s.generations
      && s.generations[me.task.generation].poisoned && e == Unavailable
    case OpenWindow(d) =>
      && d == c && me.task.Locked? && me.task.generation in s.generations && e == StaleGeneration
      && var fence := s.generations[me.task.generation];
        fence.epoch == Fence.CLOSED || Word.Phase(fence.word) != Word.CURRENT
    case Commit(d) =>
      && d == c && me.task.Window?
      && if open then
           e == InvalidSelection && !(StillSays(s.authority, me.family, me.cache) && me.cache.value == me.task.target)
         else e == Unavailable
    case _ => false
  }

  /** The step ends the activation of client `c` with this error. */
  predicate FailsNow(s: State, a: Action, c: nat, e: ActivationError)
    requires |s.authority.projection| == |ALL_FAMILIES|
  {
    && c in s.clients && !s.clients[c].task.Finished?
    && c in Apply(s, a).clients && Apply(s, a).clients[c].task == Finished(Err(e))
  }

  /** The five steps of an activation. */
  predicate OwnStep(a: Action, c: nat) {
    (a.Begin? || a.Load? || a.LockCommit? || a.OpenWindow? || a.Commit?) && a.c == c
  }

  lemma NobodyElseFailsIt(s: State, a: Action, c: nat, e: ActivationError)
    requires |s.authority.projection| == |ALL_FAMILIES| && !OwnStep(a, c)
    ensures !FailsNow(s, a, c, e)
  {
  }

  lemma BeginFails(s: State, a: Action, c: nat, e: ActivationError)
    requires |s.authority.projection| == |ALL_FAMILIES| && (a.Begin? || a.Load?) && FailsNow(s, a, c, e)
    ensures Explains(s, c, a, e)
  {
  }

  lemma LockFails(s: State, c: nat, e: ActivationError)
    requires |s.authority.projection| == |ALL_FAMILIES| && FailsNow(s, LockCommit(c), c, e)
    ensures Explains(s, c, LockCommit(c), e)
  {
  }

  lemma OpenFails(s: State, c: nat, e: ActivationError)
    requires Inv(s) && FailsNow(s, OpenWindow(c), c, e)
    ensures Explains(s, c, OpenWindow(c), e)
  {
    assert OnFence(s.generations, c, s.clients[c].task);
  }

  lemma CommitFails(s: State, c: nat, e: ActivationError)
    requires |s.authority.projection| == |ALL_FAMILIES| && FailsNow(s, Commit(c), c, e)
    ensures Explains(s, c, Commit(c), e)
  {
  }

  /** An activation fails only for a reason that was there at that moment, and its error says which. */
  lemma FailureTellsWhy(s: State, a: Action, c: nat, e: ActivationError)
    requires Inv(s) && FailsNow(s, a, c, e)
    ensures Explains(s, c, a, e)
  {
    if !OwnStep(a, c) {
      NobodyElseFailsIt(s, a, c, e);
    } else {
      match a
      case LockCommit(_) => LockFails(s, c, e);
      case OpenWindow(_) => OpenFails(s, c, e);
      case Commit(_) => CommitFails(s, c, e);
      case _ => BeginFails(s, a, c, e);
    }
  }
}
