/**
 * Publication of root compositions, issue of selection stamps, and activation
 * of one exact Pack set, with any number of clients and generations.
 *
 * Every operation on the authority runs under its mutex and is one step. An
 * activation is several steps: begin, one load for each Pack, the generation's
 * commit mutex, the check that opens its commit window, and the commit under
 * both locks. Each generation is a fence with its own threads; an activating
 * client is the thread that owns its activity there.
 */
module PackSelection {
  import opened Prelude

  import Fence = GenerationFence
  import FenceSafety

  datatype Family = Providers | Web | Mcp | Usage | Ui

  const ALL_FAMILIES: seq<Family> := [Providers, Web, Mcp, Usage, Ui]
  const MINT_ATTEMPTS: nat := 8

  type PackId = string
  type Stamp = string

  datatype Composition = Composition(
    providers: seq<PackId>, usage: seq<PackId>, themes: seq<PackId>,
    web: Option<PackId>, mcp: Option<PackId>)

  datatype DocumentRaw = Document(revision: nat, composition: Composition)

  /** Persisted documents have a positive revision; zero means absence. */
  type Document = d: DocumentRaw | d.revision >= 1
    witness Document(1, Composition([], [], [], None, None))

  datatype Selection = Selection(stamp: Stamp, revision: nat, packIds: seq<PackId>)

  datatype Authority = Authority(
    closed: bool, poisoned: bool, document: Option<Document>,
    projection: seq<seq<PackId>>, liveStamps: set<Stamp>)

  datatype PublishError = Closed | RevisionRegression | RevisionConflict | PublishUnavailable

  datatype ActivationError = InvalidSelection | StaleGeneration | Limit | Unavailable | Failed

  // ----- the authority -------------------------------------------------------

  function FamilyIndex(f: Family): (i: nat)
    ensures i < |ALL_FAMILIES| && ALL_FAMILIES[i] == f
  {
    match f case Providers => 0 case Web => 1 case Mcp => 2 case Usage => 3 case Ui => 4
  }

  function Single(p: Option<PackId>): seq<PackId> {
    if p.Some? then [p.value] else []
  }

  function Selected(c: Composition, f: Family): seq<PackId> {
    match f
    case Providers => c.providers
    case Usage => c.usage
    case Ui => c.themes
    case Web => Single(c.web)
    case Mcp => Single(c.mcp)
  }

  function Project(c: Composition): (p: seq<seq<PackId>>)
    ensures |p| == |ALL_FAMILIES|
    ensures forall f: Family :: p[FamilyIndex(f)] == Selected(c, f)
  {
    seq(|ALL_FAMILIES|, i requires 0 <= i < |ALL_FAMILIES| => Selected(c, ALL_FAMILIES[i]))
  }

  function EmptyProjection(): seq<seq<PackId>> {
    [[], [], [], [], []]
  }

  function Revision(d: Option<Document>): nat {
    if d.Some? then d.value.revision else 0
  }

  function NewAuthority(): Authority {
    Authority(false, false, None, EmptyProjection(), {})
  }

  function Publish(a: Authority, d: Option<Document>): (r: (Authority, Result<(), PublishError>)) {
    if a.poisoned then (a, Err(PublishUnavailable))
    else if a.closed then (a, Err(Closed))
    else if Revision(d) < Revision(a.document) then (a, Err(RevisionRegression))
    else if Revision(d) == Revision(a.document) then
      (a, if d == a.document then Ok(()) else Err(RevisionConflict))
    else
      (a.(document := d, projection := Project(d.value.composition)), Ok(()))
  }

  function Close(a: Authority): Authority {
    a.(closed := true, liveStamps := {})
  }

  /** The first unused stamp among at most `attempts` draws; a failing draw ends the search. */
  function Mint(live: set<Stamp>, draws: seq<Option<Stamp>>, attempts: nat): (r: Option<Stamp>)
    ensures r.Some? ==> r.value !in live
    decreases attempts
  {
    if attempts == 0 || |draws| == 0 || draws[0].None? then None
    else if draws[0].value !in live then draws[0]
    else Mint(live, draws[1..], attempts - 1)
  }

  function Current(a: Authority, f: Family): seq<PackId>
    requires |a.projection| == |ALL_FAMILIES|
  {
    a.projection[FamilyIndex(f)]
  }

  /** `issue`: the cached selection while it matches, otherwise a fresh stamp that replaces it. */
  function Issue(a: Authority, f: Family, cache: Option<Selection>, draws: seq<Option<Stamp>>)
    : (r: (Authority, Option<Selection>, Option<Selection>))
    requires |a.projection| == |ALL_FAMILIES|
  {
    if a.poisoned || a.closed then (a, cache, None)
    else if cache.Some? && cache.value.revision == Revision(a.document) && cache.value.packIds == Current(a, f)
    then (a, cache, cache)
    else
      match Mint(a.liveStamps, draws, MINT_ATTEMPTS)
      case None => (a, cache, None)
      case Some(stamp) =>
        var minted := Selection(stamp, Revision(a.document), Current(a, f));
        var live := a.liveStamps + {stamp};
        (a.(liveStamps := if cache.Some? then live - {cache.value.stamp} else live), Some(minted), Some(minted))
  }

  function ReleaseCache(a: Authority, cache: Option<Selection>): Authority {
    if cache.Some? then a.(liveStamps := a.liveStamps - {cache.value.stamp}) else a
  }

  /** `activation_is_current`. */
  predicate IsCurrent(a: Authority, f: Family, cache: Option<Selection>, target: Selection)
    requires |a.projection| == |ALL_FAMILIES|
  {
    cache == Some(target) && target.revision == Revision(a.document) && target.packIds == Current(a, f)
  }

  function BeginActivation(a: Authority, f: Family, cache: Option<Selection>, stamp: Stamp)
    : Result<Selection, ActivationError>
    requires |a.projection| == |ALL_FAMILIES|
  {
    if a.poisoned || a.closed then Err(Unavailable)
    else if cache.Some? && cache.value.stamp == stamp && IsCurrent(a, f, cache, cache.value)
    then Ok(cache.value) else Err(InvalidSelection)
  }

  function CheckCommit(a: Authority, f: Family, cache: Option<Selection>, target: Selection)
    : Result<(), ActivationError>
    requires |a.projection| == |ALL_FAMILIES|
  {
    if a.poisoned || a.closed then Err(Unavailable)
    else if IsCurrent(a, f, cache, target) then Ok(()) else Err(InvalidSelection)
  }

  // ----- clients -------------------------------------------------------------

  /** The Packs of an active set, in the order they were loaded. */
  datatype ActiveSet = ActiveSet(target: Selection, packs: seq<PackId>)

  /** `Locked` holds the generation's commit mutex, `Window` has also found it current and open. */
  datatype Task =
    | Idle
    | Preparing(target: Selection, generation: nat, loaded: seq<PackId>)
    | Prepared(target: Selection, generation: nat, replacement: Option<seq<PackId>>)
    | Locked(target: Selection, generation: nat, replacement: Option<seq<PackId>>)
    | Window(target: Selection, generation: nat, replacement: Option<seq<PackId>>)
    | Finished(outcome: Result<Stamp, ActivationError>)

  datatype Client = Client(family: Family, cache: Option<Selection>, active: Option<ActiveSet>,
                           task: Task, before: Option<ActiveSet>)

  datatype State = State(authority: Authority, generations: map<nat, Fence.State>, clients: map<nat, Client>)

  /** `FenceMove` is anything that anybody but an activating client does on a generation's fence. */
  datatype Action =
    | DoPublish(document: Option<Document>)
    | DoClose
    | DoPoison
    | DoIssue(c: nat, draws: seq<Option<Stamp>>)
    | NewClient(c: nat, family: Family)
    | DropClient(c: nat)
    | NewGeneration(g: nat, epoch: nat)
    | FenceMove(g: nat, move: Fence.Action)
    | Begin(c: nat, stamp: Stamp, g: nat)
    | Load(c: nat, failure: Option<ActivationError>)
    | LockCommit(c: nat)
    | OpenWindow(c: nat)
    | Commit(c: nat)
    | Collect(c: nat)            // the caller takes the outcome

  predicate Borrowed(t: Task) { !t.Idle? }

  /** The task borrows the client's activity on generation `g`. */
  predicate Uses(t: Task, g: nat) {
    (t.Preparing? || t.Prepared? || t.Locked? || t.Window?) && t.generation == g
  }

  /** The move is by a thread of its own, or by the waiter, the publisher or the owner of the generation. */
  predicate ByOthers(s: State, g: nat, move: Fence.Action) {
    match move
    case MarkCurrent => true
    case Publish(_) => true
    case Wait => true
    case _ => move.t in s.clients ==> !Uses(s.clients[move.t].task, g)
  }

  function Put(s: State, c: nat, client: Client): State {
    s.(clients := s.clients[c := client])
  }

  function Finish(client: Client, outcome: Result<Stamp, ActivationError>): Client {
    client.(task := Finished(outcome))
  }

  function StepBegin(s: State, c: nat, stamp: Stamp, g: nat): State
    requires c in s.clients && |s.authority.projection| == |ALL_FAMILIES|
  {
    var me := s.clients[c].(before := s.clients[c].active);
    match BeginActivation(s.authority, me.family, me.cache, stamp)
    case Err(e) => Put(s, c, Finish(me, Err(e)))
    case Ok(target) =>
      if me.active.Some? && me.active.value.target == target
      then Put(s, c, me.(task := Prepared(target, g, None)))
      else Put(s, c, me.(task := Preparing(target, g, [])))
  }

  /** Loading the next Pack; after the last one the set is ready to commit. */
  function StepLoad(s: State, c: nat, failure: Option<ActivationError>): State
    requires c in s.clients && s.clients[c].task.Preparing?
  {
    var me := s.clients[c];
    var t := me.task;
    if |t.loaded| >= |t.target.packIds| then Put(s, c, me.(task := Prepared(t.target, t.generation, Some(t.loaded))))
    else if failure.Some? then Put(s, c, Finish(me, Err(failure.value)))
    else Put(s, c, me.(task := t.(loaded := t.loaded + [t.target.packIds[|t.loaded|]])))
  }

  /** The activity of client `c` on generation `g` is live. */
  predicate HasActivity(s: State, c: nat, g: nat) {
    g in s.generations && Fence.Pc(s.generations[g], c).Admitted?
  }

  function Moved(s: State, g: nat, move: Fence.Action): State
    requires g in s.generations
  {
    s.(generations := s.generations[g := Fence.Apply(s.generations[g], move)])
  }

  /** `begin_commit` up to its mutex: it waits while somebody holds it, and a poisoned one is an error. */
  function StepLock(s: State, c: nat): State
    requires c in s.clients && s.clients[c].task.Prepared? && s.clients[c].task.generation in s.generations
  {
    var me := s.clients[c];
    var t := me.task;
    var fence := s.generations[t.generation];
    if fence.lock.Some? then s
    else if fence.poisoned then Put(s, c, Finish(me, Err(Unavailable)))
    else Put(Moved(s, t.generation, Fence.StartCommit(c)), c,
             me.(task := Locked(t.target, t.generation, t.replacement)))
  }

  /** The check of `begin_commit`, on the word and the epoch that the fence has at that moment. */
  function StepOpenWindow(s: State, c: nat): State
    requires c in s.clients && s.clients[c].task.Locked? && s.clients[c].task.generation in s.generations
  {
    var me := s.clients[c];
    var t := me.task;
    var s' := Moved(s, t.generation, Fence.Step(c, false));
    if Fence.Pc(s'.generations[t.generation], c).Committing?
    then Put(s', c, me.(task := Window(t.target, t.generation, t.replacement)))
    else Put(s', c, Finish(me, Err(StaleGeneration)))
  }

  /** The rest of `commit`, under the generation's and the authority's locks, which it then drops. */
  function StepCommit(s: State, c: nat): State
    requires c in s.clients && s.clients[c].task.Window? && |s.authority.projection| == |ALL_FAMILIES|
    requires s.clients[c].task.generation in s.generations
  {
    var me := s.clients[c];
    var t := me.task;
    var s' := Moved(s, t.generation, Fence.EndCommit(c, false));
    match CheckCommit(s.authority, me.family, me.cache, t.target)
    case Err(e) => Put(s', c, Finish(me, Err(e)))
    case Ok(_) =>
      var active := if t.replacement.Some? then Some(ActiveSet(t.target, t.replacement.value)) else me.active;
      Put(s', c, Finish(me.(active := active),
                        Ok(if active.Some? then active.value.target.stamp else t.target.stamp)))
  }

  /** The generation of an activation is one of those there are. */
  predicate Placed(s: State, c: nat) {
    c in s.clients && (s.clients[c].task.Prepared? || s.clients[c].task.Locked? || s.clients[c].task.Window?)
    && s.clients[c].task.generation in s.generations
  }

  function Apply(s: State, a: Action): State
    requires |s.authority.projection| == |ALL_FAMILIES|
  {
    match a
    case DoPublish(d) => s.(authority := Publish(s.authority, d).0)
    case DoClose => s.(authority := Close(s.authority))
    case DoPoison => s.(authority := s.authority.(poisoned := true))
    case DoIssue(c, draws) =>
      if c !in s.clients || Borrowed(s.clients[c].task) then s
      else
        var (authority, cache, _) := Issue(s.authority, s.clients[c].family, s.clients[c].cache, draws);
        Put(s.(authority := authority), c, s.clients[c].(cache := cache))
    case NewClient(c, family) =>
      if c in s.clients then s else Put(s, c, Client(family, None, None, Idle, None))
    case DropClient(c) =>
      if c !in s.clients || Borrowed(s.clients[c].task) then s
      else s.(authority := ReleaseCache(s.authority, s.clients[c].cache), clients := s.clients - {c})
    case NewGeneration(g, epoch) =>
      if g in s.generations then s else s.(generations := s.generations[g := Fence.Init(epoch)])
    case FenceMove(g, move) =>
      if g in s.generations && ByOthers(s, g, move) then Moved(s, g, move) else s
    case Begin(c, stamp, g) =>
      if c in s.clients && s.clients[c].task.Idle? && HasActivity(s, c, g) then StepBegin(s, c, stamp, g) else s
    case Load(c, failure) =>
      if c in s.clients && s.clients[c].task.Preparing? then StepLoad(s, c, failure) else s
    case LockCommit(c) =>
      if Placed(s, c) && s.clients[c].task.Prepared? then StepLock(s, c) else s
    case OpenWindow(c) =>
      if Placed(s, c) && s.clients[c].task.Locked? then StepOpenWindow(s, c) else s
    case Commit(c) =>
      if Placed(s, c) && s.clients[c].task.Window? then StepCommit(s, c) else s
    case Collect(c) =>
      if c in s.clients && s.clients[c].task.Finished? then Put(s, c, s.clients[c].(task := Idle)) else s
  }

  // ----- the invariant -------------------------------------------------------

  predicate ProjectionOk(a: Authority) {
    && |a.projection| == |ALL_FAMILIES|
    && a.projection == (if a.document.Some? then Project(a.document.value.composition) else EmptyProjection())
  }

  function CachedStamps(clients: map<nat, Client>): set<Stamp> {
    set c | c in clients && clients[c].cache.Some? :: clients[c].cache.value.stamp
  }

  predicate StampsDistinct(clients: map<nat, Client>) {
    forall c, d | c in clients && d in clients && clients[c].cache.Some? && clients[d].cache.Some?
      && clients[c].cache.value.stamp == clients[d].cache.value.stamp :: c == d
  }

  predicate StampsOk(s: State) {
    if s.authority.closed then s.authority.liveStamps == {}
    else s.authority.liveStamps == CachedStamps(s.clients) && StampsDistinct(s.clients)
  }

  /** What a client relies on that does not concern the fences. */
  predicate ClientOk(a: Authority, me: Client) {
    && (me.cache.Some? ==> me.cache.value.revision <= Revision(a.document))
    && (me.active.Some? ==> me.active.value.packs == me.active.value.target.packIds)
    && (Borrowed(me.task) && !me.task.Finished? ==> me.active == me.before)
    && (me.task.Preparing? ==> me.task.loaded <= me.task.target.packIds)
    && (me.task.Prepared? || me.task.Locked? || me.task.Window? ==>
          match me.task.replacement
          case Some(packs) => packs == me.task.target.packIds
          case None => me.active.Some? && me.active.value.target == me.task.target)
    && (me.task.Finished? ==>
          match me.task.outcome
          case Err(_) => me.active == me.before
          case Ok(stamp) => me.active.Some? && me.active.value.target.stamp == stamp)
  }

  /** An activating client owns a live activity, and inside the mutex it is its holder. */
  predicate OnFence(generations: map<nat, Fence.State>, c: nat, t: Task) {
    (t.Preparing? || t.Prepared? || t.Locked? || t.Window?) ==>
      && t.generation in generations
      && var pc := Fence.Pc(generations[t.generation], c);
         if t.Locked? then pc.CommitLocked? else if t.Window? then pc.Committing? else pc.Admitted?
  }

  ghost predicate FencesOk(generations: map<nat, Fence.State>) {
    forall g :: g in generations ==> Fence.Inv(generations[g])
  }

  ghost predicate Inv(s: State) {
    && ProjectionOk(s.authority) && StampsOk(s) && FencesOk(s.generations)
    && (forall c | c in s.clients :: ClientOk(s.authority, s.clients[c]))
    && (forall c | c in s.clients :: OnFence(s.generations, c, s.clients[c].task))
  }

  lemma SameStamps(s: State, c: nat, me: Client)
    requires c in s.clients && me.cache == s.clients[c].cache
    ensures CachedStamps(Put(s, c, me).clients) == CachedStamps(s.clients)
  {
    var s' := Put(s, c, me);
    forall x | x in CachedStamps(s.clients) ensures x in CachedStamps(s'.clients) {
      var d :| d in s.clients && s.clients[d].cache.Some? && s.clients[d].cache.value.stamp == x;
      assert d in s'.clients && s'.clients[d].cache == s.clients[d].cache;
    }
    forall x | x in CachedStamps(s'.clients) ensures x in CachedStamps(s.clients) {
      var d :| d in s'.clients && s'.clients[d].cache.Some? && s'.clients[d].cache.value.stamp == x;
      assert d in s.clients && s'.clients[d].cache == s.clients[d].cache;
    }
  }

  /** A step that touches one client, no stamp and no fence. */
  lemma PutKeeps(s: State, c: nat, me: Client)
    requires Inv(s) && c in s.clients && me.cache == s.clients[c].cache
    requires ClientOk(s.authority, me) && OnFence(s.generations, c, me.task)
    ensures Inv(Put(s, c, me))
  {
    SameStamps(s, c, me);
  }

  /** A step that leaves clients, stamps and fences alone. */
  lemma EnvironmentKeeps(s: State, s': State)
    requires Inv(s) && s'.clients == s.clients && s'.generations == s.generations
    requires ProjectionOk(s'.authority) && StampsOk(s')
    requires Revision(s.authority.document) <= Revision(s'.authority.document)
    ensures Inv(s')
  {
  }

  /** A fence move never moves another thread of that fence. */
  lemma OthersStay(fence: Fence.State, move: Fence.Action, c: nat)
    requires match move case MarkCurrent => true case Publish(_) => true case Wait => true case _ => move.t != c
    ensures Fence.Pc(Fence.Apply(fence, move), c) == Fence.Pc(fence, c)
  {
    match move
    case Step(t, spurious) => FenceSafety.OtherThread(fence, t, spurious, c);
    case _ =>
  }

  /** Everybody but the activating clients moves on a fence. */
  lemma FenceMoveKeeps(s: State, g: nat, move: Fence.Action)
    requires Inv(s) && g in s.generations && ByOthers(s, g, move)
    ensures Inv(Moved(s, g, move))
  {
    Fence.ApplyKeeps(s.generations[g], move);
    var s' := Moved(s, g, move);
    forall c | c in s.clients ensures OnFence(s'.generations, c, s.clients[c].task) {
      assert OnFence(s.generations, c, s.clients[c].task);
      if Uses(s.clients[c].task, g) { OthersStay(s.generations[g], move, c); }
    }
  }

  /** An activating client moves on its own fence. */
  lemma OwnMoveKeeps(s: State, c: nat, g: nat, move: Fence.Action, me: Client)
    requires Inv(s) && c in s.clients && g in s.generations
    requires (move.StartCommit? || move.Step? || move.EndCommit?) && move.t == c
    requires me.cache == s.clients[c].cache && ClientOk(s.authority, me)
    requires OnFence(Moved(s, g, move).generations, c, me.task)
    ensures Inv(Put(Moved(s, g, move), c, me))
  {
    Fence.ApplyKeeps(s.generations[g], move);
    var s' := Put(Moved(s, g, move), c, me);
    SameStamps(Moved(s, g, move), c, me);
    forall d | d in s'.clients ensures OnFence(s'.generations, d, s'.clients[d].task) {
      if d != c {
        assert OnFence(s.generations, d, s.clients[d].task);
        if Uses(s.clients[d].task, g) { OthersStay(s.generations[g], move, d); }
      }
    }
  }

  lemma IssueKeeps(s: State, c: nat, draws: seq<Option<Stamp>>)
    requires Inv(s) && c in s.clients && s.clients[c].task.Idle?
    ensures Inv(Apply(s, DoIssue(c, draws)))
  {
    var old_ := s.clients[c].cache;
    var (authority, cache, _) := Issue(s.authority, s.clients[c].family, old_, draws);
    var s' := Apply(s, DoIssue(c, draws));
    if cache == old_ {
      PutKeeps(s, c, s.clients[c]);
      assert s' == Put(s, c, s.clients[c]);
    } else {
      assert !s.authority.closed && cache.Some? && cache.value.stamp !in CachedStamps(s.clients);
      forall d | d in s.clients && d != c && s.clients[d].cache.Some?
        ensures s.clients[d].cache.value.stamp in CachedStamps(s.clients)
        ensures old_.Some? ==> s.clients[d].cache.value.stamp != old_.value.stamp {}
      assert forall d | d in s.clients && d != c :: s'.clients[d] == s.clients[d];
      assert s'.clients[c].cache == cache;
      assert StampsOk(s') by {
        forall x | x in s'.authority.liveStamps ensures x in CachedStamps(s'.clients) {
          if x != cache.value.stamp {
            var d :| d in s.clients && s.clients[d].cache.Some? && s.clients[d].cache.value.stamp == x;
            assert d in s'.clients && d != c;
          }
        }
        forall x | x in CachedStamps(s'.clients) ensures x in s'.authority.liveStamps {
          var d :| d in s'.clients && s'.clients[d].cache.Some? && s'.clients[d].cache.value.stamp == x;
        }
      }
    }
  }

  lemma UncachedStamps(s: State, c: nat, me: Client)
    requires c !in s.clients && me.cache.None?
    ensures CachedStamps(Put(s, c, me).clients) == CachedStamps(s.clients)
  {
    var s' := Put(s, c, me);
    forall x | x in CachedStamps(s.clients) ensures x in CachedStamps(s'.clients) {
      var d :| d in s.clients && s.clients[d].cache.Some? && s.clients[d].cache.value.stamp == x;
      assert d in s'.clients && s'.clients[d] == s.clients[d];
    }
  }

  lemma NewClientKeeps(s: State, c: nat, family: Family)
    requires Inv(s) && c !in s.clients
    ensures Inv(Apply(s, NewClient(c, family)))
  {
    var me := Client(family, None, None, Idle, None);
    UncachedStamps(s, c, me);
    assert StampsDistinct(Put(s, c, me).clients) <== StampsDistinct(s.clients);
  }

  lemma DropClientKeeps(s: State, c: nat)
    requires Inv(s) && c in s.clients && s.clients[c].task.Idle?
    ensures Inv(Apply(s, DropClient(c)))
  {
    var s' := Apply(s, DropClient(c));
    if !s.authority.closed {
      forall x | x in s'.authority.liveStamps ensures x in CachedStamps(s'.clients) {
        var d :| d in s.clients && s.clients[d].cache.Some? && s.clients[d].cache.value.stamp == x;
        assert d != c && d in s'.clients;
      }
      forall x | x in CachedStamps(s'.clients) ensures x in s'.authority.liveStamps {
        var d :| d in s'.clients && s'.clients[d].cache.Some? && s'.clients[d].cache.value.stamp == x;
        assert d in s.clients && x in CachedStamps(s.clients);
      }
      assert s'.authority.liveStamps == CachedStamps(s'.clients);
    }
  }

  lemma BeginKeeps(s: State, c: nat, stamp: Stamp, g: nat)
    requires Inv(s) && c in s.clients && s.clients[c].task.Idle? && HasActivity(s, c, g)
    ensures Inv(StepBegin(s, c, stamp, g))
  {
    PutKeeps(s, c, StepBegin(s, c, stamp, g).clients[c]);
  }

  lemma LoadKeeps(s: State, c: nat, failure: Option<ActivationError>)
    requires Inv(s) && c in s.clients && s.clients[c].task.Preparing?
    ensures Inv(StepLoad(s, c, failure))
  {
    assert OnFence(s.generations, c, s.clients[c].task);
    PutKeeps(s, c, StepLoad(s, c, failure).clients[c]);
  }

  lemma LockKeeps(s: State, c: nat)
    requires Inv(s) && Placed(s, c) && s.clients[c].task.Prepared?
    ensures Inv(StepLock(s, c))
  {
    var me, g := s.clients[c], s.clients[c].task.generation;
    assert OnFence(s.generations, c, me.task);
    if s.generations[g].lock.None? {
      if s.generations[g].poisoned {
        PutKeeps(s, c, Finish(me, Err(Unavailable)));
      } else {
        OwnMoveKeeps(s, c, g, Fence.StartCommit(c), StepLock(s, c).clients[c]);
      }
    }
  }

  lemma OpenWindowKeeps(s: State, c: nat)
    requires Inv(s) && Placed(s, c) && s.clients[c].task.Locked?
    ensures Inv(StepOpenWindow(s, c))
  {
    assert OnFence(s.generations, c, s.clients[c].task);
    OwnMoveKeeps(s, c, s.clients[c].task.generation, Fence.Step(c, false), StepOpenWindow(s, c).clients[c]);
  }

  lemma CommitKeeps(s: State, c: nat)
    requires Inv(s) && Placed(s, c) && s.clients[c].task.Window?
    ensures Inv(StepCommit(s, c))
  {
    assert ClientOk(s.authority, s.clients[c]);
    OwnMoveKeeps(s, c, s.clients[c].task.generation, Fence.EndCommit(c, false), StepCommit(s, c).clients[c]);
  }

  lemma NewGenerationKeeps(s: State, g: nat, epoch: nat)
    requires Inv(s) && g !in s.generations
    ensures Inv(s.(generations := s.generations[g := Fence.Init(epoch)]))
  {
    FenceSafety.InitHolds(epoch);
    var s' := s.(generations := s.generations[g := Fence.Init(epoch)]);
    forall c | c in s.clients ensures OnFence(s'.generations, c, s.clients[c].task) {
      assert OnFence(s.generations, c, s.clients[c].task);
    }
  }

  lemma ActivationKeeps(s: State, a: Action)
    requires Inv(s) && (a.Begin? || a.Load? || a.LockCommit? || a.OpenWindow? || a.Commit? || a.Collect?)
    ensures Inv(Apply(s, a))
  {
    if Apply(s, a) != s {
      match a
      case Begin(c, stamp, g) => BeginKeeps(s, c, stamp, g);
      case Load(c, failure) => LoadKeeps(s, c, failure);
      case LockCommit(c) => LockKeeps(s, c);
      case OpenWindow(c) => OpenWindowKeeps(s, c);
      case Commit(c) => CommitKeeps(s, c);
      case Collect(c) => PutKeeps(s, c, s.clients[c].(task := Idle));
    }
  }

  /** One action of any client, of the publisher or of anybody on a fence keeps the invariant. */
  lemma ApplyKeeps(s: State, a: Action)
    requires Inv(s)
    ensures Inv(Apply(s, a))
  {
    match a
    case DoIssue(c, draws) =>
      if c in s.clients && !Borrowed(s.clients[c].task) { IssueKeeps(s, c, draws); }
    case NewClient(c, family) => if c !in s.clients { NewClientKeeps(s, c, family); }
    case DropClient(c) =>
      if c in s.clients && !Borrowed(s.clients[c].task) { DropClientKeeps(s, c); }
    case DoPublish(d) => EnvironmentKeeps(s, Apply(s, a));
    case DoClose => EnvironmentKeeps(s, Apply(s, a));
    case DoPoison => EnvironmentKeeps(s, Apply(s, a));
    case NewGeneration(g, epoch) => if g !in s.generations { NewGenerationKeeps(s, g, epoch); }
    case FenceMove(g, move) =>
      if g in s.generations && ByOthers(s, g, move) { FenceMoveKeeps(s, g, move); }
    case _ => ActivationKeeps(s, a);
  }
}
