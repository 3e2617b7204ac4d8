/** What holds over every run of Pack publication, issue and activation. */
module PackSafety {
  import opened Prelude

  import opened PackSelection
  import Fence = GenerationFence
  import Word = GenerationWord

  function Init(): State {
    State(NewAuthority(), map[], map[])
  }

  ghost function Run(s: State, actions: seq<Action>): State
    requires Inv(s)
    ensures Inv(Run(s, actions))
    decreases |actions|
  {
    if actions == [] then s
    else
      ApplyKeeps(s, actions[0]);
      Run(Apply(s, actions[0]), actions[1..])
  }

  lemma InitHolds()
    ensures Inv(Init())
  {
  }

  /** While the authority is open the live stamps are exactly the cached ones, and no two clients share one. */
  lemma LiveStampsAreCached(actions: seq<Action>)
    ensures Inv(Init())
    ensures var s := Run(Init(), actions);
      if s.authority.closed then s.authority.liveStamps == {}
      else
        && (forall x :: x in s.authority.liveStamps <==>
              exists c :: c in s.clients && s.clients[c].cache.Some? && s.clients[c].cache.value.stamp == x)
        && (forall c, d | c in s.clients && d in s.clients && c != d
              && s.clients[c].cache.Some? && s.clients[d].cache.Some? ::
              s.clients[c].cache.value.stamp != s.clients[d].cache.value.stamp)
  {
    InitHolds();
    var s := Run(Init(), actions);
    if !s.authority.closed {
      forall x ensures x in s.authority.liveStamps <==>
        exists c :: c in s.clients && s.clients[c].cache.Some? && s.clients[c].cache.value.stamp == x
      {
        assert x in s.authority.liveStamps <==> x in CachedStamps(s.clients);
      }
    }
  }

  /** The projection always is the projection of the accepted document, family by family. */
  lemma ProjectionFollowsDocument(actions: seq<Action>, f: Family)
    ensures Inv(Init())
    ensures var a := Run(Init(), actions).authority;
      Current(a, f) == if a.document.Some? then Selected(a.document.value.composition, f) else []
  {
    InitHolds();
  }

  // ----- revisions -----------------------------------------------------------

  lemma DocumentStep(s: State, a: Action)
    requires Inv(s)
    ensures var d, d' := s.authority.document, Apply(s, a).authority.document;
      d' == d || Revision(d') > Revision(d)
  {
  }

  /** Accepted revisions never regress, and one revision never names two documents. */
  lemma {:induction false} RevisionsOnlyGrow(s: State, actions: seq<Action>)
    requires Inv(s)
    ensures var d, d' := s.authority.document, Run(s, actions).authority.document;
      d' == d || Revision(d') > Revision(d)
    decreases |actions|
  {
    if actions != [] {
      DocumentStep(s, actions[0]);
      ApplyKeeps(s, actions[0]);
      RevisionsOnlyGrow(Apply(s, actions[0]), actions[1..]);
    }
  }

  /** Two publications that an authority is offered one after the other. */
  function Offered(a: Authority, d: Option<Document>, e: Option<Document>): Authority {
    Publish(Publish(a, d).0, e).0
  }

  /**
   * The order in which two publications reach an open authority does not matter, unless both are newer than
   * what it accepted and are different documents under one revision: then the first one stays.
   */
  lemma PublicationsCommuteIff(a: Authority, d: Option<Document>, e: Option<Document>)
    requires !a.closed && !a.poisoned && ProjectionOk(a)
    ensures Offered(a, d, e).document == Offered(a, e, d).document <==>
      !(Revision(d) == Revision(e) > Revision(a.document) && d != e)
    ensures Offered(a, d, e).document == Offered(a, e, d).document ==> Offered(a, d, e) == Offered(a, e, d)
  {
    assert Revision(d) > Revision(a.document) ==> ProjectionOk(Publish(a, d).0);
    assert Revision(e) > Revision(a.document) ==> ProjectionOk(Publish(a, e).0);
  }

  // ----- activation ----------------------------------------------------------

  /** The action is client `c`'s own. */
  predicate Concerns(a: Action, c: nat) {
    (a.DoIssue? || a.NewClient? || a.DropClient? || a.Begin? || a.Load? || a.LockCommit? || a.OpenWindow?
     || a.Commit? || a.Collect?) && a.c == c
  }

  lemma OthersLeaveClient(s: State, a: Action, c: nat)
    requires |s.authority.projection| == |ALL_FAMILIES| && c in s.clients && !Concerns(a, c)
    ensures c in Apply(s, a).clients && Apply(s, a).clients[c] == s.clients[c]
  {
  }

  lemma OnlyCommitTouchesActive(s: State, a: Action, c: nat)
    requires Inv(s) && c in s.clients && c in Apply(s, a).clients && a != Commit(c)
    ensures Apply(s, a).clients[c].active == s.clients[c].active
  {
    if !Concerns(a, c) { OthersLeaveClient(s, a, c); }
  }

  /** A client inside a commit window holds the mutex of a fence that is current. */
  lemma InsideTheWindow(s: State, c: nat)
    requires Inv(s) && c in s.clients && s.clients[c].task.Window?
    ensures var g := s.clients[c].task.generation;
      && g in s.generations && Fence.Inv(s.generations[g]) && Fence.Pc(s.generations[g], c).Committing?
      && Word.Phase(s.generations[g].word) == Word.CURRENT && s.generations[g].lock == Some(c)
  {
    var g := s.clients[c].task.generation;
    assert OnFence(s.generations, c, s.clients[c].task);
    var fence := s.generations[g];
    assert Fence.PcOk(fence, Fence.Pc(fence, c));
    assert Fence.HoldsLock(Fence.Pc(fence, c)) <==> fence.lock == Some(c);
  }

  /**
   * The active set of a client changes only by its own commit. At that moment
   * its generation is current, the authority is open, and the target is at once
   * the client's cached selection and the latest projection; the new set is the
   * target's Packs in order.
   */
  lemma ActiveChangesOnlyByCommit(s: State, a: Action, c: nat)
    requires Inv(s) && c in s.clients && c in Apply(s, a).clients
    requires Apply(s, a).clients[c].active != s.clients[c].active
    ensures a == Commit(c) && s.clients[c].task.Window?
    ensures var t := s.clients[c].task;
      && t.generation in s.generations && Word.Phase(s.generations[t.generation].word) == Word.CURRENT
      && !s.authority.closed && !s.authority.poisoned
      && s.clients[c].cache == Some(t.target)
      && t.target.revision == Revision(s.authority.document)
      && t.target.packIds == Current(s.authority, s.clients[c].family)
      && Apply(s, a).clients[c].active == Some(ActiveSet(t.target, t.target.packIds))
      && Apply(s, a).clients[c].task == Finished(Ok(t.target.stamp))
  {
    if a != Commit(c) {
      OnlyCommitTouchesActive(s, a, c);
      assert false;
    } else {
      assert ClientOk(s.authority, s.clients[c]);
      InsideTheWindow(s, c);
    }
  }

  /**
   * Activation is all or nothing: a failed one leaves the set it found, a
   * successful one leaves exactly its target's Packs, in order.
   */
  lemma ActivationIsAtomic(actions: seq<Action>, c: nat)
    ensures Inv(Init())
    ensures var s := Run(Init(), actions);
      c in s.clients && s.clients[c].task.Finished? ==>
        match s.clients[c].task.outcome
        case Err(_) => s.clients[c].active == s.clients[c].before
        case Ok(stamp) =>
          && s.clients[c].active.Some?
          && s.clients[c].active.value.target.stamp == stamp
          && s.clients[c].active.value.packs == s.clients[c].active.value.target.packIds
  {
    InitHolds();
    var s := Run(Init(), actions);
    if c in s.clients { assert ClientOk(s.authority, s.clients[c]); }
  }

  /** While an activation is under way the previous set stays active. */
  lemma PreviousSetStaysActive(actions: seq<Action>, c: nat)
    ensures Inv(Init())
    ensures var s := Run(Init(), actions);
      (c in s.clients && (s.clients[c].task.Preparing? || s.clients[c].task.Prepared? || s.clients[c].task.Window?))
      ==> s.clients[c].active == s.clients[c].before
  {
    InitHolds();
    var s := Run(Init(), actions);
    if c in s.clients { assert ClientOk(s.authority, s.clients[c]); }
  }

  /**
   * While a client is inside the commit window of a generation nobody retires it: whatever else happens, on
   * this fence or elsewhere, it stays current until that client leaves the window.
   */
  lemma WindowBlocksRetirement(s: State, c: nat, g: nat, a: Action)
    requires Inv(s) && c in s.clients && s.clients[c].task.Window? && s.clients[c].task.generation == g
    ensures g in s.generations && Word.Phase(s.generations[g].word) == Word.CURRENT
    ensures a != Commit(c) ==>
      var s' := Apply(s, a);
      && c in s'.clients && s'.clients[c].task == s.clients[c].task
      && g in s'.generations && Word.Phase(s'.generations[g].word) == Word.CURRENT
  {
    InsideTheWindow(s, c);
    if a != Commit(c) {
      ApplyKeeps(s, a);
      TaskStays(s, a, c);
      InsideTheWindow(Apply(s, a), c);
    }
  }

  lemma TaskStays(s: State, a: Action, c: nat)
    requires Inv(s) && c in s.clients && s.clients[c].task.Window? && a != Commit(c)
    ensures c in Apply(s, a).clients && Apply(s, a).clients[c] == s.clients[c]
  {
    if !Concerns(a, c) { OthersLeaveClient(s, a, c); }
  }

  /** Where an activation stands that began on `target` when the accepted document was that of `begun`. */
  ghost predicate Since(begun: Authority, s: State, c: nat, target: Selection) {
    && c in s.clients && Borrowed(s.clients[c].task)
    && s.clients[c].cache == Some(target)
    && (!s.clients[c].task.Finished? ==> s.clients[c].task.target == target)
    && (s.authority.document == begun.document || Revision(s.authority.document) > Revision(begun.document))
  }

  lemma SinceOwnStep(begun: Authority, s: State, a: Action, c: nat, target: Selection)
    requires Inv(s) && Since(begun, s, c, target) && a != Collect(c) && Concerns(a, c)
    ensures Since(begun, Apply(s, a), c, target) && Apply(s, a).clients[c].family == s.clients[c].family
  {
    assert Apply(s, a).authority == s.authority;
  }

  lemma SinceStep(begun: Authority, s: State, a: Action, c: nat, target: Selection)
    requires Inv(s) && Since(begun, s, c, target) && a != Collect(c)
    ensures Since(begun, Apply(s, a), c, target) && Apply(s, a).clients[c].family == s.clients[c].family
  {
    if Concerns(a, c) {
      SinceOwnStep(begun, s, a, c, target);
    } else {
      DocumentStep(s, a);
      OthersLeaveClient(s, a, c);
    }
  }

  lemma {:induction false} SinceRun(begun: Authority, s: State, actions: seq<Action>, c: nat, target: Selection)
    requires Inv(s) && Since(begun, s, c, target) && Collect(c) !in actions
    ensures Since(begun, Run(s, actions), c, target) && Run(s, actions).clients[c].family == s.clients[c].family
    decreases |actions|
  {
    if actions != [] {
      SinceStep(begun, s, actions[0], c, target);
      ApplyKeeps(s, actions[0]);
      SinceRun(begun, Apply(s, actions[0]), actions[1..], c, target);
    }
  }

  lemma CommitAnswers(begun: Authority, s: State, c: nat, target: Selection)
    requires Inv(s) && Since(begun, s, c, target) && s.clients[c].task.Window? && ProjectionOk(begun)
    requires IsCurrent(begun, s.clients[c].family, Some(target), target)
    ensures c in Apply(s, Commit(c)).clients && Apply(s, Commit(c)).clients[c].task.Finished?
    ensures Apply(s, Commit(c)).clients[c].task.outcome.Ok? <==>
      !s.authority.closed && !s.authority.poisoned && s.authority.document == begun.document
  {
    InsideTheWindow(s, c);
    assert s.authority.document == begun.document ==> s.authority.projection == begun.projection;
  }

  /**
   * An activation that reaches its commit succeeds exactly when the authority is still open and nothing was
   * accepted since the activation began, whatever else happened in between.
   */
  lemma CommitIffNothingPublished(s: State, stamp: Stamp, g: nat, actions: seq<Action>, c: nat)
    requires Inv(s) && c in s.clients && s.clients[c].task.Idle? && HasActivity(s, c, g)
    requires BeginActivation(s.authority, s.clients[c].family, s.clients[c].cache, stamp).Ok?
    requires Collect(c) !in actions
    ensures Inv(Apply(s, Begin(c, stamp, g)))
    ensures var s' := Run(Apply(s, Begin(c, stamp, g)), actions);
      (c in s'.clients && s'.clients[c].task.Window?) ==>
        && c in Apply(s', Commit(c)).clients && Apply(s', Commit(c)).clients[c].task.Finished?
        && (Apply(s', Commit(c)).clients[c].task.outcome.Ok? <==>
              !s'.authority.closed && !s'.authority.poisoned && s'.authority.document == s.authority.document)
  {
    var target, s0 := s.clients[c].cache.value, StepBegin(s, c, stamp, g);
    BeginKeeps(s, c, stamp, g);
    assert Since(s.authority, s0, c, target) && s0.clients[c].family == s.clients[c].family;
    SinceRun(s.authority, s0, actions, c, target);
    var s' := Run(s0, actions);
    if s'.clients[c].task.Window? { CommitAnswers(s.authority, s', c, target); }
  }

  /** Once a newer document is accepted, no selection issued before it can be begun or committed. */
  lemma NewerDocumentStalesSelections(s: State, d: Option<Document>, c: nat)
    requires Inv(s) && c in s.clients && !s.authority.closed && !s.authority.poisoned
    requires Revision(d) > Revision(s.authority.document)
    ensures var s', me := Apply(s, DoPublish(d)), s.clients[c];
      && Inv(s') && s'.clients == s.clients
      && (forall stamp :: BeginActivation(s'.authority, me.family, me.cache, stamp) == Err(InvalidSelection))
      && (forall target :: CheckCommit(s'.authority, me.family, me.cache, target) == Err(InvalidSelection))
  {
    ApplyKeeps(s, DoPublish(d));
    assert ClientOk(s.authority, s.clients[c]);
  }

  /** Issuing again without a publication in between returns the same selection and draws nothing. */
  lemma IssueIsStable(
    a: Authority, f: Family, cache: Option<Selection>, draws: seq<Option<Stamp>>, later: seq<Option<Stamp>>)
    requires ProjectionOk(a) && Issue(a, f, cache, draws).2.Some?
    ensures var (a', cache', r) := Issue(a, f, cache, draws);
      && |a'.projection| == |ALL_FAMILIES|
      && cache' == r && Issue(a', f, cache', later) == (a', cache', r)
      && IsCurrent(a', f, cache', r.value)
  {
  }

  // ----- stamps --------------------------------------------------------------

  const LOWER_HEX: string := "0123456789abcdef"
  const STAMP_PREFIX: string := "psel1-"

  function HexOf(b: bv8): (h: string)
    ensures |h| == 2
  {
    [LOWER_HEX[(b >> 4) as int], LOWER_HEX[(b & 15) as int]]
  }

  function Hex(bytes: seq<bv8>): (h: string)
    ensures |h| == 2 * |bytes|
  {
    if bytes == [] then "" else HexOf(bytes[0]) + Hex(bytes[1..])
  }

  function EncodeStamp(bytes: seq<bv8>): string { STAMP_PREFIX + Hex(bytes) }

  lemma HexDigits(i: nat, j: nat)
    requires i < 16 && j < 16 && LOWER_HEX[i] == LOWER_HEX[j]
    ensures i == j
  {
  }

  lemma Nibbles(a: bv8, b: bv8)
    requires (a >> 4) as int == (b >> 4) as int && (a & 15) as int == (b & 15) as int
    ensures a == b
  {
    assert a >> 4 == b >> 4 && a & 15 == b & 15;
    assert a == ((a >> 4) << 4) | (a & 15);
    assert b == ((b >> 4) << 4) | (b & 15);
  }

  lemma {:induction false} HexInjective(a: seq<bv8>, b: seq<bv8>)
    requires |a| == |b| && Hex(a) == Hex(b)
    ensures a == b
    decreases |a|
  {
    if a != [] {
      assert Hex(a)[0] == Hex(b)[0] && Hex(a)[1] == Hex(b)[1];
      HexDigits((a[0] >> 4) as int, (b[0] >> 4) as int);
      HexDigits((a[0] & 15) as int, (b[0] & 15) as int);
      Nibbles(a[0], b[0]);
      assert Hex(a)[2..] == Hex(a[1..]) && Hex(b)[2..] == Hex(b[1..]);
      HexInjective(a[1..], b[1..]);
    }
  }

  /** The value of a lower-case hexadecimal digit. */
  function Digit(c: char): nat {
    if '0' <= c <= '9' then c as nat - '0' as nat
    else if 'a' <= c <= 'f' then c as nat - 'a' as nat + 10
    else 0
  }

  function NumberIn(text: string): nat {
    if text == "" then 0 else NumberIn(text[..|text| - 1]) * 16 + Digit(text[|text| - 1])
  }

  function BigEndian(bytes: seq<bv8>): nat {
    if bytes == [] then 0 else BigEndian(bytes[..|bytes| - 1]) * 256 + bytes[|bytes| - 1] as nat
  }

  lemma TwoDigits(b: bv8)
    ensures (b >> 4) as nat < 16 && (b & 15) as nat < 16 && (b >> 4) as nat * 16 + (b & 15) as nat == b as nat
  {
  }

  lemma DigitsRead(i: nat)
    requires i < 16
    ensures Digit(LOWER_HEX[i]) == i
  {
  }

  lemma Regroup(a: string, b: string, c: string)
    ensures a + (b + c) == (a + b) + c
  {
  }

  lemma {:induction false} HexGrows(front: seq<bv8>, b: bv8)
    ensures Hex(front + [b]) == Hex(front) + HexOf(b)
    decreases |front|
  {
    if front != [] {
      assert (front + [b])[0] == front[0] && (front + [b])[1..] == front[1..] + [b];
      HexGrows(front[1..], b);
      Regroup(HexOf(front[0]), Hex(front[1..]), HexOf(b));
    } else {
      assert (front + [b])[1..] == [] && HexOf(b) + "" == HexOf(b) && "" + HexOf(b) == HexOf(b);
    }
  }

  lemma NumberOfByte(text: string, b: bv8)
    ensures NumberIn(text + HexOf(b)) == NumberIn(text) * 256 + b as nat
  {
    TwoDigits(b);
    DigitsRead((b >> 4) as nat);
    DigitsRead((b & 15) as nat);
    NumberOfTwo(text, HexOf(b)[0], HexOf(b)[1]);
  }

  /** The token is the number that the random bytes are, written in base sixteen. */
  lemma {:induction false} HexIsTheNumber(bytes: seq<bv8>)
    ensures NumberIn(Hex(bytes)) == BigEndian(bytes)
    decreases |bytes|
  {
    if bytes != [] {
      var front, b := bytes[..|bytes| - 1], bytes[|bytes| - 1];
      assert bytes == front + [b];
      HexIsTheNumber(front);
      HexGrows(front, b);
      NumberOfByte(Hex(front), b);
    }
  }

  lemma NumberOfTwo(text: string, x: char, y: char)
    ensures NumberIn(text + [x, y]) == (NumberIn(text) * 16 + Digit(x)) * 16 + Digit(y)
  {
    assert (text + [x, y])[..|text| + 1] == text + [x] && (text + [x])[..|text|] == text;
  }

  /** Sixteen random bytes make one 38-character token, and different bytes make different tokens. */
  lemma StampsAreFaithful(a: seq<bv8>, b: seq<bv8>)
    requires |a| == |b| == 16
    ensures |EncodeStamp(a)| == 38 && (EncodeStamp(a) == EncodeStamp(b) <==> a == b)
  {
    if EncodeStamp(a) == EncodeStamp(b) {
      assert EncodeStamp(a)[6..] == Hex(a) && EncodeStamp(b)[6..] == Hex(b);
      HexInjective(a, b);
    }
  }
}
