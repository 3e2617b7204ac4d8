/** What the locked replacement guarantees in every run, whatever fails, crashes or loses power. */
module OwnedFileSafety {
  import opened Prelude
  import opened OwnedFile

  ghost predicate Reachable<C>(u: Update<C>, max: nat, base: Option<Bytes>, s: State<C>, moves: seq<(nat, Action<C>)>) {
    s == Run(u, max, base, Start(base), moves)
  }

  lemma ReachableIsGood<C>(u: Update<C>, max: nat, base: Option<Bytes>, s: State<C>, moves: seq<(nat, Action<C>)>)
    requires Reachable(u, max, base, s, moves)
    ensures Inv(u, max, base, s)
  {
    StartHolds(u, max, base);
    RunKeeps(u, max, base, Start(base), moves);
  }

  /** The target is absent or holds exactly the last complete document published. */
  lemma TargetIsComplete<C>(u: Update<C>, max: nat, base: Option<Bytes>, s: State<C>, moves: seq<(nat, Action<C>)>)
    requires Reachable(u, max, base, s, moves)
    ensures TargetInode(s).Some? ==> TargetInode(s).value in s.files
    ensures Contents(s, TargetInode(s)) == Latest(base, s)
  {
    ReachableIsGood(u, max, base, s, moves);
    assert Backed(base, s, |s.log|);
  }

  /** No update is lost: each publication was computed from the one right before it. */
  lemma NoLostUpdate<C>(u: Update<C>, max: nat, base: Option<Bytes>, s: State<C>, moves: seq<(nat, Action<C>)>, i: nat)
    requires Reachable(u, max, base, s, moves) && i < |s.log|
    ensures u(LatestAt(base, s.log, i), s.log[i].command) == Some(s.log[i].bytes) && |s.log[i].bytes| <= max
  {
    ReachableIsGood(u, max, base, s, moves);
    assert ComputedFromPrevious(u, max, base, s.log, i);
  }

  /** A reader without the lock gets one complete published document: the latest one when it opened the file. */
  lemma ReadersSeeWhatWasPublished<C>(
    u: Update<C>, max: nat, base: Option<Bytes>, s: State<C>, moves: seq<(nat, Action<C>)>, p: nat)
    requires Reachable(u, max, base, s, moves) && PcOf(s, p).ReaderDone?
    ensures PcOf(s, p).seen <= |s.log| && PcOf(s, p).result == LatestAt(base, s.log, PcOf(s, p).seen)
  {
    ReachableIsGood(u, max, base, s, moves);
  }

  lemma OnlyTheHolderIsInside<C>(
    u: Update<C>, max: nat, base: Option<Bytes>, s: State<C>, moves: seq<(nat, Action<C>)>, p: nat, q: nat)
    requires Reachable(u, max, base, s, moves) && Holding(PcOf(s, p)) && Holding(PcOf(s, q))
    ensures p == q
  {
    ReachableIsGood(u, max, base, s, moves);
  }

  /**
   * A call that returned published its own command once if it reports success or an error from after its
   * rename, and nothing otherwise. Its publications are those it made since it began.
   */
  lemma PublishedIff<C>(
    u: Update<C>, max: nat, base: Option<Bytes>, s: State<C>, moves: seq<(nat, Action<C>)>, p: nat)
    requires Reachable(u, max, base, s, moves) && PcOf(s, p).Returned?
    ensures var error := PcOf(s, p).error;
            (exists i :: ByCall(s, p, i)) <==> error.None? || AfterRename(error.value)
    ensures forall i :: ByCall(s, p, i) ==> PublishedOnce(s, p, PcOf(s, p).command, i)
  {
    ReachableIsGood(u, max, base, s, moves);
    assert CallOk(s, p, PcOf(s, p));
  }

  /** A success is on disk: its publication is among those that a loss of power keeps. */
  lemma SuccessIsDurable<C>(
    u: Update<C>, max: nat, base: Option<Bytes>, s: State<C>, moves: seq<(nat, Action<C>)>, p: nat)
    returns (i: nat)
    requires Reachable(u, max, base, s, moves) && PcOf(s, p).Returned? && PcOf(s, p).error.None?
    ensures i < s.durable <= |s.log| && PublishedOnce(s, p, PcOf(s, p).command, i)
  {
    ReachableIsGood(u, max, base, s, moves);
    assert CallOk(s, p, PcOf(s, p));
    i :| PublishedOnce(s, p, PcOf(s, p).command, i) && i < s.durable;
  }

  /** What a loss of power keeps now, every later state keeps. */
  ghost predicate KeepsDurable<C>(s: State<C>, t: State<C>) {
    s.durable <= |s.log| && s.durable <= t.durable <= |t.log| && t.log[..s.durable] == s.log[..s.durable]
  }

  lemma OneStepKeepsDurable<C>(u: Update<C>, max: nat, base: Option<Bytes>, s: State<C>, p: nat, a: Action<C>)
    requires s.durable <= |s.log|
    ensures KeepsDurable(s, Apply(u, max, base, s, p, a))
  {
  }

  lemma {:induction false} DurableStays<C>(
    u: Update<C>, max: nat, base: Option<Bytes>, s: State<C>, later: seq<(nat, Action<C>)>)
    requires s.durable <= |s.log|
    ensures KeepsDurable(s, Run(u, max, base, s, later))
    decreases |later|
  {
    if later != [] {
      var t := Apply(u, max, base, s, later[0].0, later[0].1);
      OneStepKeepsDurable(u, max, base, s, later[0].0, later[0].1);
      DurableStays(u, max, base, t, later[1..]);
      Prefixes(t.log, Run(u, max, base, t, later[1..]).log, s.durable, t.durable);
    }
  }

  lemma Prefixes<T>(a: seq<T>, b: seq<T>, m: nat, n: nat)
    requires m <= n <= |a| && n <= |b| && a[..n] == b[..n]
    ensures a[..m] == b[..m]
  {
    assert a[..m] == a[..n][..m] && b[..m] == b[..n][..m];
  }

  /** The comparison of inodes after the rename never fails: only a system error can follow it. */
  lemma RenamedFileIsFound<C>(u: Update<C>, max: nat, base: Option<Bytes>, s: State<C>, moves: seq<(nat, Action<C>)>,
                              p: nat, chunk: nat, id: nat, inode: nat)
    requires Reachable(u, max, base, s, moves) && PcOf(s, p).Renamed?
    ensures PcOf(Advance(u, max, s, p, chunk, id, inode), p) == Verified(PcOf(s, p).command)
  {
    ReachableIsGood(u, max, base, s, moves);
    CompareKeeps(u, max, base, s, p);
  }

  // ----- an error after the rename -------------------------------------------

  lemma {:induction false} Then<C>(
    u: Update<C>, max: nat, base: Option<Bytes>, s: State<C>, moves: seq<(nat, Action<C>)>, m: (nat, Action<C>))
    ensures Run(u, max, base, s, moves + [m]) == Apply(u, max, base, Run(u, max, base, s, moves), m.0, m.1)
    decreases |moves|
  {
    if moves == [] {
      assert [] + [m] == [m] && [m][1..] == [];
    } else {
      assert (moves + [m])[0] == moves[0] && (moves + [m])[1..] == moves[1..] + [m];
      Then(u, max, base, Apply(u, max, base, s, moves[0].0, moves[0].1), moves[1..], m);
    }
  }

  /** One process alone, that holds the lock. */
  lemma AloneToLocked<C>(u: Update<C>, max: nat, c: C) returns (moves: seq<(nat, Action<C>)>)
    ensures Run(u, max, None, Start<C>(None), moves) ==
            State(map[], map[], {}, Some(7), map[7 := Locked(c)], {}, map[7 := 0], 0, [])
  {
    var go: (nat, Action<C>) := (7, Proceed(0, 0, 0));
    moves := [];
    Then(u, max, None, Start(None), moves, (7, BeginUpdate(c)));
    moves := moves + [(7, BeginUpdate(c))];
    Then(u, max, None, Start(None), moves, go);
    moves := moves + [go];
  }

  /** The same process with its new bytes computed. */
  lemma AloneToReplacing<C>(u: Update<C>, max: nat, c: C, bytes: Bytes) returns (moves: seq<(nat, Action<C>)>)
    requires u(None, c) == Some(bytes) && |bytes| <= max
    ensures Run(u, max, None, Start<C>(None), moves) ==
            State(map[], map[], {}, Some(7), map[7 := Replacing(c, bytes)], {}, map[7 := 0], 0, [])
  {
    var go: (nat, Action<C>) := (7, Proceed(0, 0, 0));
    moves := AloneToLocked(u, max, c);
    Then(u, max, None, Start(None), moves, go);
    moves := moves + [go];
    Then(u, max, None, Start(None), moves, go);
    moves := moves + [go];
    Then(u, max, None, Start(None), moves, go);
    moves := moves + [go];
  }

  /** The same process with its temporary file written and synced. */
  lemma AloneToSynced<C>(u: Update<C>, max: nat, c: C, bytes: Bytes) returns (moves: seq<(nat, Action<C>)>)
    requires u(None, c) == Some(bytes) && 0 < |bytes| <= max
    ensures Run(u, max, None, Start<C>(None), moves) ==
            State(map[Temporary(0) := 0], map[0 := bytes], {0}, Some(7), map[7 := Synced(c, bytes, 0, 0)],
                  {}, map[7 := 0], 0, [])
  {
    var go: (nat, Action<C>) := (7, Proceed(|bytes|, 0, 0));
    moves := AloneToReplacing(u, max, c, bytes);
    Then(u, max, None, Start(None), moves, go);
    moves := moves + [go];
    Then(u, max, None, Start(None), moves, go);
    moves := moves + [go];
    assert bytes[..|bytes|] == bytes;
    Then(u, max, None, Start(None), moves, go);
    moves := moves + [go];
  }

  lemma AloneToRenamed<C>(u: Update<C>, max: nat, c: C, bytes: Bytes) returns (moves: seq<(nat, Action<C>)>)
    requires u(None, c) == Some(bytes) && 0 < |bytes| <= max
    ensures Run(u, max, None, Start<C>(None), moves) ==
            State(map[Target := 0], map[0 := bytes], {0}, Some(7), map[7 := Renamed(c, 0)],
                  {0}, map[7 := 0], 0, [Publication(7, 0, c, bytes)])
  {
    var go: (nat, Action<C>) := (7, Proceed(|bytes|, 0, 0));
    moves := AloneToSynced(u, max, c, bytes);
    Then(u, max, None, Start(None), moves, go);
    moves := moves + [go];
  }

  /** An error result does not mean that nothing was published: this run reports one and published. */
  lemma ErrorAfterPublication<C>(u: Update<C>, max: nat, c: C, bytes: Bytes) returns (moves: seq<(nat, Action<C>)>)
    requires u(None, c) == Some(bytes) && 0 < |bytes| <= max
    ensures var s := Run(u, max, None, Start<C>(None), moves);
            && PcOf(s, 7).Returned? && PcOf(s, 7).error == Some(SyncDirectory)
            && s.entries == map[Target := 0] && s.files == map[0 := bytes]
  {
    var go: (nat, Action<C>) := (7, Proceed(|bytes|, 0, 0));
    moves := AloneToRenamed(u, max, c, bytes);
    Then(u, max, None, Start(None), moves, go);
    moves := moves + [go];
    Then(u, max, None, Start(None), moves, (7, FailHere));
    moves := moves + [(7, FailHere)];
    Then(u, max, None, Start(None), moves, go);
    moves := moves + [go];
  }

  /** Without the directory sync it would be lost: the same document may be gone after a loss of power. */
  lemma UnsyncedMayBeLost<C>(u: Update<C>, max: nat, c: C, bytes: Bytes) returns (moves: seq<(nat, Action<C>)>)
    requires u(None, c) == Some(bytes) && 0 < |bytes| <= max
    ensures TargetInode(Run(u, max, None, Start<C>(None), moves)) == Some(0)
    ensures TargetInode(Run(u, max, None, Start<C>(None), moves + [(7, PowerLoss(0, map[], map[]))])).None?
  {
    moves := AloneToRenamed(u, max, c, bytes);
    Then(u, max, None, Start(None), moves, (7, PowerLoss(0, map[], map[])));
  }

  // ----- compare and swap ----------------------------------------------------

  /** The update refuses unless the stored rank is the expected one, and raises it. */
  ghost predicate ComparesAndSwaps<C(!new)>(u: Update<C>, rank: Option<Bytes> -> int, expects: C -> int) {
    forall current, c :: u(current, c).Some? ==> rank(current) == expects(c) < rank(u(current, c))
  }

  lemma {:induction false} RanksGrow<C(!new)>(u: Update<C>, max: nat, base: Option<Bytes>, log: seq<Publication<C>>,
                                              rank: Option<Bytes> -> int, expects: C -> int, i: nat, j: nat)
    requires Chain(u, max, base, log) && ComparesAndSwaps(u, rank, expects) && i < j <= |log|
    ensures rank(LatestAt(base, log, i)) < rank(LatestAt(base, log, j))
    decreases j - i
  {
    assert ComputedFromPrevious(u, max, base, log, j - 1);
    if i + 1 < j { RanksGrow(u, max, base, log, rank, expects, i, j - 1); }
  }

  /** In one run, no two publications were made on the same expectation. */
  lemma OnePublicationPerExpectation<C(!new)>(u: Update<C>, max: nat, base: Option<Bytes>, s: State<C>,
                                              moves: seq<(nat, Action<C>)>, rank: Option<Bytes> -> int,
                                              expects: C -> int,
                                              i: nat, j: nat)
    requires Reachable(u, max, base, s, moves) && ComparesAndSwaps(u, rank, expects) && i < j < |s.log|
    ensures expects(s.log[i].command) < expects(s.log[j].command)
  {
    ReachableIsGood(u, max, base, s, moves);
    RanksGrow(u, max, base, s.log, rank, expects, i, j);
    assert ComputedFromPrevious(u, max, base, s.log, i) && ComputedFromPrevious(u, max, base, s.log, j);
  }

  /** Two processes that expected the same state never both succeed. */
  lemma OneWinner<C(!new)>(u: Update<C>, max: nat, base: Option<Bytes>, s: State<C>, moves: seq<(nat, Action<C>)>,
                           rank: Option<Bytes> -> int, expects: C -> int, p: nat, q: nat)
    requires Reachable(u, max, base, s, moves) && ComparesAndSwaps(u, rank, expects) && p != q
    requires PcOf(s, p).Returned? && PcOf(s, p).error.None?
    requires PcOf(s, q).Returned? && PcOf(s, q).error.None?
    ensures expects(PcOf(s, p).command) != expects(PcOf(s, q).command)
  {
    var i := SuccessIsDurable(u, max, base, s, moves, p);
    var j := SuccessIsDurable(u, max, base, s, moves, q);
    if i < j { OnePublicationPerExpectation(u, max, base, s, moves, rank, expects, i, j); }
    if j < i { OnePublicationPerExpectation(u, max, base, s, moves, rank, expects, j, i); }
  }

  /** When every update adds one to the rank, the n-th publication has rank base plus n. */
  lemma {:induction false} RanksCount<C(!new)>(u: Update<C>, max: nat, base: Option<Bytes>, log: seq<Publication<C>>,
                                               rank: Option<Bytes> -> int, n: nat)
    requires Chain(u, max, base, log) && n <= |log|
    requires forall current, c :: u(current, c).Some? ==> rank(u(current, c)) == rank(current) + 1
    ensures rank(LatestAt(base, log, n)) == rank(base) + n
  {
    if n > 0 {
      RanksCount(u, max, base, log, rank, n - 1);
      assert ComputedFromPrevious(u, max, base, log, n - 1);
    }
  }
}
