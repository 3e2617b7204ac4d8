/**
 * What one call on the owned file comes to when nothing disturbs it, from any
 * state that the other processes may have left, and what it reports when one of
 * its system calls fails.
 */
module FileProgress {
  import opened Prelude

  import opened OwnedFile
  import opened OwnedFileSafety

  function Go<C>(p: nat, chunk: nat, id: nat, inode: nat): (nat, Action<C>) { (p, Proceed(chunk, id, inode)) }

  /** `n` steps of process `p`. */
  function Steps<C>(p: nat, chunk: nat, id: nat, inode: nat, n: nat): (moves: seq<(nat, Action<C>)>)
    ensures |moves| == n
  {
    seq(n, i => Go(p, chunk, id, inode))
  }

  lemma MoreSteps<C>(p: nat, chunk: nat, id: nat, inode: nat, n: nat)
    ensures Steps<C>(p, chunk, id, inode, n + 1) == Steps(p, chunk, id, inode, n) + [Go(p, chunk, id, inode)]
  {
  }

  /** One step more leads from `x` to `y`. */
  lemma Then1<C>(u: Update<C>, max: nat, base: Option<Bytes>, s: State<C>, p: nat, chunk: nat, id: nat, inode: nat,
                 n: nat, x: State<C>, y: State<C>)
    requires Run(u, max, base, s, Steps(p, chunk, id, inode, n)) == x
    requires Advance(u, max, x, p, chunk, id, inode) == y
    ensures Run(u, max, base, s, Steps(p, chunk, id, inode, n + 1)) == y
  {
    MoreSteps<C>(p, chunk, id, inode, n);
    Then(u, max, base, s, Steps(p, chunk, id, inode, n), Go(p, chunk, id, inode));
  }

  // ----- an undisturbed call -------------------------------------------------

  /** The process `p` holds the lock at `pc`, and nothing else happened since `s`. */
  function Alone<C>(s: State<C>, p: nat, pc: PC<C>): State<C> {
    s.(procs := s.procs[p := pc], lock := Some(p), begun := s.begun[p := |s.log|])
  }

  lemma Reread<C>(u: Update<C>, max: nat, base: Option<Bytes>, s: State<C>)
    requires Inv(u, max, base, s)
    ensures TargetInode(s).Some? ==> TargetInode(s).value in s.files
    ensures Contents(s, TargetInode(s)) == Latest(base, s)
  {
    assert Backed(base, s, |s.log|);
  }

  lemma Acquires<C>(u: Update<C>, max: nat, s: State<C>, p: nat, c: C, chunk: nat, id: nat, inode: nat)
    requires Free(PcOf(s, p)) && s.lock.None?
    ensures Advance(u, max, BeginCall(s, p, c), p, chunk, id, inode) == Alone(s, p, Locked(c))
  {
    assert BeginCall(s, p, c).procs[p := Locked(c)] == s.procs[p := Locked(c)];
  }

  lemma Opens<C>(u: Update<C>, max: nat, s: State<C>, p: nat, c: C, chunk: nat, id: nat, inode: nat)
    ensures Advance(u, max, Alone(s, p, Locked(c)), p, chunk, id, inode) == Alone(s, p, Opened(c, TargetInode(s)))
  {
    assert s.procs[p := Locked(c)][p := Opened(c, TargetInode(s))] == s.procs[p := Opened(c, TargetInode(s))];
  }

  lemma ReadsIt<C>(
    u: Update<C>, max: nat, base: Option<Bytes>, s: State<C>, p: nat, c: C, chunk: nat, id: nat, inode: nat)
    requires Inv(u, max, base, s)
    ensures Advance(u, max, Alone(s, p, Opened(c, TargetInode(s))), p, chunk, id, inode) ==
            Alone(s, p, HaveCurrent(c, Latest(base, s)))
  {
    Reread(u, max, base, s);
    var pc := Opened(c, TargetInode(s));
    assert Contents(Alone(s, p, pc), TargetInode(s)) == Latest(base, s);
    assert s.procs[p := pc][p := HaveCurrent(c, Latest(base, s))] == s.procs[p := HaveCurrent(c, Latest(base, s))];
  }

  /** From the call to the current document in hand, under the lock. */
  lemma ReadsCurrent<C>(
    u: Update<C>, max: nat, base: Option<Bytes>, s: State<C>, p: nat, c: C, chunk: nat, id: nat, inode: nat)
    requires Inv(u, max, base, s) && Free(PcOf(s, p)) && s.lock.None?
    ensures Run(u, max, base, BeginCall(s, p, c), Steps(p, chunk, id, inode, 3)) ==
            Alone(s, p, HaveCurrent(c, Latest(base, s)))
  {
    var t := BeginCall(s, p, c);
    Acquires(u, max, s, p, c, chunk, id, inode);
    Then1(u, max, base, t, p, chunk, id, inode, 0, t, Alone(s, p, Locked(c)));
    Opens(u, max, s, p, c, chunk, id, inode);
    Then1(u, max, base, t, p, chunk, id, inode, 1, Alone(s, p, Locked(c)), Alone(s, p, Opened(c, TargetInode(s))));
    ReadsIt(u, max, base, s, p, c, chunk, id, inode);
    Then1(u, max, base, t, p, chunk, id, inode, 2, Alone(s, p, Opened(c, TargetInode(s))),
          Alone(s, p, HaveCurrent(c, Latest(base, s))));
  }

  /** The same with the temporary file written in one go. */
  function WithTemporary<C>(s: State<C>, p: nat, pc: PC<C>, id: nat, inode: nat, bytes: Bytes): State<C> {
    var t := Alone(s, p, pc);
    t.(entries := s.entries[Temporary(id) := inode], files := s.files[inode := bytes])
  }

  /** What the replacement leaves: the new document under the target's name, durable, and one publication more. */
  function Replaced<C>(s: State<C>, p: nat, c: C, bytes: Bytes, inode: nat, pc: PC<C>, durable: nat): State<C> {
    var t := Alone(s, p, pc);
    t.(entries := s.entries[Target := inode], files := s.files[inode := bytes], synced := s.synced + {inode},
       sealed := s.sealed + {inode}, log := s.log + [Publication(p, inode, c, bytes)], durable := durable)
  }

  predicate Computes<C>(u: Update<C>, max: nat, base: Option<Bytes>, s: State<C>, c: C, bytes: Bytes) {
    u(Latest(base, s), c) == Some(bytes) && |bytes| <= max
  }

  /** How many steps a call takes: an empty document needs no write. */
  function CallSteps(bytes: Bytes): nat { if bytes == [] then 10 else 11 }

  lemma Decides<C>(
    u: Update<C>, max: nat, base: Option<Bytes>, s: State<C>, p: nat, c: C, chunk: nat, id: nat, inode: nat)
    ensures var next := u(Latest(base, s), c);
      Advance(u, max, Alone(s, p, HaveCurrent(c, Latest(base, s))), p, chunk, id, inode) ==
      Alone(s, p, if next.None? then Unlocking(c, Some(Refusal))
                  else if |next.value| > max then Unlocking(c, Some(Oversized))
                  else Replacing(c, next.value))
  {
    var x, next := Alone(s, p, HaveCurrent(c, Latest(base, s))), u(Latest(base, s), c);
    assert x.procs[p := Unlocking(c, Some(Refusal))] == s.procs[p := Unlocking(c, Some(Refusal))];
    assert x.procs[p := Unlocking(c, Some(Oversized))] == s.procs[p := Unlocking(c, Some(Oversized))];
    if next.Some? { assert x.procs[p := Replacing(c, next.value)] == s.procs[p := Replacing(c, next.value)]; }
  }

  lemma Creates<C>(u: Update<C>, max: nat, s: State<C>, p: nat, c: C, bytes: Bytes, chunk: nat, id: nat, inode: nat)
    requires Temporary(id) !in s.entries && inode !in s.files
    ensures Advance(u, max, Alone(s, p, Replacing(c, bytes)), p, chunk, id, inode) ==
            WithTemporary(s, p, Writing(c, bytes, id, inode, 0), id, inode, [])
  {
    var pc := Writing(c, bytes, id, inode, 0);
    assert s.procs[p := Replacing(c, bytes)][p := pc] == s.procs[p := pc];
  }

  lemma WritesAll<C>(u: Update<C>, max: nat, s: State<C>, p: nat, c: C, bytes: Bytes, id: nat, inode: nat)
    requires bytes != []
    ensures Advance(u, max, WithTemporary(s, p, Writing(c, bytes, id, inode, 0), id, inode, []), p, |bytes|, id, inode)
            == WithTemporary(s, p, Writing(c, bytes, id, inode, |bytes|), id, inode, bytes)
  {
    var pc, pc' := Writing(c, bytes, id, inode, 0), Writing(c, bytes, id, inode, |bytes|);
    assert s.procs[p := pc][p := pc'] == s.procs[p := pc'] && bytes[..|bytes|] == bytes;
    assert s.files[inode := []][inode := bytes] == s.files[inode := bytes];
  }

  lemma Syncs<C>(u: Update<C>, max: nat, s: State<C>, p: nat, c: C, bytes: Bytes, chunk: nat, id: nat, inode: nat)
    ensures Advance(u, max, WithTemporary(s, p, Writing(c, bytes, id, inode, |bytes|), id, inode, bytes), p,
                    chunk, id, inode)
            == SyncedFile(s, p, c, bytes, id, inode)
  {
    var pc, pc' := Writing(c, bytes, id, inode, |bytes|), Synced(c, bytes, id, inode);
    assert s.procs[p := pc][p := pc'] == s.procs[p := pc'];
  }

  function SyncedFile<C>(s: State<C>, p: nat, c: C, bytes: Bytes, id: nat, inode: nat): State<C> {
    WithTemporary(s, p, Synced(c, bytes, id, inode), id, inode, bytes).(synced := s.synced + {inode})
  }

  lemma Renames<C>(u: Update<C>, max: nat, s: State<C>, p: nat, c: C, bytes: Bytes, chunk: nat, id: nat, inode: nat)
    requires Temporary(id) !in s.entries
    ensures Advance(u, max, SyncedFile(s, p, c, bytes, id, inode), p, chunk, id, inode) ==
            Replaced(s, p, c, bytes, inode, Renamed(c, inode), s.durable)
  {
    var pc, pc' := Synced(c, bytes, id, inode), Renamed(c, inode);
    assert s.procs[p := pc][p := pc'] == s.procs[p := pc'];
    assert (s.entries[Temporary(id) := inode] - {Temporary(id)})[Target := inode] == s.entries[Target := inode];
  }

  lemma Verifies<C>(u: Update<C>, max: nat, s: State<C>, p: nat, c: C, bytes: Bytes, chunk: nat, id: nat, inode: nat)
    ensures Advance(u, max, Replaced(s, p, c, bytes, inode, Renamed(c, inode), s.durable), p, chunk, id, inode) ==
            Replaced(s, p, c, bytes, inode, Verified(c), s.durable)
    ensures Advance(u, max, Replaced(s, p, c, bytes, inode, Verified(c), s.durable), p, chunk, id, inode) ==
            Replaced(s, p, c, bytes, inode, Unlocking(c, None), |s.log| + 1)
  {
    assert s.procs[p := Renamed(c, inode)][p := Verified(c)] == s.procs[p := Verified(c)];
    assert s.procs[p := Verified(c)][p := Unlocking(c, None)] == s.procs[p := Unlocking(c, None)];
  }

  lemma WritesTemporary<C>(
    u: Update<C>, max: nat, base: Option<Bytes>, s: State<C>, p: nat, c: C, bytes: Bytes, id: nat, inode: nat)
    requires Inv(u, max, base, s) && Free(PcOf(s, p)) && s.lock.None? && Computes(u, max, base, s, c, bytes)
    requires Temporary(id) !in s.entries && inode !in s.files
    ensures Run(u, max, base, BeginCall(s, p, c), Steps(p, |bytes|, id, inode, CallSteps(bytes) - 5)) ==
            WithTemporary(s, p, Writing(c, bytes, id, inode, |bytes|), id, inode, bytes)
  {
    var t, n := BeginCall(s, p, c), |bytes|;
    ReadsCurrent(u, max, base, s, p, c, n, id, inode);
    Decides(u, max, base, s, p, c, n, id, inode);
    var decided := Alone(s, p, Replacing(c, bytes));
    Then1(u, max, base, t, p, n, id, inode, 3, Alone(s, p, HaveCurrent(c, Latest(base, s))), decided);
    Creates(u, max, s, p, c, bytes, n, id, inode);
    var created := WithTemporary(s, p, Writing(c, bytes, id, inode, 0), id, inode, []);
    Then1(u, max, base, t, p, n, id, inode, 4, decided, created);
    if bytes != [] {
      WritesAll(u, max, s, p, c, bytes, id, inode);
      Then1(u, max, base, t, p, n, id, inode, 5, created,
            WithTemporary(s, p, Writing(c, bytes, id, inode, n), id, inode, bytes));
    }
  }

  lemma RenamesAndSyncs<C>(
    u: Update<C>, max: nat, base: Option<Bytes>, s: State<C>, p: nat, c: C, bytes: Bytes, id: nat, inode: nat)
    requires Inv(u, max, base, s) && Free(PcOf(s, p)) && s.lock.None? && Computes(u, max, base, s, c, bytes)
    requires Temporary(id) !in s.entries && inode !in s.files
    ensures Run(u, max, base, BeginCall(s, p, c), Steps(p, |bytes|, id, inode, CallSteps(bytes) - 1)) ==
            Replaced(s, p, c, bytes, inode, Unlocking(c, None), |s.log| + 1)
  {
    var t, n, k := BeginCall(s, p, c), |bytes|, CallSteps(bytes) - 5;
    var renamed := Replaced(s, p, c, bytes, inode, Renamed(c, inode), s.durable);
    var verified := Replaced(s, p, c, bytes, inode, Verified(c), s.durable);
    WritesTemporary(u, max, base, s, p, c, bytes, id, inode);
    Syncs(u, max, s, p, c, bytes, n, id, inode);
    Then1(u, max, base, t, p, n, id, inode, k, WithTemporary(s, p, Writing(c, bytes, id, inode, n), id, inode, bytes),
          SyncedFile(s, p, c, bytes, id, inode));
    Renames(u, max, s, p, c, bytes, n, id, inode);
    Then1(u, max, base, t, p, n, id, inode, k + 1, SyncedFile(s, p, c, bytes, id, inode), renamed);
    Verifies(u, max, s, p, c, bytes, n, id, inode);
    Then1(u, max, base, t, p, n, id, inode, k + 2, renamed, verified);
    Then1(u, max, base, t, p, n, id, inode, k + 3, verified,
          Replaced(s, p, c, bytes, inode, Unlocking(c, None), |s.log| + 1));
  }

  /**
   * A call that nobody disturbs, with system calls that work, succeeds whenever its update accepts the document
   * it finds: it publishes exactly the new bytes, durably, gives the lock back and leaves no temporary name.
   */
  lemma UndisturbedCallSucceeds<C>(
    u: Update<C>, max: nat, base: Option<Bytes>, s: State<C>, p: nat, c: C, bytes: Bytes, id: nat, inode: nat)
    requires Inv(u, max, base, s) && Free(PcOf(s, p)) && s.lock.None? && Computes(u, max, base, s, c, bytes)
    requires Temporary(id) !in s.entries && inode !in s.files
    ensures var t := Run(u, max, base, BeginCall(s, p, c), Steps(p, |bytes|, id, inode, CallSteps(bytes)));
      && PcOf(t, p) == Returned(c, None) && t.lock.None? && Latest(base, t) == Some(bytes)
      && t.log == s.log + [Publication(p, inode, c, bytes)] && t.durable == |t.log|
      && t.entries == s.entries[Target := inode] && t.files == s.files[inode := bytes]
  {
    var x := Replaced(s, p, c, bytes, inode, Unlocking(c, None), |s.log| + 1);
    RenamesAndSyncs(u, max, base, s, p, c, bytes, id, inode);
    Then1(u, max, base, BeginCall(s, p, c), p, |bytes|, id, inode, CallSteps(bytes) - 1, x,
          Release(x, p, c, None));
  }

  /** An update that refuses, or computes too many bytes, leaves everything as it was and is reported as such. */
  lemma RefusedCallChangesNothing<C>(
    u: Update<C>, max: nat, base: Option<Bytes>, s: State<C>, p: nat, c: C, chunk: nat, id: nat, inode: nat)
    requires Inv(u, max, base, s) && Free(PcOf(s, p)) && s.lock.None?
    requires u(Latest(base, s), c).Some? ==> |u(Latest(base, s), c).value| > max
    ensures var t := Run(u, max, base, BeginCall(s, p, c), Steps(p, chunk, id, inode, 5));
      && PcOf(t, p) == Returned(c, Some(if u(Latest(base, s), c).None? then Refusal else Oversized))
      && t == s.(procs := t.procs, begun := t.begun)
  {
    var t := BeginCall(s, p, c);
    var x := Alone(s, p, Unlocking(c, Some(if u(Latest(base, s), c).None? then Refusal else Oversized)));
    ReadsCurrent(u, max, base, s, p, c, chunk, id, inode);
    Decides(u, max, base, s, p, c, chunk, id, inode);
    Then1(u, max, base, t, p, chunk, id, inode, 3, Alone(s, p, HaveCurrent(c, Latest(base, s))), x);
    Then1(u, max, base, t, p, chunk, id, inode, 4, x, Release(x, p, c, x.procs[p].error));
  }

  /** A reader that works gets the document that is published when it looks, whoever holds the lock. */
  lemma ReaderGetsTheLatest<C>(
    u: Update<C>, max: nat, base: Option<Bytes>, s: State<C>, p: nat, chunk: nat, id: nat, inode: nat)
    requires Inv(u, max, base, s) && Free(PcOf(s, p))
    ensures Run(u, max, base, BeginLook(s, p), Steps(p, chunk, id, inode, 2)) ==
            Goto(s, p, ReaderDone(Latest(base, s), |s.log|))
  {
    var t := BeginLook(s, p);
    var x := Goto(s, p, ReaderOpened(TargetInode(s), |s.log|));
    LooksAndReads(u, max, base, s, p, chunk, id, inode);
    Then1(u, max, base, t, p, chunk, id, inode, 0, t, x);
    Then1(u, max, base, t, p, chunk, id, inode, 1, x, Goto(s, p, ReaderDone(Latest(base, s), |s.log|)));
  }

  lemma LooksAndReads<C>(
    u: Update<C>, max: nat, base: Option<Bytes>, s: State<C>, p: nat, chunk: nat, id: nat, inode: nat)
    requires Inv(u, max, base, s) && Free(PcOf(s, p))
    ensures var x := Goto(s, p, ReaderOpened(TargetInode(s), |s.log|));
      && Advance(u, max, BeginLook(s, p), p, chunk, id, inode) == x
      && Advance(u, max, x, p, chunk, id, inode) == Goto(s, p, ReaderDone(Latest(base, s), |s.log|))
  {
    Reread(u, max, base, s);
    var x := Goto(s, p, ReaderOpened(TargetInode(s), |s.log|));
    assert BeginLook(s, p).procs[p := x.procs[p]] == s.procs[p := x.procs[p]];
    assert Contents(x, TargetInode(s)) == Latest(base, s);
    var done := ReaderDone(Latest(base, s), |s.log|);
    assert x.procs[p := done] == s.procs[p := done];
  }

  // ----- a call that fails ---------------------------------------------------

  /** After a failing call at this point the process reports it and lets go of the lock. */
  ghost predicate Reports<C>(s: State<C>, t: State<C>, p: nat, c: C, stage: Stage) {
    && PcOf(t, p) == Returned(c, Some(stage)) && t.lock.None?
    && t.log == s.log && t.files == s.files && t.durable == s.durable && t.synced == s.synced
  }

  /** The failing call and two more steps. */
  function AfterFailure<C>(u: Update<C>, max: nat, base: Option<Bytes>, s: State<C>, p: nat): State<C> {
    Advance(u, max, Advance(u, max, Failed(s, p), p, 0, 0, 0), p, 0, 0, 0)
  }

  lemma AtOnce<C>(u: Update<C>, max: nat, base: Option<Bytes>, s: State<C>, p: nat)
    requires Inv(u, max, base, s) && s.lock == Some(p)
    requires OnFailure(PcOf(s, p)).Unlocking?
    ensures var pc := OnFailure(PcOf(s, p)); var t := AfterFailure(u, max, base, s, p);
      t.entries == s.entries && (pc.error.Some? ==> Reports(s, t, p, pc.command, pc.error.value))
  {
  }

  lemma AfterCleaning<C>(u: Update<C>, max: nat, base: Option<Bytes>, s: State<C>, p: nat)
    requires Inv(u, max, base, s) && s.lock == Some(p)
    requires OnFailure(PcOf(s, p)).Cleaning?
    ensures var pc := OnFailure(PcOf(s, p)); var t := AfterFailure(u, max, base, s, p);
      Reports(s, t, p, pc.command, pc.stage) && t.entries == s.entries - {Temporary(pc.id)}
  {
  }

  /**
   * The error that a call reports is that of the system call that failed. The lock is given back; before the
   * rename the temporary name is removed as well, and the target is never touched.
   */
  lemma FailureIsReported<C>(u: Update<C>, max: nat, base: Option<Bytes>, s: State<C>, p: nat)
    requires Inv(u, max, base, s) && s.lock == Some(p)
    ensures var pc, t := PcOf(s, p), AfterFailure(u, max, base, s, p);
      && (pc.Locked? ==> Reports(s, t, p, pc.command, OpenTarget) && t.entries == s.entries)
      && (pc.Opened? ==> Reports(s, t, p, pc.command, ReadTarget) && t.entries == s.entries)
      && (pc.Replacing? ==> Reports(s, t, p, pc.command, CreateTemporary) && t.entries == s.entries)
      && (pc.Writing? ==>
            Reports(s, t, p, pc.command, WriteTemporary) && t.entries == s.entries - {Temporary(pc.id)})
      && (pc.Synced? ==> Reports(s, t, p, pc.command, Rename) && t.entries == s.entries - {Temporary(pc.id)})
      && (pc.Renamed? ==> Reports(s, t, p, pc.command, VerifyPublished) && t.entries == s.entries)
      && (pc.Verified? ==> Reports(s, t, p, pc.command, SyncDirectory) && t.entries == s.entries)
  {
    if OnFailure(PcOf(s, p)).Unlocking? { AtOnce(u, max, base, s, p); }
    if OnFailure(PcOf(s, p)).Cleaning? { AfterCleaning(u, max, base, s, p); }
  }
}
