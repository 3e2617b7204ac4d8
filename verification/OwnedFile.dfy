/**
 * Locked replacement of one owned file by any number of processes: a persistent
 * advisory lock, a read, a pure update, a temporary file, two syncs and one
 * rename, with lock-free readers, failing system calls, crashes of processes
 * and losses of power at every step.
 */
module OwnedFile {
  import opened Prelude

  type Bytes = seq<bv8>

  /** What the locked update computes: new bytes, or nothing when it refuses. */
  type Update<!C> = (Option<Bytes>, C) -> Option<Bytes>

  datatype Name = Target | Temporary(id: nat)

  /** One rename onto the target: by whom, the inode moved there, the command and the bytes. */
  datatype Publication<C> = Publication(author: nat, inode: nat, command: C, bytes: Bytes)

  /** The call that reported the error a caller sees. */
  datatype Stage =
    LockFile | OpenTarget | ReadTarget | Refusal | Oversized | CreateTemporary | WriteTemporary | Rename
    | RemoveTemporary | VerifyPublished | SyncDirectory

  datatype PC<C> =
    | Idle
    | Locking(command: C)
    | Locked(command: C)
    | Opened(command: C, from: Option<nat>)
    | HaveCurrent(command: C, current: Option<Bytes>)
    | Replacing(command: C, bytes: Bytes)
    | Writing(command: C, bytes: Bytes, id: nat, inode: nat, written: nat)
    | Synced(command: C, bytes: Bytes, id: nat, inode: nat)
    | Cleaning(command: C, id: nat, stage: Stage)
    | Renamed(command: C, inode: nat)
    | Verified(command: C)
    | Unlocking(command: C, error: Option<Stage>)
    | Returned(command: C, error: Option<Stage>)
    | Looking
    | ReaderOpened(from: Option<nat>, seen: nat)
    | ReaderDone(result: Option<Bytes>, seen: nat)
    | Crashed

  /**
   * `log` lists the renames in order. The contents of the inodes in `synced` and the first `durable`
   * renames survive a loss of power. For the statements only: `sealed` is the inodes that were ever the
   * target, and `begun` says how many renames there were when a process began its latest update.
   */
  datatype State<C> = State(
    entries: map<Name, nat>, files: map<nat, Bytes>, synced: set<nat>, lock: Option<nat>,
    procs: map<nat, PC<C>>, sealed: set<nat>, begun: map<nat, nat>, durable: nat, log: seq<Publication<C>>)

  /**
   * A step either succeeds, with the fresh names it picks, or reports a system error. A loss of power
   * stops every process; what is left of unsynced contents and names is any that the action says.
   */
  datatype Action<C> =
    | BeginUpdate(command: C)
    | BeginRead
    | Proceed(chunk: nat, id: nat, inode: nat)
    | FailHere
    | Crash
    | PowerLoss(kept: nat, contents: map<nat, Bytes>, names: map<Name, nat>)

  function PcOf<C>(s: State<C>, p: nat): PC<C> {
    if p in s.procs then s.procs[p] else Idle
  }

  function Goto<C>(s: State<C>, p: nat, pc: PC<C>): State<C> {
    s.(procs := s.procs[p := pc])
  }

  function TargetInode<C>(s: State<C>): Option<nat> {
    if Target in s.entries then Some(s.entries[Target]) else None
  }

  /** The published bytes after the first `n` renames. */
  function LatestAt<C>(base: Option<Bytes>, log: seq<Publication<C>>, n: nat): Option<Bytes>
    requires n <= |log|
  {
    if n == 0 then base else Some(log[n - 1].bytes)
  }

  function Latest<C>(base: Option<Bytes>, s: State<C>): Option<Bytes> {
    LatestAt(base, s.log, |s.log|)
  }

  /** Whether the process holds the file lock at this point. */
  predicate Holding<C>(pc: PC<C>) {
    pc.Locked? || pc.Opened? || pc.HaveCurrent? || pc.Replacing? || pc.Writing? || pc.Synced?
    || pc.Cleaning? || pc.Renamed? || pc.Verified? || pc.Unlocking?
  }

  function Contents<C>(s: State<C>, from: Option<nat>): Option<Bytes>
    requires from.Some? ==> from.value in s.files
  {
    if from.Some? then Some(s.files[from.value]) else None
  }


  // ----- the steps of one process --------------------------------------------

  function Acquire<C>(s: State<C>, p: nat, c: C): State<C> {
    if s.lock.Some? then s else Goto(s, p, Locked(c)).(lock := Some(p))
  }

  function Decide<C>(u: Update<C>, max: nat, s: State<C>, p: nat, c: C, current: Option<Bytes>): State<C> {
    match u(current, c)
    case None => Goto(s, p, Unlocking(c, Some(Refusal)))
    case Some(bytes) =>
      if |bytes| > max then Goto(s, p, Unlocking(c, Some(Oversized)))
      else Goto(s, p, Replacing(c, bytes))
  }

  /** Exclusive creation: an existing name is tried again under another one. */
  function Create<C>(s: State<C>, p: nat, c: C, bytes: Bytes, id: nat, inode: nat): State<C> {
    if Temporary(id) in s.entries || inode in s.files then s
    else Goto(s, p, Writing(c, bytes, id, inode, 0)).(
      entries := s.entries[Temporary(id) := inode], files := s.files[inode := []])
  }

  /** All bytes are written in turn, then the file is synced. */
  function WriteMore<C>(
    s: State<C>, p: nat, c: C, bytes: Bytes, id: nat, inode: nat, written: nat, chunk: nat): State<C>
  {
    if written >= |bytes| then Goto(s, p, Synced(c, bytes, id, inode)).(synced := s.synced + {inode})
    else
      var n := if written + chunk <= |bytes| then written + chunk else |bytes|;
      Goto(s, p, Writing(c, bytes, id, inode, n)).(files := s.files[inode := bytes[..n]])
  }

  function Publish<C>(s: State<C>, p: nat, c: C, bytes: Bytes, id: nat, inode: nat): State<C> {
    Goto(s, p, Renamed(c, inode)).(
      entries := (s.entries - {Temporary(id)})[Target := inode],
      sealed := s.sealed + {inode}, log := s.log + [Publication(p, inode, c, bytes)])
  }

  function CompareInodes<C>(s: State<C>, p: nat, c: C, inode: nat): State<C> {
    if TargetInode(s) == Some(inode) then Goto(s, p, Verified(c))
    else Goto(s, p, Unlocking(c, Some(VerifyPublished)))
  }

  function SyncParent<C>(s: State<C>, p: nat, c: C): State<C> {
    Goto(s, p, Unlocking(c, None)).(durable := |s.log|)
  }

  function Release<C>(s: State<C>, p: nat, c: C, error: Option<Stage>): State<C> {
    Goto(s, p, Returned(c, error)).(lock := None)
  }

  function ReadBy<C>(s: State<C>, p: nat, from: Option<nat>, pc: Option<Bytes> -> PC<C>): State<C> {
    if from.Some? && from.value !in s.files then s else Goto(s, p, pc(Contents(s, from)))
  }

  function Advance<C>(u: Update<C>, max: nat, s: State<C>, p: nat, chunk: nat, id: nat, inode: nat): State<C> {
    match PcOf(s, p)
    case Locking(c) => Acquire(s, p, c)
    case Locked(c) => Goto(s, p, Opened(c, TargetInode(s)))
    case Opened(c, from) => ReadBy(s, p, from, b => HaveCurrent(c, b))
    case HaveCurrent(c, current) => Decide(u, max, s, p, c, current)
    case Replacing(c, bytes) => Create(s, p, c, bytes, id, inode)
    case Writing(c, bytes, i, n, written) => WriteMore(s, p, c, bytes, i, n, written, chunk)
    case Synced(c, bytes, i, n) => Publish(s, p, c, bytes, i, n)
    case Cleaning(c, i, stage) =>
      Goto(s, p, Unlocking(c, Some(stage))).(entries := s.entries - {Temporary(i)})
    case Renamed(c, n) => CompareInodes(s, p, c, n)
    case Verified(c) => SyncParent(s, p, c)
    case Unlocking(c, error) => Release(s, p, c, error)
    case Looking => Goto(s, p, ReaderOpened(TargetInode(s), |s.log|))
    case ReaderOpened(from, seen) => ReadBy(s, p, from, b => ReaderDone(b, seen))
    case _ => s
  }

  /** A failing call before the rename leads to the removal of the temporary name; after it the error propagates. */
  function OnFailure<C>(pc: PC<C>): PC<C> {
    match pc
    case Locking(c) => Returned(c, Some(LockFile))
    case Locked(c) => Unlocking(c, Some(OpenTarget))
    case Opened(c, _) => Unlocking(c, Some(ReadTarget))
    case Replacing(c, _) => Unlocking(c, Some(CreateTemporary))
    case Writing(c, _, i, _, _) => Cleaning(c, i, WriteTemporary)
    case Synced(c, _, i, _) => Cleaning(c, i, Rename)
    case Cleaning(c, _, _) => Unlocking(c, Some(RemoveTemporary))
    case Renamed(c, _) => Unlocking(c, Some(VerifyPublished))
    case Verified(c) => Unlocking(c, Some(SyncDirectory))
    case Looking => Idle
    case ReaderOpened(_, _) => Idle
    case _ => pc
  }

  function Failed<C>(s: State<C>, p: nat): State<C> {
    Goto(s, p, OnFailure(PcOf(s, p)))
  }

  /** The kernel drops a dead process's lock; its temporary file stays. */
  function Dead<C>(s: State<C>, p: nat): State<C> {
    Goto(s, p, Crashed).(lock := if s.lock == Some(p) then None else s.lock)
  }

  predicate Free<C>(pc: PC<C>) { pc.Idle? || pc.Returned? || pc.ReaderDone? }

  function BeginCall<C>(s: State<C>, p: nat, c: C): State<C> {
    if Free(PcOf(s, p)) then Goto(s, p, Locking(c)).(begun := s.begun[p := |s.log|]) else s
  }

  function BeginLook<C>(s: State<C>, p: nat): State<C> {
    if Free(PcOf(s, p)) then Goto(s, p, Looking) else s
  }

  /** The target after the first `n` renames; a file that was there at first has inode 0. */
  function InodeAfter<C>(base: Option<Bytes>, log: seq<Publication<C>>, n: nat): Option<nat>
    requires n <= |log|
  {
    if n > 0 then Some(log[n - 1].inode) else if base.Some? then Some(0) else None
  }

  function NamesLeft(target: Option<nat>, names: map<Name, nat>): map<Name, nat> {
    if target.Some? then names[Target := target.value] else names - {Target}
  }

  function ContentsLeft<C>(s: State<C>, contents: map<nat, Bytes>): map<nat, Bytes> {
    map i | i in s.files :: if i !in s.synced && i in contents then contents[i] else s.files[i]
  }

  /** A rename is atomic: the first `kept` are there afterwards, at least the durable ones, and no later one. */
  function Lost<C>(
    base: Option<Bytes>, s: State<C>, kept: nat, contents: map<nat, Bytes>, names: map<Name, nat>): State<C>
  {
    if s.durable <= kept <= |s.log| then
      State(NamesLeft(InodeAfter(base, s.log, kept), names), ContentsLeft(s, contents), s.synced, None,
            map p | p in s.procs :: Crashed, s.sealed, map[], kept, s.log[..kept])
    else s
  }

  function Apply<C>(
    u: Update<C>, max: nat, base: Option<Bytes>, s: State<C>, p: nat, a: Action<C>): State<C>
  {
    match a
    case BeginUpdate(c) => BeginCall(s, p, c)
    case BeginRead => BeginLook(s, p)
    case Proceed(chunk, id, inode) => Advance(u, max, s, p, chunk, id, inode)
    case FailHere => Failed(s, p)
    case Crash => Dead(s, p)
    case PowerLoss(kept, contents, names) => Lost(base, s, kept, contents, names)
  }

  function Run<C>(
    u: Update<C>, max: nat, base: Option<Bytes>, s: State<C>, moves: seq<(nat, Action<C>)>): State<C>
    decreases |moves|
  {
    if moves == [] then s
    else Run(u, max, base, Apply(u, max, base, s, moves[0].0, moves[0].1), moves[1..])
  }

  function Start<C>(base: Option<Bytes>): State<C> {
    if base.None? then State(map[], map[], {}, None, map[], {}, map[], 0, [])
    else State(map[Target := 0], map[0 := base.value], {0}, None, map[], {0}, map[], 0, [])
  }

  // ----- the invariant -------------------------------------------------------

  /** An open file that holds exactly what was published after `n` renames. */
  ghost predicate Reads<C>(base: Option<Bytes>, s: State<C>, from: Option<nat>, n: nat)
    requires n <= |s.log|
  {
    match from
    case None => LatestAt(base, s.log, n).None?
    case Some(i) => i in s.sealed && i in s.files && LatestAt(base, s.log, n) == Some(s.files[i])
  }

  ghost predicate Computed<C>(u: Update<C>, max: nat, base: Option<Bytes>, s: State<C>, c: C, bytes: Bytes) {
    u(Latest(base, s), c) == Some(bytes) && |bytes| <= max
  }

  ghost predicate Holds<C>(s: State<C>, id: nat, inode: nat, bytes: Bytes) {
    && Temporary(id) in s.entries && s.entries[Temporary(id)] == inode
    && inode in s.files && inode !in s.sealed && s.files[inode] == bytes
  }

  predicate AfterRename(stage: Stage) { stage.VerifyPublished? || stage.SyncDirectory? }

  function Begun<C>(s: State<C>, p: nat): nat {
    if p in s.begun then s.begun[p] else 0
  }

  /** Publication `i` was made by the latest update of `p`. */
  predicate ByCall<C>(s: State<C>, p: nat, i: int) {
    Begun(s, p) <= i < |s.log| && s.log[i].author == p
  }

  ghost predicate PublishedNothing<C>(s: State<C>, p: nat) {
    Begun(s, p) <= |s.log| && forall i :: !ByCall(s, p, i)
  }

  /** The latest update of `p` published once, and that is publication `i`. */
  ghost predicate PublishedOnce<C>(s: State<C>, p: nat, c: C, i: int) {
    ByCall(s, p, i) && s.log[i].command == c && forall j :: ByCall(s, p, j) ==> j == i
  }

  ghost predicate Told<C>(s: State<C>, p: nat, c: C, error: Option<Stage>) {
    if error.None? then exists i :: PublishedOnce(s, p, c, i) && i < s.durable
    else if AfterRename(error.value) then exists i :: PublishedOnce(s, p, c, i)
    else PublishedNothing(s, p)
  }

  /** Before its rename a call has published nothing. */
  ghost predicate CallOk<C>(s: State<C>, p: nat, pc: PC<C>) {
    match pc
    case Locking(_) => PublishedNothing(s, p)
    case Locked(_) => PublishedNothing(s, p)
    case Opened(_, _) => PublishedNothing(s, p)
    case HaveCurrent(_, _) => PublishedNothing(s, p)
    case Replacing(_, _) => PublishedNothing(s, p)
    case Writing(_, _, _, _, _) => PublishedNothing(s, p)
    case Synced(_, _, _, _) => PublishedNothing(s, p)
    case Cleaning(_, _, stage) => PublishedNothing(s, p) && !AfterRename(stage)
    case Renamed(c, _) => PublishedOnce(s, p, c, |s.log| - 1)
    case Verified(c) => PublishedOnce(s, p, c, |s.log| - 1)
    case Unlocking(c, error) => Told(s, p, c, error)
    case Returned(c, error) => Told(s, p, c, error)
    case _ => true
  }

  ghost predicate PcOk<C>(u: Update<C>, max: nat, base: Option<Bytes>, s: State<C>, pc: PC<C>) {
    match pc
    case Opened(_, from) => Reads(base, s, from, |s.log|)
    case HaveCurrent(_, current) => current == Latest(base, s)
    case Replacing(c, bytes) => Computed(u, max, base, s, c, bytes)
    case Writing(c, bytes, id, inode, n) =>
      Computed(u, max, base, s, c, bytes) && n <= |bytes| && Holds(s, id, inode, bytes[..n])
    case Synced(c, bytes, id, inode) =>
      Computed(u, max, base, s, c, bytes) && Holds(s, id, inode, bytes) && inode in s.synced
    case Renamed(_, inode) => TargetInode(s) == Some(inode)
    case ReaderOpened(from, seen) => seen <= |s.log| && Reads(base, s, from, seen)
    case ReaderDone(result, seen) => seen <= |s.log| && result == LatestAt(base, s.log, seen)
    case _ => true
  }

  ghost predicate ComputedFromPrevious<C>(u: Update<C>, max: nat, base: Option<Bytes>, log: seq<Publication<C>>, i: nat)
    requires i < |log|
  {
    u(LatestAt(base, log, i), log[i].command) == Some(log[i].bytes) && |log[i].bytes| <= max
  }

  /** Every publication was computed from the one before it. */
  ghost predicate Chain<C>(u: Update<C>, max: nat, base: Option<Bytes>, log: seq<Publication<C>>) {
    forall i :: 0 <= i < |log| ==> ComputedFromPrevious(u, max, base, log, i)
  }

  /** The file that holds what was published after `n` renames; it survives a loss of power. */
  ghost predicate Backed<C>(base: Option<Bytes>, s: State<C>, n: nat)
    requires n <= |s.log|
  {
    Reads(base, s, InodeAfter(base, s.log, n), n)
  }

  ghost predicate FilesOk<C>(base: Option<Bytes>, s: State<C>) {
    && (forall i :: i in s.sealed ==> i in s.files && i in s.synced)
    && (forall n :: 0 <= n <= |s.log| ==> Backed(base, s, n))
    && TargetInode(s) == InodeAfter(base, s.log, |s.log|)
    && s.durable <= |s.log|
  }

  ghost predicate LockOk<C>(s: State<C>) {
    && (forall p :: p in s.procs ==> (Holding(s.procs[p]) <==> s.lock == Some(p)))
    && (s.lock.Some? ==> s.lock.value in s.procs)
  }

  ghost predicate Inv<C>(u: Update<C>, max: nat, base: Option<Bytes>, s: State<C>) {
    && FilesOk(base, s) && Chain(u, max, base, s.log) && LockOk(s)
    && (forall p :: p in s.procs ==> PcOk(u, max, base, s, s.procs[p]))
    && (forall p :: p in s.procs ==> CallOk(s, p, s.procs[p]))
  }

  /** What a process that does not hold the lock relies on when `holder` moves. */
  ghost predicate Grows<C>(s: State<C>, t: State<C>, holder: nat) {
    && s.log <= t.log && s.sealed <= t.sealed && s.durable <= t.durable && s.begun == t.begun
    && (forall i :: |s.log| <= i < |t.log| ==> t.log[i].author == holder)
    && forall i :: i in s.sealed && i in s.files ==> i in t.files && t.files[i] == s.files[i]
  }

  lemma OutsidersKeep<C>(
    u: Update<C>, max: nat, base: Option<Bytes>, s: State<C>, t: State<C>, holder: nat, pc: PC<C>)
    requires Grows(s, t, holder) && !Holding(pc) && PcOk(u, max, base, s, pc)
    ensures PcOk(u, max, base, t, pc)
  {
  }

  lemma CallsAreTheirOwn<C>(s: State<C>, t: State<C>, holder: nat, p: nat, i: int)
    requires Grows(s, t, holder) && p != holder
    ensures ByCall(s, p, i) <==> ByCall(t, p, i)
    ensures ByCall(s, p, i) ==> t.log[i] == s.log[i]
  {
  }

  lemma OutsidersTold<C>(s: State<C>, t: State<C>, holder: nat, p: nat, pc: PC<C>)
    requires Grows(s, t, holder) && p != holder && !Holding(pc) && CallOk(s, p, pc)
    ensures CallOk(t, p, pc)
  {
    forall i ensures (ByCall(s, p, i) <==> ByCall(t, p, i)) && (ByCall(s, p, i) ==> t.log[i] == s.log[i]) {
      CallsAreTheirOwn(s, t, holder, p, i);
    }
    if pc.Returned? && (pc.error.None? || AfterRename(pc.error.value)) {
      var i :| PublishedOnce(s, p, pc.command, i) && (pc.error.None? ==> i < s.durable);
      assert PublishedOnce(t, p, pc.command, i);
    }
  }

  /** The holder moves: the files, the log and its own point are its business, the rest only grows. */
  lemma HolderMoves<C>(u: Update<C>, max: nat, base: Option<Bytes>, s: State<C>, t: State<C>, p: nat, pc: PC<C>)
    requires Inv(u, max, base, s) && s.lock == Some(p)
    requires t.procs == s.procs[p := pc] && t.lock == if Holding(pc) then Some(p) else None
    requires Grows(s, t, p) && FilesOk(base, t) && Chain(u, max, base, t.log)
    requires PcOk(u, max, base, t, pc) && CallOk(t, p, pc)
    ensures Inv(u, max, base, t)
  {
    forall q | q in t.procs && q != p ensures PcOk(u, max, base, t, t.procs[q]) && CallOk(t, q, t.procs[q]) {
      OutsidersKeep(u, max, base, s, t, p, s.procs[q]);
      OutsidersTold(s, t, p, q, s.procs[q]);
    }
  }

  lemma SameFiles<C>(u: Update<C>, max: nat, base: Option<Bytes>, s: State<C>, t: State<C>, pc: PC<C>)
    requires PcOk(u, max, base, s, pc)
    requires t.entries == s.entries && t.files == s.files && t.synced == s.synced
    requires t.sealed == s.sealed && t.log == s.log
    ensures PcOk(u, max, base, t, pc)
  {
  }

  lemma SameCalls<C>(s: State<C>, t: State<C>, p: nat, pc: PC<C>)
    requires CallOk(s, p, pc) && t.log == s.log && t.durable == s.durable && Begun(t, p) == Begun(s, p)
    ensures CallOk(t, p, pc)
  {
    assert forall i :: ByCall(t, p, i) <==> ByCall(s, p, i);
    if (pc.Returned? || pc.Unlocking?) && (pc.error.None? || AfterRename(pc.error.value)) {
      var i :| PublishedOnce(s, p, pc.command, i) && (pc.error.None? ==> i < s.durable);
      assert PublishedOnce(t, p, pc.command, i);
    }
  }

  /** A process without the lock moves: nothing shared changes, or it takes the free lock. */
  lemma OutsiderMoves<C>(u: Update<C>, max: nat, base: Option<Bytes>, s: State<C>, t: State<C>, p: nat, pc: PC<C>)
    requires Inv(u, max, base, s) && s.lock != Some(p)
    requires t == s.(procs := s.procs[p := pc], lock := if Holding(pc) then Some(p) else s.lock, begun := t.begun)
    requires forall q :: q != p ==> Begun(t, q) == Begun(s, q)
    requires Holding(pc) ==> s.lock.None?
    requires PcOk(u, max, base, t, pc) && CallOk(t, p, pc)
    ensures Inv(u, max, base, t)
  {
    forall q | q in t.procs && q != p ensures PcOk(u, max, base, t, t.procs[q]) && CallOk(t, q, t.procs[q]) {
      SameFiles(u, max, base, s, t, s.procs[q]);
      SameCalls(s, t, q, s.procs[q]);
    }
    forall n | 0 <= n <= |t.log| ensures Backed(base, t, n) {
      assert Backed(base, s, n);
    }
  }

  // ----- every step keeps the invariant --------------------------------------

  /** The holder moves without touching the files. */
  lemma HolderStays<C>(u: Update<C>, max: nat, base: Option<Bytes>, s: State<C>, p: nat, pc: PC<C>)
    requires Inv(u, max, base, s) && s.lock == Some(p) && Holding(pc)
    requires PcOk(u, max, base, s, pc) && CallOk(s, p, pc)
    ensures Inv(u, max, base, Goto(s, p, pc))
  {
    var t := Goto(s, p, pc);
    SameFiles(u, max, base, s, t, pc);
    SameCalls(s, t, p, pc);
    forall n | 0 <= n <= |t.log| ensures Backed(base, t, n) {
      assert Backed(base, s, n);
    }
    HolderMoves(u, max, base, s, t, p, pc);
  }

  lemma OutsiderStays<C>(u: Update<C>, max: nat, base: Option<Bytes>, s: State<C>, p: nat, pc: PC<C>)
    requires Inv(u, max, base, s) && s.lock != Some(p) && !Holding(pc)
    requires PcOk(u, max, base, s, pc) && CallOk(s, p, pc)
    ensures Inv(u, max, base, Goto(s, p, pc))
  {
    SameFiles(u, max, base, s, Goto(s, p, pc), pc);
    SameCalls(s, Goto(s, p, pc), p, pc);
    OutsiderMoves(u, max, base, s, Goto(s, p, pc), p, pc);
  }

  lemma AcquireKeeps<C>(u: Update<C>, max: nat, base: Option<Bytes>, s: State<C>, p: nat)
    requires Inv(u, max, base, s) && PcOf(s, p).Locking?
    ensures Inv(u, max, base, Acquire(s, p, PcOf(s, p).command))
  {
    var c := PcOf(s, p).command;
    if s.lock.None? {
      SameCalls(s, Acquire(s, p, c), p, Locked(c));
      OutsiderMoves(u, max, base, s, Acquire(s, p, c), p, Locked(c));
    }
  }

  lemma OpenKeeps<C>(u: Update<C>, max: nat, base: Option<Bytes>, s: State<C>, p: nat)
    requires Inv(u, max, base, s) && PcOf(s, p).Locked?
    ensures Inv(u, max, base, Goto(s, p, Opened(PcOf(s, p).command, TargetInode(s))))
  {
    assert Backed(base, s, |s.log|);
    HolderStays(u, max, base, s, p, Opened(PcOf(s, p).command, TargetInode(s)));
  }

  lemma ReadKeeps<C>(u: Update<C>, max: nat, base: Option<Bytes>, s: State<C>, p: nat)
    requires Inv(u, max, base, s) && PcOf(s, p).Opened?
    ensures Inv(u, max, base, ReadBy(s, p, PcOf(s, p).from, b => HaveCurrent(PcOf(s, p).command, b)))
  {
    HolderStays(u, max, base, s, p, HaveCurrent(PcOf(s, p).command, Contents(s, PcOf(s, p).from)));
  }

  lemma DecideKeeps<C>(u: Update<C>, max: nat, base: Option<Bytes>, s: State<C>, p: nat)
    requires Inv(u, max, base, s) && PcOf(s, p).HaveCurrent?
    ensures Inv(u, max, base, Decide(u, max, s, p, PcOf(s, p).command, PcOf(s, p).current))
  {
    var c, current := PcOf(s, p).command, PcOf(s, p).current;
    match u(current, c) {
      case None => HolderStays(u, max, base, s, p, Unlocking(c, Some(Refusal)));
      case Some(bytes) =>
        if |bytes| > max {
          HolderStays(u, max, base, s, p, Unlocking(c, Some(Oversized)));
        } else {
          HolderStays(u, max, base, s, p, Replacing(c, bytes));
        }
    }
  }

  /** Files that never were the target come and go without effect on what is published. */
  lemma FilesGrow<C>(base: Option<Bytes>, s: State<C>, t: State<C>)
    requires FilesOk(base, s) && t.log == s.log && t.durable == s.durable && t.sealed == s.sealed
    requires s.synced <= t.synced && TargetInode(t) == TargetInode(s)
    requires forall i :: i in s.sealed ==> i in t.files && t.files[i] == s.files[i]
    ensures FilesOk(base, t)
  {
    forall n | 0 <= n <= |t.log| ensures Backed(base, t, n) {
      assert Backed(base, s, n);
    }
  }

  /** The holder works on a file of its own. */
  lemma HolderWrites<C>(u: Update<C>, max: nat, base: Option<Bytes>, s: State<C>, t: State<C>, p: nat, pc: PC<C>)
    requires Inv(u, max, base, s) && s.lock == Some(p) && Holding(pc)
    requires t == Goto(s, p, pc).(entries := t.entries, files := t.files, synced := t.synced)
    requires s.synced <= t.synced && TargetInode(t) == TargetInode(s)
    requires forall i :: i in s.sealed ==> i in t.files && t.files[i] == s.files[i]
    requires PcOk(u, max, base, t, pc) && CallOk(s, p, pc)
    ensures Inv(u, max, base, t)
  {
    FilesGrow(base, s, t);
    SameCalls(s, t, p, pc);
    HolderMoves(u, max, base, s, t, p, pc);
  }

  lemma CreateKeeps<C>(u: Update<C>, max: nat, base: Option<Bytes>, s: State<C>, p: nat, id: nat, inode: nat)
    requires Inv(u, max, base, s) && PcOf(s, p).Replacing?
    ensures Inv(u, max, base, Create(s, p, PcOf(s, p).command, PcOf(s, p).bytes, id, inode))
  {
    var c, bytes := PcOf(s, p).command, PcOf(s, p).bytes;
    if Temporary(id) !in s.entries && inode !in s.files {
      HolderWrites(u, max, base, s, Create(s, p, c, bytes, id, inode), p, Writing(c, bytes, id, inode, 0));
    }
  }

  lemma WriteKeeps<C>(u: Update<C>, max: nat, base: Option<Bytes>, s: State<C>, p: nat, chunk: nat)
    requires Inv(u, max, base, s) && PcOf(s, p).Writing?
    ensures var q := PcOf(s, p);
            Inv(u, max, base, WriteMore(s, p, q.command, q.bytes, q.id, q.inode, q.written, chunk))
  {
    var q := PcOf(s, p);
    var t := WriteMore(s, p, q.command, q.bytes, q.id, q.inode, q.written, chunk);
    if q.written >= |q.bytes| { assert q.bytes[..q.written] == q.bytes; }
    HolderWrites(u, max, base, s, t, p, t.procs[p]);
  }

  lemma ChainGrows<C>(u: Update<C>, max: nat, base: Option<Bytes>, log: seq<Publication<C>>, x: Publication<C>)
    requires Chain(u, max, base, log)
    requires u(LatestAt(base, log, |log|), x.command) == Some(x.bytes) && |x.bytes| <= max
    ensures Chain(u, max, base, log + [x])
  {
    forall i | 0 <= i < |log| ensures ComputedFromPrevious(u, max, base, log + [x], i) {
      assert ComputedFromPrevious(u, max, base, log, i);
    }
  }

  lemma PublishCounts<C>(s: State<C>, p: nat, c: C, bytes: Bytes, id: nat, inode: nat)
    requires PublishedNothing(s, p)
    ensures PublishedOnce(Publish(s, p, c, bytes, id, inode), p, c, |s.log|)
  {
    var t := Publish(s, p, c, bytes, id, inode);
    forall j | ByCall(t, p, j) ensures j == |s.log| {
      assert !ByCall(s, p, j);
    }
  }

  lemma PublishBacks<C>(base: Option<Bytes>, s: State<C>, p: nat, c: C, bytes: Bytes, id: nat, inode: nat)
    requires FilesOk(base, s) && Holds(s, id, inode, bytes) && inode in s.synced
    ensures FilesOk(base, Publish(s, p, c, bytes, id, inode))
  {
    var t := Publish(s, p, c, bytes, id, inode);
    forall n | 0 <= n <= |t.log| ensures Backed(base, t, n) {
      if n < |t.log| { assert Backed(base, s, n); }
    }
  }

  lemma PublishKeeps<C>(u: Update<C>, max: nat, base: Option<Bytes>, s: State<C>, p: nat)
    requires Inv(u, max, base, s) && PcOf(s, p).Synced?
    ensures var q := PcOf(s, p); Inv(u, max, base, Publish(s, p, q.command, q.bytes, q.id, q.inode))
  {
    var q := PcOf(s, p);
    ChainGrows(u, max, base, s.log, Publication(p, q.inode, q.command, q.bytes));
    PublishCounts(s, p, q.command, q.bytes, q.id, q.inode);
    PublishBacks(base, s, p, q.command, q.bytes, q.id, q.inode);
    HolderMoves(u, max, base, s, Publish(s, p, q.command, q.bytes, q.id, q.inode), p, Renamed(q.command, q.inode));
  }

  lemma CleanKeeps<C>(u: Update<C>, max: nat, base: Option<Bytes>, s: State<C>, p: nat)
    requires Inv(u, max, base, s) && PcOf(s, p).Cleaning?
    ensures var q := PcOf(s, p);
            Inv(u, max, base,
                Goto(s, p, Unlocking(q.command, Some(q.stage))).(entries := s.entries - {Temporary(q.id)}))
  {
    var q := PcOf(s, p);
    var pc: PC<C> := Unlocking(q.command, Some(q.stage));
    HolderWrites(u, max, base, s, Goto(s, p, pc).(entries := s.entries - {Temporary(q.id)}), p, pc);
  }

  /** The inode comparison after the rename cannot find another file. */
  lemma CompareKeeps<C>(u: Update<C>, max: nat, base: Option<Bytes>, s: State<C>, p: nat)
    requires Inv(u, max, base, s) && PcOf(s, p).Renamed?
    ensures CompareInodes(s, p, PcOf(s, p).command, PcOf(s, p).inode) == Goto(s, p, Verified(PcOf(s, p).command))
    ensures Inv(u, max, base, CompareInodes(s, p, PcOf(s, p).command, PcOf(s, p).inode))
  {
    HolderStays(u, max, base, s, p, Verified(PcOf(s, p).command));
  }

  lemma SyncKeeps<C>(u: Update<C>, max: nat, base: Option<Bytes>, s: State<C>, p: nat)
    requires Inv(u, max, base, s) && PcOf(s, p).Verified?
    ensures Inv(u, max, base, SyncParent(s, p, PcOf(s, p).command))
  {
    var c, t := PcOf(s, p).command, SyncParent(s, p, PcOf(s, p).command);
    assert forall i :: ByCall(t, p, i) <==> ByCall(s, p, i);
    assert PublishedOnce(t, p, c, |s.log| - 1);
    forall n | 0 <= n <= |t.log| ensures Backed(base, t, n) {
      assert Backed(base, s, n);
    }
    HolderMoves(u, max, base, s, t, p, Unlocking(c, None));
  }

  lemma ReleaseKeeps<C>(u: Update<C>, max: nat, base: Option<Bytes>, s: State<C>, p: nat)
    requires Inv(u, max, base, s) && PcOf(s, p).Unlocking?
    ensures Inv(u, max, base, Release(s, p, PcOf(s, p).command, PcOf(s, p).error))
  {
    var c, error := PcOf(s, p).command, PcOf(s, p).error;
    var t := Release(s, p, c, error);
    SameCalls(s, t, p, Unlocking(c, error));
    FilesGrow(base, s, t);
    HolderMoves(u, max, base, s, t, p, Returned(c, error));
  }

  lemma LookKeeps<C>(u: Update<C>, max: nat, base: Option<Bytes>, s: State<C>, p: nat)
    requires Inv(u, max, base, s) && PcOf(s, p).Looking?
    ensures Inv(u, max, base, Goto(s, p, ReaderOpened(TargetInode(s), |s.log|)))
  {
    assert Backed(base, s, |s.log|);
    OutsiderStays(u, max, base, s, p, ReaderOpened(TargetInode(s), |s.log|));
  }

  lemma ReaderKeeps<C>(u: Update<C>, max: nat, base: Option<Bytes>, s: State<C>, p: nat)
    requires Inv(u, max, base, s) && PcOf(s, p).ReaderOpened?
    ensures Inv(u, max, base, ReadBy(s, p, PcOf(s, p).from, b => ReaderDone(b, PcOf(s, p).seen)))
  {
    OutsiderStays(u, max, base, s, p, ReaderDone(Contents(s, PcOf(s, p).from), PcOf(s, p).seen));
  }

  lemma AdvanceKeeps<C>(
    u: Update<C>, max: nat, base: Option<Bytes>, s: State<C>, p: nat, chunk: nat, id: nat, inode: nat)
    requires Inv(u, max, base, s)
    ensures Inv(u, max, base, Advance(u, max, s, p, chunk, id, inode))
  {
    match PcOf(s, p)
    case Locking(c) => AcquireKeeps(u, max, base, s, p);
    case Locked(c) => OpenKeeps(u, max, base, s, p);
    case Opened(c, from) => ReadKeeps(u, max, base, s, p);
    case HaveCurrent(c, current) => DecideKeeps(u, max, base, s, p);
    case Replacing(c, bytes) => CreateKeeps(u, max, base, s, p, id, inode);
    case Writing(c, bytes, i, n, written) => WriteKeeps(u, max, base, s, p, chunk);
    case Synced(c, bytes, i, n) => PublishKeeps(u, max, base, s, p);
    case Cleaning(c, i, stage) => CleanKeeps(u, max, base, s, p);
    case Renamed(c, n) => CompareKeeps(u, max, base, s, p);
    case Verified(c) => SyncKeeps(u, max, base, s, p);
    case Unlocking(c, error) => ReleaseKeeps(u, max, base, s, p);
    case Looking => LookKeeps(u, max, base, s, p);
    case ReaderOpened(from, seen) => ReaderKeeps(u, max, base, s, p);
    case _ =>
  }

  lemma FailurePoint<C>(u: Update<C>, max: nat, base: Option<Bytes>, s: State<C>, p: nat, pc: PC<C>)
    requires PcOk(u, max, base, s, pc) && CallOk(s, p, pc)
    ensures PcOk(u, max, base, s, OnFailure(pc)) && CallOk(s, p, OnFailure(pc))
    ensures Holding(OnFailure(pc)) <==> Holding(pc)
  {
  }

  lemma FailKeeps<C>(u: Update<C>, max: nat, base: Option<Bytes>, s: State<C>, p: nat)
    requires Inv(u, max, base, s)
    ensures Inv(u, max, base, Failed(s, p))
  {
    FailurePoint(u, max, base, s, p, PcOf(s, p));
    if s.lock == Some(p) {
      HolderStays(u, max, base, s, p, OnFailure(PcOf(s, p)));
    } else {
      OutsiderStays(u, max, base, s, p, OnFailure(PcOf(s, p)));
    }
  }

  lemma DeadKeeps<C>(u: Update<C>, max: nat, base: Option<Bytes>, s: State<C>, p: nat)
    requires Inv(u, max, base, s)
    ensures Inv(u, max, base, Dead(s, p))
  {
    if s.lock == Some(p) {
      FilesGrow(base, s, Dead(s, p));
      HolderMoves(u, max, base, s, Dead(s, p), p, Crashed);
    } else {
      OutsiderStays(u, max, base, s, p, Crashed);
    }
  }

  lemma BeginKeeps<C>(u: Update<C>, max: nat, base: Option<Bytes>, s: State<C>, p: nat, c: C)
    requires Inv(u, max, base, s)
    ensures Inv(u, max, base, BeginCall(s, p, c))
  {
    if Free(PcOf(s, p)) { OutsiderMoves(u, max, base, s, BeginCall(s, p, c), p, Locking(c)); }
  }

  lemma TargetLeft(target: Option<nat>, names: map<Name, nat>)
    ensures Target in NamesLeft(target, names) <==> target.Some?
    ensures target.Some? ==> NamesLeft(target, names)[Target] == target.value
  {
  }

  lemma SyncedLeft<C>(s: State<C>, contents: map<nat, Bytes>, i: nat)
    requires i in s.files && i in s.synced
    ensures i in ContentsLeft(s, contents) && ContentsLeft(s, contents)[i] == s.files[i]
  {
  }

  /** The state after a loss of power, without its unsynced part. */
  ghost predicate Shortened<C>(base: Option<Bytes>, s: State<C>, t: State<C>) {
    && |t.log| <= |s.log| && t.log == s.log[..|t.log|] && t.durable == |t.log|
    && t.sealed == s.sealed && t.synced == s.synced
    && t.lock.None? && (forall p :: p in t.procs ==> t.procs[p].Crashed?)
    && TargetInode(t) == InodeAfter(base, t.log, |t.log|)
    && forall i :: i in s.sealed && i in s.files ==> i in t.files && t.files[i] == s.files[i]
  }

  lemma ShortenedIsGood<C>(u: Update<C>, max: nat, base: Option<Bytes>, s: State<C>, t: State<C>)
    requires Inv(u, max, base, s) && Shortened(base, s, t)
    ensures Inv(u, max, base, t)
  {
    forall n | 0 <= n <= |t.log| ensures Backed(base, t, n) {
      assert Backed(base, s, n);
    }
    forall i | 0 <= i < |t.log| ensures ComputedFromPrevious(u, max, base, t.log, i) {
      assert ComputedFromPrevious(u, max, base, s.log, i);
    }
  }

  /** Every kept rename leads to a file whose contents were synced before it. */
  lemma LostKeeps<C>(
    u: Update<C>, max: nat, base: Option<Bytes>, s: State<C>, kept: nat,
    contents: map<nat, Bytes>, names: map<Name, nat>)
    requires Inv(u, max, base, s)
    ensures Inv(u, max, base, Lost(base, s, kept, contents, names))
  {
    if s.durable <= kept <= |s.log| {
      var t := Lost(base, s, kept, contents, names);
      forall i | i in s.sealed && i in s.files ensures i in t.files && t.files[i] == s.files[i] {
        SyncedLeft(s, contents, i);
      }
      TargetLeft(InodeAfter(base, s.log, kept), names);
      ShortenedIsGood(u, max, base, s, t);
    }
  }

  lemma ApplyKeeps<C>(u: Update<C>, max: nat, base: Option<Bytes>, s: State<C>, p: nat, a: Action<C>)
    requires Inv(u, max, base, s)
    ensures Inv(u, max, base, Apply(u, max, base, s, p, a))
  {
    match a
    case BeginUpdate(c) => BeginKeeps(u, max, base, s, p, c);
    case BeginRead =>
      if Free(PcOf(s, p)) { OutsiderStays(u, max, base, s, p, Looking); }
    case Proceed(chunk, id, inode) => AdvanceKeeps(u, max, base, s, p, chunk, id, inode);
    case FailHere => FailKeeps(u, max, base, s, p);
    case Crash => DeadKeeps(u, max, base, s, p);
    case PowerLoss(kept, contents, names) => LostKeeps(u, max, base, s, kept, contents, names);
  }

  lemma {:induction false} RunKeeps<C>(
    u: Update<C>, max: nat, base: Option<Bytes>, s: State<C>, moves: seq<(nat, Action<C>)>)
    requires Inv(u, max, base, s)
    ensures Inv(u, max, base, Run(u, max, base, s, moves))
    decreases |moves|
  {
    if moves != [] {
      ApplyKeeps(u, max, base, s, moves[0].0, moves[0].1);
      RunKeeps(u, max, base, Apply(u, max, base, s, moves[0].0, moves[0].1), moves[1..]);
    }
  }

  lemma StartHolds<C>(u: Update<C>, max: nat, base: Option<Bytes>)
    ensures Inv(u, max, base, Start(base))
  {
  }
}
