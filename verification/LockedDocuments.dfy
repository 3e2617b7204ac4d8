/**
 * The two documents kept under the locked replacement: the Host vault and a
 * Pack installation, written by any number of processes that may crash.
 * Their text encodings are parameters that must read back what they wrote.
 */
module LockedDocuments {
  import opened Prelude
  import opened OwnedFile
  import opened FileProgress
  import opened OwnedFileSafety
  import HostVault
  import VaultHistory

  datatype Codec<!T> = Codec(decode: Bytes -> Option<T>, encode: T -> Bytes)

  /** Reading yields valid values only, and gives back every valid value that was written. */
  ghost predicate ReadsBack<T(!new)>(codec: Codec<T>, valid: T -> bool) {
    && (forall t :: valid(t) ==> codec.decode(codec.encode(t)) == Some(t))
    && (forall b :: codec.decode(b).Some? ==> valid(codec.decode(b).value))
  }

  ghost function SoundUnder(g: HostVault.Grammar): HostVault.Vault -> bool {
    (v: HostVault.Vault) => HostVault.Sound(g, v)
  }

  // ----- the Host vault ------------------------------------------------------

  /** The update of `persist_command`: unreadable text, a failed comparison and a refused command all refuse. */
  ghost function VaultStep(
    g: HostVault.Grammar, codec: Codec<HostVault.Vault>, current: Option<Bytes>, c: HostVault.Command)
    : Option<Bytes>
  {
    if current.Some? && codec.decode(current.value).None? then None
    else
      match HostVault.Persist(g, if current.None? then None else codec.decode(current.value), c)
      case Refused(_) => None
      case Done(w, _) => Some(codec.encode(w))
  }

  ghost function VaultUpdate(g: HostVault.Grammar, codec: Codec<HostVault.Vault>): Update<HostVault.Command> {
    (current, c) => VaultStep(g, codec, current, c)
  }

  ghost function VaultRank(codec: Codec<HostVault.Vault>): Option<Bytes> -> int {
    (current: Option<Bytes>) =>
      if current.None? then -1
      else if codec.decode(current.value).None? then -2
      else codec.decode(current.value).value.revision
  }

  function ExpectedRank(c: HostVault.Command): int {
    match VaultHistory.Expectation(c) case Absent => -1 case Present(r) => r
  }

  lemma VaultComparesAndSwaps(g: HostVault.Grammar, codec: Codec<HostVault.Vault>)
    requires ReadsBack(codec, SoundUnder(g))
    ensures ComparesAndSwaps(VaultUpdate(g, codec), VaultRank(codec), ExpectedRank)
  {
    forall current, c | VaultUpdate(g, codec)(current, c).Some?
      ensures VaultRank(codec)(current) == ExpectedRank(c) < VaultRank(codec)(VaultUpdate(g, codec)(current, c))
    {
      var stored := if current.None? then None else codec.decode(current.value);
      VaultHistory.RevisionOfApply(g, HostVault.Stored(stored), c);
      VaultHistory.PersistKeepsSound(g, stored, c);
    }
  }

  /** Two processes whose vault commands expect the same state never both succeed, whatever crashes or fails. */
  lemma VaultHasOneWinner(g: HostVault.Grammar, codec: Codec<HostVault.Vault>, max: nat, base: Option<Bytes>,
                          s: State<HostVault.Command>, moves: seq<(nat, Action<HostVault.Command>)>, p: nat, q: nat)
    requires ReadsBack(codec, SoundUnder(g)) && Reachable(VaultUpdate(g, codec), max, base, s, moves) && p != q
    requires PcOf(s, p).Returned? && PcOf(s, p).error.None?
    requires PcOf(s, q).Returned? && PcOf(s, q).error.None?
    ensures VaultHistory.Expectation(PcOf(s, p).command) != VaultHistory.Expectation(PcOf(s, q).command)
  {
    VaultComparesAndSwaps(g, codec);
    OneWinner(VaultUpdate(g, codec), max, base, s, moves, VaultRank(codec), ExpectedRank, p, q);
  }

  /** No two vault commands that expect the same state are ever both published, by whomever and whatever they return. */
  lemma OneVaultPerExpectation(
    g: HostVault.Grammar, codec: Codec<HostVault.Vault>, max: nat, base: Option<Bytes>,
    s: State<HostVault.Command>, moves: seq<(nat, Action<HostVault.Command>)>, i: nat, j: nat)
    requires ReadsBack(codec, SoundUnder(g)) && Reachable(VaultUpdate(g, codec), max, base, s, moves)
    requires i < j < |s.log|
    ensures VaultHistory.Expectation(s.log[i].command) != VaultHistory.Expectation(s.log[j].command)
  {
    VaultComparesAndSwaps(g, codec);
    OnePublicationPerExpectation(VaultUpdate(g, codec), max, base, s, moves, VaultRank(codec), ExpectedRank, i, j);
  }

  ghost function VaultAt(codec: Codec<HostVault.Vault>, base: Option<Bytes>, s: State<HostVault.Command>, n: nat)
    : Option<HostVault.Vault>
    requires n <= |s.log|
  {
    if LatestAt(base, s.log, n).None? then None else codec.decode(LatestAt(base, s.log, n).value)
  }

  lemma NextVaultExtends(
    g: HostVault.Grammar, codec: Codec<HostVault.Vault>, max: nat, base: Option<Bytes>,
    s: State<HostVault.Command>, moves: seq<(nat, Action<HostVault.Command>)>, i: nat)
    requires ReadsBack(codec, SoundUnder(g)) && Reachable(VaultUpdate(g, codec), max, base, s, moves)
    requires i < |s.log| && VaultAt(codec, base, s, i).Some?
    ensures VaultAt(codec, base, s, i + 1).Some?
    ensures VaultHistory.Extends(VaultAt(codec, base, s, i).value, VaultAt(codec, base, s, i + 1).value)
  {
    NoLostUpdate(VaultUpdate(g, codec), max, base, s, moves, i);
    var v, c := VaultAt(codec, base, s, i).value, s.log[i].command;
    assert VaultStep(g, codec, LatestAt(base, s.log, i), c) == Some(s.log[i].bytes);
    VaultHistory.ApplyExtends(g, v, c);
    VaultHistory.PersistKeepsSound(g, Some(v), c);
  }

  ghost predicate Succeeds(v: Option<HostVault.Vault>, w: Option<HostVault.Vault>) {
    v.Some? ==> w.Some? && VaultHistory.Extends(v.value, w.value)
  }

  lemma SucceedsTransitive(u: Option<HostVault.Vault>, v: Option<HostVault.Vault>, w: Option<HostVault.Vault>)
    requires Succeeds(u, v) && Succeeds(v, w)
    ensures Succeeds(u, w)
  {
    if u.Some? { VaultHistory.ExtendsTransitive(u.value, v.value, w.value); }
  }

  lemma {:induction false} StepsCompose(
    codec: Codec<HostVault.Vault>, base: Option<Bytes>, s: State<HostVault.Command>, i: nat, j: nat)
    requires i <= j <= |s.log|
    requires forall n :: i <= n < j ==> Succeeds(VaultAt(codec, base, s, n), VaultAt(codec, base, s, n + 1))
    ensures Succeeds(VaultAt(codec, base, s, i), VaultAt(codec, base, s, j))
    decreases j - i
  {
    if i < j {
      StepsCompose(codec, base, s, i, j - 1);
      SucceedsTransitive(VaultAt(codec, base, s, i), VaultAt(codec, base, s, j - 1), VaultAt(codec, base, s, j));
    } else if VaultAt(codec, base, s, i).Some? {
      assert VaultHistory.Extends(VaultAt(codec, base, s, i).value, VaultAt(codec, base, s, i).value);
    }
  }

  /** Between any two published vaults no account is lost and every account only moves forward. */
  lemma PublishedVaultsExtend(
    g: HostVault.Grammar, codec: Codec<HostVault.Vault>, max: nat, base: Option<Bytes>,
    s: State<HostVault.Command>, moves: seq<(nat, Action<HostVault.Command>)>, i: nat, j: nat)
    requires ReadsBack(codec, SoundUnder(g)) && Reachable(VaultUpdate(g, codec), max, base, s, moves)
    requires i <= j <= |s.log| && VaultAt(codec, base, s, i).Some?
    ensures VaultAt(codec, base, s, j).Some?
    ensures VaultHistory.Extends(VaultAt(codec, base, s, i).value, VaultAt(codec, base, s, j).value)
  {
    forall n | i <= n < j ensures Succeeds(VaultAt(codec, base, s, n), VaultAt(codec, base, s, n + 1)) {
      if VaultAt(codec, base, s, n).Some? { NextVaultExtends(g, codec, max, base, s, moves, n); }
    }
    StepsCompose(codec, base, s, i, j);
  }

  /** The vault that is published now. */
  ghost function VaultNow(codec: Codec<HostVault.Vault>, base: Option<Bytes>, s: State<HostVault.Command>)
    : Option<HostVault.Vault>
  {
    VaultAt(codec, base, s, |s.log|)
  }

  /**
   * A vault command that nobody disturbs, on a readable vault, publishes exactly what the command makes of it,
   * and otherwise changes nothing and is reported as refused.
   */
  lemma VaultCommandTakesEffect(
    g: HostVault.Grammar, codec: Codec<HostVault.Vault>, max: nat, base: Option<Bytes>, s: State<HostVault.Command>,
    p: nat, c: HostVault.Command, id: nat, inode: nat)
    requires ReadsBack(codec, SoundUnder(g)) && Inv(VaultUpdate(g, codec), max, base, s)
    requires Free(PcOf(s, p)) && s.lock.None? && Temporary(id) !in s.entries && inode !in s.files
    requires Latest(base, s).Some? ==> VaultNow(codec, base, s).Some?
    ensures var reply := HostVault.Persist(g, VaultNow(codec, base, s), c);
      && (reply.Done? && |codec.encode(reply.vault)| <= max ==>
            Publishes(g, codec, max, base, s, p, c, id, inode, reply.vault))
      && (reply.Refused? ==> IsRefused(g, codec, max, base, s, p, c, id, inode))
  {
    var u, v := VaultUpdate(g, codec), VaultNow(codec, base, s);
    assert u(Latest(base, s), c) == VaultStep(g, codec, Latest(base, s), c);
    var reply := HostVault.Persist(g, v, c);
    if reply.Refused? {
      RefusedCallChangesNothing(u, max, base, s, p, c, 0, id, inode);
    } else if |codec.encode(reply.vault)| <= max {
      UndisturbedCallSucceeds(u, max, base, s, p, c, codec.encode(reply.vault), id, inode);
      VaultIsSound(g, codec, base, s);
      VaultHistory.PersistKeepsSound(g, v, c);
    }
  }

  ghost predicate Publishes(
    g: HostVault.Grammar, codec: Codec<HostVault.Vault>, max: nat, base: Option<Bytes>, s: State<HostVault.Command>,
    p: nat, c: HostVault.Command, id: nat, inode: nat, w: HostVault.Vault)
  {
    var bytes := codec.encode(w);
    var t := Run(VaultUpdate(g, codec), max, base, BeginCall(s, p, c), Steps(p, |bytes|, id, inode, CallSteps(bytes)));
    PcOf(t, p) == Returned(c, None) && VaultNow(codec, base, t) == Some(w)
  }

  ghost predicate IsRefused(
    g: HostVault.Grammar, codec: Codec<HostVault.Vault>, max: nat, base: Option<Bytes>, s: State<HostVault.Command>,
    p: nat, c: HostVault.Command, id: nat, inode: nat)
  {
    var t := Run(VaultUpdate(g, codec), max, base, BeginCall(s, p, c), Steps(p, 0, id, inode, 5));
    PcOf(t, p) == Returned(c, Some(Refusal)) && VaultNow(codec, base, t) == VaultNow(codec, base, s)
  }

  lemma VaultIsSound(
    g: HostVault.Grammar, codec: Codec<HostVault.Vault>, base: Option<Bytes>, s: State<HostVault.Command>)
    requires ReadsBack(codec, SoundUnder(g))
    ensures VaultHistory.SoundState(g, VaultNow(codec, base, s))
  {
  }

  // ----- a Pack installation -------------------------------------------------

  const MAX_REVISION: nat := 0x7FFF_FFFF_FFFF_FFFF

  datatype Installation<I> = Installation(revision: nat, value: I)

  /** A caller's replacement; an absent document has revision zero. */
  datatype Replacement<I> = Replacement(expected: nat, value: I)

  function InstallationRank<I>(codec: Codec<Installation<I>>, current: Option<Bytes>): int {
    if current.None? then 0
    else if codec.decode(current.value).None? then -1
    else codec.decode(current.value).value.revision
  }

  /** The update of `replace_pack_installation`. */
  function InstallationStep<I>(
    codec: Codec<Installation<I>>, current: Option<Bytes>, r: Replacement<I>): Option<Bytes>
  {
    if InstallationRank(codec, current) != r.expected || r.expected + 1 > MAX_REVISION then None
    else Some(codec.encode(Installation(r.expected + 1, r.value)))
  }

  function InstallationUpdate<I>(codec: Codec<Installation<I>>): Update<Replacement<I>> {
    (current, r) => InstallationStep(codec, current, r)
  }

  function Numbered<I>(): Installation<I> -> bool {
    (i: Installation<I>) => 1 <= i.revision <= MAX_REVISION
  }

  /** The n-th installation published after an absent file has revision n and is the one its caller gave. */
  lemma InstallationsCount<I(!new)>(codec: Codec<Installation<I>>, max: nat, s: State<Replacement<I>>,
                                    moves: seq<(nat, Action<Replacement<I>>)>, n: nat)
    requires ReadsBack(codec, Numbered()) && Reachable(InstallationUpdate(codec), max, None, s, moves)
    requires 0 < n <= |s.log|
    ensures codec.decode(s.log[n - 1].bytes) == Some(Installation(n, s.log[n - 1].command.value))
    ensures s.log[n - 1].command.expected == n - 1
  {
    var u, rank := InstallationUpdate(codec), (current: Option<Bytes>) => InstallationRank(codec, current);
    ReachableIsGood(u, max, None, s, moves);
    RanksCount(u, max, None, s.log, rank, n - 1);
    NoLostUpdate(u, max, None, s, moves, n - 1);
    assert u(LatestAt(None, s.log, n - 1), s.log[n - 1].command)
           == InstallationStep(codec, LatestAt(None, s.log, n - 1), s.log[n - 1].command);
  }

  /**
   * A replacement that nobody disturbs and that expects the revision stored publishes its value under the next
   * one; with any other expectation it changes nothing.
   */
  lemma ReplacementTakesEffect<I(!new)>(
    codec: Codec<Installation<I>>, max: nat, base: Option<Bytes>, s: State<Replacement<I>>, p: nat, r: Replacement<I>,
    id: nat, inode: nat)
    requires ReadsBack(codec, Numbered()) && Inv(InstallationUpdate(codec), max, base, s)
    requires Free(PcOf(s, p)) && s.lock.None? && Temporary(id) !in s.entries && inode !in s.files
    requires |codec.encode(Installation(r.expected + 1, r.value))| <= max
    ensures var bytes := codec.encode(Installation(r.expected + 1, r.value));
      if InstallationRank(codec, Latest(base, s)) == r.expected < MAX_REVISION then
        var t := Run(InstallationUpdate(codec), max, base, BeginCall(s, p, r),
                     Steps(p, |bytes|, id, inode, CallSteps(bytes)));
        && PcOf(t, p) == Returned(r, None) && Latest(base, t).Some?
        && codec.decode(Latest(base, t).value) == Some(Installation(r.expected + 1, r.value))
      else
        var t := Run(InstallationUpdate(codec), max, base, BeginCall(s, p, r), Steps(p, 0, id, inode, 5));
        PcOf(t, p) == Returned(r, Some(Refusal)) && Latest(base, t) == Latest(base, s)
  {
    var u, bytes := InstallationUpdate(codec), codec.encode(Installation(r.expected + 1, r.value));
    assert u(Latest(base, s), r) == InstallationStep(codec, Latest(base, s), r);
    if InstallationRank(codec, Latest(base, s)) == r.expected < MAX_REVISION {
      UndisturbedCallSucceeds(u, max, base, s, p, r, bytes, id, inode);
    } else {
      RefusedCallChangesNothing(u, max, base, s, p, r, 0, id, inode);
    }
  }
}
