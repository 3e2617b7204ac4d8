/**
 * The payload ledger of a staging transaction: an index of files and of the
 * directories they imply that refuses conflicting paths and enforces totals.
 */
module StagingLedger {
  import opened Prelude
  import opened StagingPaths

  datatype Limits = Limits(files: nat, directories: nat, entries: nat, fileBytes: nat, totalBytes: nat)

  const PUBLIC_LIMITS: Limits := Limits(4096, 4096, 8192, 0x1000_0000, 0x2000_0000)

  datatype Failure = AuthorityValidation | Oversized | Native(code: nat)

  datatype Write = Write(path: Path, size: nat)

  /** The simple form: which files there are and how many bytes they have together. */
  datatype Ledger = Ledger(files: map<Path, nat>, total: nat)

  /** The directories that a set of files implies: their proper ancestors. */
  function Directories(paths: set<Path>): set<Path> {
    set p, i | p in paths && 0 < i < |p| :: p[..i]
  }

  predicate Conflicts(paths: set<Path>, p: Path) {
    exists q :: q in paths && (q == p || q < p || p < q)
  }

  predicate Within(files: nat, directories: nat, total: nat, limits: Limits) {
    && files <= limits.files && directories <= limits.directories
    && files + directories <= limits.entries && total <= limits.totalBytes
  }

  predicate TooMuch(l: Ledger, p: Path, size: nat, limits: Limits) {
    !Within(|l.files| + 1, |Directories(l.files.Keys + {p})|, l.total + size, limits)
  }

  /** Why a write is refused, or nothing. */
  function Verdict(l: Ledger, p: Path, size: nat, limits: Limits): Option<Failure> {
    if size > limits.fileBytes then Some(Oversized)
    else if Conflicts(l.files.Keys, p) then Some(AuthorityValidation)
    else if TooMuch(l, p, size, limits) then Some(Oversized)
    else None
  }

  function Record(l: Ledger, p: Path, size: nat): Ledger {
    Ledger(l.files[p := size], l.total + size)
  }

  // ----- a sequence of writes ------------------------------------------------

  function PlaceAll(ws: seq<Write>, limits: Limits): Option<Ledger> {
    if ws == [] then Some(Ledger(map[], 0))
    else
      var w := ws[|ws| - 1];
      match PlaceAll(ws[..|ws| - 1], limits)
      case None => None
      case Some(l) => if Verdict(l, w.path, w.size, limits).None? then Some(Record(l, w.path, w.size)) else None
  }

  function Paths(ws: seq<Write>): set<Path> { set w | w in ws :: w.path }

  function Total(ws: seq<Write>): nat {
    if ws == [] then 0 else Total(ws[..|ws| - 1]) + ws[|ws| - 1].size
  }

  predicate PrefixFree(paths: set<Path>) {
    forall p, q :: p in paths && q in paths ==> !(p < q)
  }

  /** Distinct paths, none above another, and every size and total within the limits. */
  predicate Fits(ws: seq<Write>, limits: Limits) {
    && Compatible(ws, limits.fileBytes)
    && var files, directories := |ws|, |Directories(Paths(ws))|;
      && files <= limits.files && directories <= limits.directories && files + directories <= limits.entries
      && Total(ws) <= limits.totalBytes
  }

  predicate Compatible(ws: seq<Write>, largest: nat) {
    |Paths(ws)| == |ws| && PrefixFree(Paths(ws)) && forall w :: w in ws ==> w.size <= largest
  }

  lemma PathsOneMore(front: seq<Write>, w: Write)
    ensures Paths(front + [w]) == Paths(front) + {w.path}
    ensures Total(front + [w]) == Total(front) + w.size
  {
    assert (front + [w])[..|front|] == front;
  }

  lemma FewPaths(ws: seq<Write>)
    ensures |Paths(ws)| <= |ws|
  {
    if ws != [] {
      var front, w := ws[..|ws| - 1], ws[|ws| - 1];
      assert ws == front + [w];
      PathsOneMore(front, w);
      FewPaths(front);
    }
  }

  lemma DirectoriesGrow(a: set<Path>, b: set<Path>)
    requires a <= b
    ensures |Directories(a)| <= |Directories(b)|
  {
    SmallerSet(Directories(a), Directories(b));
  }

  lemma PrefixFreeOneMore(paths: set<Path>, p: Path)
    ensures PrefixFree(paths + {p}) && p !in paths <==> PrefixFree(paths) && !Conflicts(paths, p)
  {
    if PrefixFree(paths + {p}) && p !in paths {
      forall q | q in paths ensures !(q == p || q < p || p < q) {
        assert q in paths + {p} && p in paths + {p};
      }
    }
  }

  lemma NewPathCounts(front: seq<Write>, w: Write)
    requires |Paths(front)| == |front|
    ensures |Paths(front + [w])| == |front| + 1 <==> w.path !in Paths(front)
  {
    PathsOneMore(front, w);
    if w.path in Paths(front) { assert Paths(front) + {w.path} == Paths(front); }
  }

  lemma SizesOneMore(front: seq<Write>, w: Write, limit: nat)
    ensures (forall x :: x in front + [w] ==> x.size <= limit) <==>
            (forall x :: x in front ==> x.size <= limit) && w.size <= limit
  {
    assert forall x :: x in front + [w] <==> x in front || x == w;
  }

  lemma CompatibleOneMore(front: seq<Write>, w: Write, largest: nat)
    requires Compatible(front, largest)
    ensures Compatible(front + [w], largest) <==> !Conflicts(Paths(front), w.path) && w.size <= largest
  {
    PathsOneMore(front, w);
    PrefixFreeOneMore(Paths(front), w.path);
    NewPathCounts(front, w);
    SizesOneMore(front, w, largest);
  }

  /** One more write fits exactly when the earlier ones fit and the ledger takes it. */
  lemma FitsOneMore(front: seq<Write>, w: Write, l: Ledger, limits: Limits)
    requires Fits(front, limits) && l.files.Keys == Paths(front) && |l.files| == |front| && l.total == Total(front)
    ensures Fits(front + [w], limits) <==> Verdict(l, w.path, w.size, limits).None?
  {
    PathsOneMore(front, w);
    CompatibleOneMore(front, w, limits.fileBytes);
  }

  lemma FitsEarlier(front: seq<Write>, w: Write, limits: Limits)
    requires Fits(front + [w], limits)
    ensures Fits(front, limits)
  {
    PathsOneMore(front, w);
    FewPaths(front);
    DirectoriesGrow(Paths(front), Paths(front + [w]));
    assert forall x :: x in front ==> x in front + [w];
  }

  /**
   * The ledger takes a whole sequence of writes exactly when the paths are
   * distinct, none is above another, and the sizes and totals fit; then it
   * holds exactly those files.
   */
  lemma {:induction false} AcceptedIffFits(ws: seq<Write>, limits: Limits)
    ensures PlaceAll(ws, limits).Some? <==> Fits(ws, limits)
    ensures PlaceAll(ws, limits).Some? ==> Holds(PlaceAll(ws, limits).value, ws)
    decreases |ws|
  {
    if ws == [] {
      assert Paths(ws) == {} && Directories({}) == {};
    } else {
      var front, w := ws[..|ws| - 1], ws[|ws| - 1];
      assert ws == front + [w];
      AcceptedIffFits(front, limits);
      if Fits(ws, limits) { FitsEarlier(front, w, limits); }
      if PlaceAll(front, limits).Some? {
        FitsOneMore(front, w, PlaceAll(front, limits).value, limits);
        RecordOneMore(front, w, PlaceAll(front, limits).value);
      }
    }
  }

  ghost predicate Holds(l: Ledger, ws: seq<Write>) {
    && l.files.Keys == Paths(ws) && |l.files| == |ws| && l.total == Total(ws)
    && forall w :: w in ws ==> l.files[w.path] == w.size
  }

  lemma RecordOneMore(front: seq<Write>, w: Write, l: Ledger)
    requires Holds(l, front)
    ensures w.path !in l.files ==> Holds(Record(l, w.path, w.size), front + [w])
  {
    PathsOneMore(front, w);
    if w.path !in l.files {
      var r := Record(l, w.path, w.size);
      forall x | x in front + [w] ensures r.files[x.path] == x.size {
        if x in front { assert x.path in Paths(front); }
      }
    }
  }

  // ----- the order of writes does not matter ---------------------------------

  lemma {:induction false} TotalOfAppend(s: seq<Write>, t: seq<Write>)
    ensures Total(s + t) == Total(s) + Total(t)
    decreases |t|
  {
    if t == [] {
      assert s + t == s;
    } else {
      assert (s + t)[..|s + t| - 1] == s + t[..|t| - 1];
      TotalOfAppend(s, t[..|t| - 1]);
    }
  }

  lemma TotalAround(a: seq<Write>, x: Write, b: seq<Write>)
    ensures Total(a + [x] + b) == Total(a + b) + x.size
  {
    TotalOfAppend(a + [x], b);
    PathsOneMore(a, x);
    TotalOfAppend(a, b);
  }

  lemma FindWrite(t: seq<Write>, x: Write) returns (a: seq<Write>, b: seq<Write>)
    requires x in t
    ensures t == a + [x] + b && multiset(t) == multiset(a + b) + multiset{x}
  {
    var i :| 0 <= i < |t| && t[i] == x;
    a, b := t[..i], t[i + 1..];
  }

  lemma {:induction false} TotalOfPermutation(s: seq<Write>, t: seq<Write>)
    requires multiset(s) == multiset(t)
    ensures Total(s) == Total(t) && |s| == |t|
    decreases |s|
  {
    if s == [] {
      assert |multiset(t)| == 0;
    } else {
      var front, x := s[..|s| - 1], s[|s| - 1];
      assert s == front + [x];
      assert x in multiset(s);
      var a, b := FindWrite(t, x);
      assert multiset(front) == multiset(s) - multiset{x} == multiset(a + b);
      TotalOfPermutation(front, a + b);
      TotalAround(a, x, b);
    }
  }

  /** Reordered writes are accepted together or not at all, and leave the same ledger. */
  lemma OrderDoesNotMatter(s: seq<Write>, t: seq<Write>, limits: Limits)
    requires multiset(s) == multiset(t)
    ensures PlaceAll(s, limits) == PlaceAll(t, limits)
  {
    TotalOfPermutation(s, t);
    assert forall w :: w in s <==> w in multiset(s);
    assert forall w :: w in t <==> w in multiset(t);
    assert Paths(s) == Paths(t);
    AcceptedIffFits(s, limits);
    AcceptedIffFits(t, limits);
    if Fits(s, limits) {
      var a, b := PlaceAll(s, limits).value, PlaceAll(t, limits).value;
      forall p | p in a.files ensures a.files[p] == b.files[p] {
        var w :| w in s && w.path == p;
        assert w in t;
      }
      assert a.files == b.files;
    }
  }

  // ----- why a write is refused ----------------------------------------------

  /** One of the limits is smaller than what the files and the write need together. */
  predicate ExceedsSome(l: Ledger, p: Path, size: nat, limits: Limits) {
    var files, directories := |l.files| + 1, |Directories(l.files.Keys + {p})|;
    || size > limits.fileBytes || files > limits.files || directories > limits.directories
    || files + directories > limits.entries || l.total + size > limits.totalBytes
  }

  /**
   * A write refused as oversized exceeds one of the limits, and one refused as a conflict is refused under all
   * limits: a stored file is at its path, above it or below it. An accepted write does neither.
   */
  lemma RefusalTellsWhy(l: Ledger, p: Path, size: nat, limits: Limits)
    ensures Verdict(l, p, size, limits) == Some(Oversized) ==> ExceedsSome(l, p, size, limits)
    ensures Verdict(l, p, size, limits) == Some(AuthorityValidation) ==>
      && (exists q :: q in l.files && (q <= p || p <= q))
      && forall others :: Verdict(l, p, size, others).Some?
    ensures Verdict(l, p, size, limits).None? ==>
      !ExceedsSome(l, p, size, limits) && forall q :: q in l.files ==> !(q <= p) && !(p <= q)
  {
    if Verdict(l, p, size, limits) == Some(AuthorityValidation) {
      var q :| q in l.files.Keys && (q == p || q < p || p < q);
      assert q in l.files && (q <= p || p <= q);
    }
    forall q | q in l.files && (q <= p || p <= q) ensures Conflicts(l.files.Keys, p) {
      assert q in l.files.Keys;
    }
  }

  /** What the writer accepts altogether: 4096 files of 256 MiB each at most, 512 MiB together. */
  lemma PublicLedgerIsBounded(ws: seq<Write>)
    requires PlaceAll(ws, PUBLIC_LIMITS).Some?
    ensures |ws| <= 4096 && |Directories(Paths(ws))| <= 4096 && |ws| + |Directories(Paths(ws))| <= 8192
    ensures Total(ws) <= 536_870_912 && forall w :: w in ws ==> w.size <= 268_435_456
  {
    AcceptedIffFits(ws, PUBLIC_LIMITS);
  }
}
