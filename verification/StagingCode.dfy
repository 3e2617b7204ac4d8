/**
 * The ledger as the code keeps it, on the texts of the paths: ordered maps,
 * a growing prefix, a probe of one entry, and a writer that a failed native
 * mutation poisons.
 */
module StagingCode {
  import opened Prelude
  import opened StagingPaths
  import opened StagingLedger

  ghost predicate ArePaths(paths: set<Path>) { forall p :: p in paths ==> IsPath(p) }

  ghost function Texts(paths: set<Path>): set<string>
    requires ArePaths(paths)
  {
    set p | p in paths :: Join(p)
  }

  lemma TextIsMember(paths: set<Path>, p: Path)
    requires ArePaths(paths) && IsPath(p)
    ensures Join(p) in Texts(paths) <==> p in paths
  {
    forall q | q in paths && Join(q) == Join(p) ensures q == p {
      JoinIsInjective(q, p);
    }
  }

  lemma {:induction false} AsManyTexts(paths: set<Path>)
    requires ArePaths(paths)
    ensures |Texts(paths)| == |paths|
  {
    if paths != {} {
      var p :| p in paths;
      AsManyTexts(paths - {p});
      TextIsMember(paths - {p}, p);
      assert Texts(paths) == Texts(paths - {p}) + {Join(p)};
    }
  }

  lemma AncestorsArePaths(paths: set<Path>)
    requires ArePaths(paths)
    ensures ArePaths(Directories(paths))
  {
    forall d | d in Directories(paths) ensures IsPath(d) {
      var p, i :| p in paths && 0 < i < |p| && d == p[..i];
      assert forall c :: c in d ==> c in p;
    }
  }

  lemma AncestorIsPath(p: Path, i: nat)
    requires IsPath(p) && 0 < i <= |p|
    ensures IsPath(p[..i])
  {
    assert forall c :: c in p[..i] ==> c in p;
  }

  /** The directories of the ledger are exactly the paths above some file. */
  lemma DirectoryIff(paths: set<Path>, d: Path)
    ensures d in Directories(paths) <==> d != [] && exists q :: q in paths && d < q
  {
    if d != [] {
      if q :| q in paths && d < q {
        assert d == q[..|d|];
      }
    }
  }

  lemma AncestorsAreSlices(paths: set<Path>, p: Path)
    requires [] !in paths
    ensures (exists q :: q in paths && q < p) <==> exists j :: 0 < j < |p| && p[..j] in paths
  {
    if q :| q in paths && q < p {
      assert q == p[..|q|];
    }
  }

  /** A path above some directory is above some file. */
  lemma BelowADirectory(paths: set<Path>, p: Path)
    ensures (exists d :: d in Directories(paths) && p < d) ==> exists q :: q in paths && p < q
  {
    if d :| d in Directories(paths) && p < d {
      DirectoryIff(paths, d);
      var q :| q in paths && d < q;
      assert p < q;
    }
  }

  /** A path that is not a recorded directory has nothing below it: the probes repeat what the lookup said. */
  lemma ProbesAreRedundant(paths: set<Path>, p: Path)
    requires ArePaths(paths) && IsPath(p) && ArePaths(Directories(paths)) && Join(p) !in Texts(Directories(paths))
    ensures forall k :: k in Texts(paths) + Texts(Directories(paths)) ==> !StartsWith(k, Join(p) + "/")
  {
    TextIsMember(Directories(paths), p);
    DirectoryIff(paths, p);
    BelowADirectory(paths, p);
    forall k | k in Texts(paths) + Texts(Directories(paths)) ensures !StartsWith(k, Join(p) + "/") {
      var q :| (q in paths || q in Directories(paths)) && Join(q) == k;
      StartsWithIffBelow(p, q);
    }
  }

  lemma DirectoriesOneMore(paths: set<Path>, p: Path)
    ensures Directories(paths + {p}) == Directories(paths) + Directories({p})
  {
  }

  datatype PlannedWrite = PlannedWrite(path: string, newDirectories: set<string>, size: nat)

  /** The texts stand for the ledger: its files with their sizes, their proper ancestors, their total. */
  ghost predicate Represents(files: map<string, nat>, directories: set<string>, total: nat, l: Ledger) {
    && ArePaths(l.files.Keys) && PrefixFree(l.files.Keys)
    && files.Keys == Texts(l.files.Keys)
    && (forall p :: p in l.files ==> files[Join(p)] == l.files[p])
    && ArePaths(Directories(l.files.Keys)) && directories == Texts(Directories(l.files.Keys))
    && total == l.total
  }

  class PayloadLedger {
    var files: map<string, nat>
    var directories: set<string>
    var totalBytes: nat
    ghost var model: Ledger

    ghost predicate Valid() reads this {
      Represents(files, directories, totalBytes, model)
    }

    constructor ()
      ensures Valid() && model == Ledger(map[], 0)
    {
      files, directories, totalBytes, model := map[], {}, 0, Ledger(map[], 0);
      new;
      assert Directories({}) == {};
      assert Texts({}) == {};
    }

    /** Whether a stored text begins with the path and a slash, asked of the first one from there on. */
    method AnyBelow(keys: set<string>, p: Path, ghost paths: set<Path>) returns (below: bool)
      requires IsPath(p) && ArePaths(paths) && keys == Texts(paths)
      ensures below <==> exists q :: q in paths && p < q
    {
      var prefix := Join(p) + "/";
      var found, first := FirstFrom(keys, prefix);
      if found { ProbeFindsDescendant(keys, prefix, first); } else { NothingFromMeansNoDescendant(keys, prefix); }
      below := found && StartsWith(first, prefix);
      forall q | q in paths ensures StartsWith(Join(q), prefix) <==> p < q {
        StartsWithIffBelow(p, q);
      }
      if below {
        ghost var k :| k in keys && StartsWith(k, prefix);
        ghost var q :| q in paths && Join(q) == k;
        assert p < q;
      } else {
        forall q | q in paths ensures !(p < q) {
          assert Join(q) in keys;
        }
      }
    }

    method Holds(p: Path) returns (taken: bool)
      requires Valid() && IsPath(p)
      ensures taken ==> Conflicts(model.files.Keys, p)
      ensures !taken ==> p !in model.files
    {
      var text := Join(p);
      TextIsMember(model.files.Keys, p);
      TextIsMember(Directories(model.files.Keys), p);
      DirectoryIff(model.files.Keys, p);
      taken := text in files || text in directories;
    }

    /** The walk down the path: a file on the way, or the directories that are missing. */
    method Walk(p: Path) returns (blocked: bool, missing: set<string>)
      requires Valid() && IsPath(p)
      ensures blocked <==> exists q :: q in model.files && q < p
      ensures !blocked ==> missing == Ancestors(p, |p|) - directories
    {
      var prefix, i := "", 0;
      missing := {};
      while i + 1 < |p|
        invariant 0 <= i < |p| && prefix == PrefixText(p, i)
        invariant forall j :: 0 < j <= i ==> p[..j] !in model.files
        invariant missing == Ancestors(p, i + 1) - directories
      {
        blocked, prefix, missing := StepDown(p, i, prefix, missing);
        if blocked { return true, {}; }
        i := i + 1;
      }
      AncestorsAreSlices(model.files.Keys, p);
      return false, missing;
    }

    method StepDown(p: Path, i: nat, prefix: string, missing: set<string>)
      returns (isFile: bool, prefix': string, missing': set<string>)
      requires Valid() && IsPath(p) && i + 1 < |p| && prefix == PrefixText(p, i)
      requires missing == Ancestors(p, i + 1) - directories
      ensures prefix' == PrefixText(p, i + 1)
      ensures isFile <==> p[..i + 1] in model.files
      ensures !isFile ==> missing' == Ancestors(p, i + 2) - directories
    {
      ExtendPrefix(p, i);
      AncestorsOneMore(p, i + 1);
      prefix' := if prefix == "" then p[i] else prefix + "/" + p[i];
      missing' := missing;
      isFile := HasFile(p[..i + 1], prefix');
      if !isFile && prefix' !in directories { missing' := missing + {prefix'}; }
    }

    method HasFile(ghost p: Path, text: string) returns (found: bool)
      requires Valid() && IsPath(p) && text == Join(p)
      ensures found <==> p in model.files
    {
      TextIsMember(model.files.Keys, p);
      found := text in files;
    }

    /** The path itself, the files on the way to it, and anything below it. */
    method FindConflict(p: Path) returns (conflict: bool, missing: set<string>)
      requires Valid() && IsPath(p)
      ensures conflict <==> Conflicts(model.files.Keys, p)
      ensures !conflict ==> missing == Ancestors(p, |p|) - directories
    {
      missing := {};
      conflict := Holds(p);
      if !conflict {
        conflict, missing := Walk(p);
        if !conflict { conflict := Descends(p); }
      }
    }

    /** `plan`: the verdict on one write, and what it would add. */
    method Plan(p: Path, size: nat, limits: Limits) returns (r: Result<PlannedWrite, Failure>)
      requires Valid() && IsPath(p)
      ensures Verdict(model, p, size, limits).Some? ==> r == Err(Verdict(model, p, size, limits).value)
      ensures Verdict(model, p, size, limits).None? ==>
                r == Ok(PlannedWrite(Join(p), Ancestors(p, |p|) - directories, size))
    {
      if size > limits.fileBytes { return Err(Oversized); }
      var conflict, missing := FindConflict(p);
      if conflict { return Err(AuthorityValidation); }
      Counts(p);
      if !Within(|files| + 1, |directories| + |missing|, totalBytes + size, limits) { return Err(Oversized); }
      return Ok(PlannedWrite(Join(p), missing, size));
    }

    /** The two probes, among the files and among the directories. */
    method Descends(p: Path) returns (below: bool)
      requires Valid() && IsPath(p)
      ensures below <==> exists q :: q in model.files && p < q
    {
      BelowADirectory(model.files.Keys, p);
      below := AnyBelow(files.Keys, p, model.files.Keys);
      if !below {
        below := AnyBelow(directories, p, Directories(model.files.Keys));
      }
    }

    lemma Counts(p: Path)
      requires Valid() && IsPath(p)
      ensures |files| == |model.files|
      ensures |directories| + |Ancestors(p, |p|) - directories| == |Directories(model.files.Keys + {p})|
    {
      var keys := model.files.Keys;
      AsManyTexts(keys);
      NewDirectories(keys, p);
      AncestorsArePaths(keys + {p});
      AsManyTexts(Directories(keys + {p}));
      assert |directories + (Ancestors(p, |p|) - directories)| == |directories| + |Ancestors(p, |p|) - directories|;
    }

    /** `apply`. */
    method Apply(ghost p: Path, plan: PlannedWrite)
      requires Valid() && IsPath(p) && !Conflicts(model.files.Keys, p)
      requires plan.path == Join(p) && plan.newDirectories == Ancestors(p, |p|) - directories
      modifies this
      ensures Valid() && model == Record(old(model), p, plan.size)
    {
      RecordIsRepresented(files, directories, totalBytes, model, p, plan.size);
      files := files[plan.path := plan.size];
      directories := directories + plan.newDirectories;
      totalBytes := totalBytes + plan.size;
      model := Record(model, p, plan.size);
    }
  }

  lemma FileAdded(files: map<string, nat>, l: Ledger, p: Path, size: nat)
    requires ArePaths(l.files.Keys) && files.Keys == Texts(l.files.Keys) && IsPath(p) && p !in l.files
    requires forall q :: q in l.files ==> files[Join(q)] == l.files[q]
    ensures files[Join(p) := size].Keys == Texts(l.files.Keys + {p})
    ensures forall q :: q in l.files.Keys + {p} ==> files[Join(p) := size][Join(q)] == l.files[p := size][q]
  {
    forall q | q in l.files && Join(q) == Join(p) ensures q == p {
      JoinIsInjective(q, p);
    }
    assert files[Join(p) := size].Keys == files.Keys + {Join(p)};
    assert Texts(l.files.Keys + {p}) == Texts(l.files.Keys) + {Join(p)};
  }

  lemma RecordIsRepresented(
    files: map<string, nat>, directories: set<string>, total: nat, l: Ledger, p: Path, size: nat)
    requires Represents(files, directories, total, l) && IsPath(p) && !Conflicts(l.files.Keys, p)
    ensures Represents(files[Join(p) := size], directories + (Ancestors(p, |p|) - directories), total + size,
            Record(l, p, size))
  {
    NewDirectories(l.files.Keys, p);
    PrefixFreeOneMore(l.files.Keys, p);
    FileAdded(files, l, p, size);
    assert l.files[p := size].Keys == l.files.Keys + {p};
    assert directories + (Ancestors(p, |p|) - directories) == directories + Ancestors(p, |p|);
  }

  /** The texts of the proper ancestors shorter than `n`. */
  ghost function Ancestors(p: Path, n: nat): set<string>
    requires n <= |p|
  {
    set i | 0 < i < n :: Join(p[..i])
  }

  lemma AncestorsOneMore(p: Path, n: nat)
    requires 0 < n < |p|
    ensures Ancestors(p, n + 1) == Ancestors(p, n) + {Join(p[..n])}
  {
  }

  function PrefixText(p: Path, i: nat): string
    requires i <= |p|
  {
    if i == 0 then "" else Join(p[..i])
  }

  lemma ExtendPrefix(p: Path, i: nat)
    requires IsPath(p) && i < |p|
    ensures PrefixText(p, i + 1) == if PrefixText(p, i) == "" then p[i] else PrefixText(p, i) + "/" + p[i]
    ensures IsPath(p[..i + 1])
  {
    AncestorIsPath(p, i + 1);
    if i > 0 {
      assert p[..i + 1] == p[..i] + [p[i]];
      JoinOfConcat(p[..i], [p[i]]);
      assert p[0] in p && p[..i][0] == p[0];
    } else {
      assert p[..1] == [p[0]];
    }
  }

  lemma NewDirectories(paths: set<Path>, p: Path)
    requires ArePaths(paths) && IsPath(p)
    ensures ArePaths(Directories(paths)) && ArePaths(Directories(paths + {p}))
    ensures Texts(Directories(paths)) + Ancestors(p, |p|) == Texts(Directories(paths + {p}))
  {
    AncestorsArePaths(paths);
    AncestorsArePaths(paths + {p});
    AncestorsArePaths({p});
    DirectoriesOneMore(paths, p);
    assert Ancestors(p, |p|) == Texts(Directories({p})) by {
      forall i | 0 < i < |p| ensures p[..i] in Directories({p}) {
        assert p in {p};
      }
    }
  }

  /** What the native writer reports for one file. */
  datatype NativeOutcome = Written | WriteFailed(code: nat, mutationStarted: bool)

  class StagingTransaction {
    const ledger: PayloadLedger
    var poisoned: bool

    ghost predicate Valid() reads this, ledger { ledger.Valid() }

    constructor ()
      ensures Valid() && !poisoned && ledger.model == Ledger(map[], 0) && fresh(ledger)
    {
      ledger := new PayloadLedger();
      poisoned := false;
    }

    /**
     * `write_file`: lexical and ledger refusals change nothing and may be
     * retried; a failed native write leaves the ledger alone and poisons the
     * writer exactly when it had begun to change the payload.
     */
    method WriteFile(p: Path, size: nat, native: NativeOutcome) returns (r: Result<(), Failure>)
      requires Valid() && IsPath(p)
      modifies this, ledger
      ensures Valid()
      ensures var verdict := Verdict(old(ledger.model), p, size, PUBLIC_LIMITS);
              if old(poisoned) then r == Err(AuthorityValidation) && poisoned && ledger.model == old(ledger.model)
              else if verdict.Some? then r == Err(verdict.value) && !poisoned && ledger.model == old(ledger.model)
              else if native.Written? then
                r == Ok(()) && !poisoned && ledger.model == Record(old(ledger.model), p, size)
              else
                && r == Err(Native(native.code))
                && poisoned == native.mutationStarted && ledger.model == old(ledger.model)
    {
      if poisoned { return Err(AuthorityValidation); }
      var plan := ledger.Plan(p, size, PUBLIC_LIMITS);
      if plan.Err? { return Err(plan.error); }
      match native {
        case Written =>
          ledger.Apply(p, plan.value);
          return Ok(());
        case WriteFailed(code, mutationStarted) =>
          poisoned := poisoned || mutationStarted;
          return Err(Native(code));
      }
    }
  }
}
