/** Laws of the Host vault over whole histories of commands. */
module VaultHistory {
  import opened Prelude
  import opened KeyOrder
  import opened HostVault

  /** What a stored account may become: itself, or, while active, a strictly newer version. */
  ghost predicate Successor(c: Credential, d: Credential) {
    || d == c
    || (&& c.state.Active? && d.version > c.version
        && d.service == c.service && d.account == c.account && d.issuer == c.issuer && d.schema == c.schema)
  }

  /** No account is ever removed, and each one only moves forward. */
  ghost predicate Extends(v: Vault, w: Vault) {
    && v.revision <= w.revision
    && forall k :: k in v.credentials ==> k in w.credentials && Successor(v.credentials[k], w.credentials[k])
  }

  lemma ApplyExtends(g: Grammar, v: Vault, c: Command)
    requires Apply(g, v, c).Done?
    ensures Extends(v, Apply(g, v, c).vault)
  {
    match c
    case InitializeEmpty =>
    case Insert(_, d, secret, approvals) => InsertExtends(g, v, d, secret, approvals);
    case Rotate(_, service, account, version, secret) =>
    case Revoke(_, service, account, version) =>
    case Bind(_, bindings) => BindFacts(g, v, bindings);
    case Rebind(_, key, b, t, digest) =>
    case Unbind(_, key, b) =>
  }

  lemma InsertExtends(g: Grammar, v: Vault, d: Descriptor, secret: Secret, approvals: seq<Approval>)
    requires InsertCredential(g, v, d, secret, approvals).Done?
    ensures Extends(v, InsertCredential(g, v, d, secret, approvals).vault)
  {
  }

  lemma ExtendsTransitive(u: Vault, v: Vault, w: Vault)
    requires Extends(u, v) && Extends(v, w)
    ensures Extends(u, w)
  {
    forall k | k in u.credentials ensures k in w.credentials && Successor(u.credentials[k], w.credentials[k]) {
      assert Successor(u.credentials[k], v.credentials[k]) && Successor(v.credentials[k], w.credentials[k]);
    }
  }

  // ----- histories -----------------------------------------------------------

  ghost function Next(g: Grammar, current: Option<Vault>, c: Command): Option<Vault> {
    match Persist(g, current, c)
    case Done(w, _) => Some(w)
    case Refused(_) => current
  }

  /** The stored vault after a list of commands, refused ones leaving it untouched. */
  ghost function After(g: Grammar, current: Option<Vault>, cs: seq<Command>): Option<Vault>
    decreases |cs|
  {
    if cs == [] then current else After(g, Next(g, current, cs[0]), cs[1..])
  }

  ghost predicate SoundState(g: Grammar, current: Option<Vault>) {
    current.Some? ==> Sound(g, current.value)
  }

  lemma EmptyIsSound(g: Grammar)
    ensures Sound(g, EMPTY)
  {
    assert ActiveKeys(map[]) == {};
  }

  lemma PersistKeepsSound(g: Grammar, current: Option<Vault>, c: Command)
    requires SoundState(g, current)
    ensures SoundState(g, Next(g, current, c))
  {
    EmptyIsSound(g);
    if Persist(g, current, c).Done? { ApplyKeepsSound(g, Stored(current), c); }
  }

  lemma {:induction false} HistoryKeepsSound(g: Grammar, current: Option<Vault>, cs: seq<Command>)
    requires SoundState(g, current)
    ensures SoundState(g, After(g, current, cs))
    decreases |cs|
  {
    if cs != [] {
      PersistKeepsSound(g, current, cs[0]);
      HistoryKeepsSound(g, Next(g, current, cs[0]), cs[1..]);
    }
  }

  lemma {:induction false} HistoryExtends(g: Grammar, v: Vault, cs: seq<Command>)
    ensures After(g, Some(v), cs).Some? && Extends(v, After(g, Some(v), cs).value)
    decreases |cs|
  {
    if cs != [] {
      var next := Next(g, Some(v), cs[0]);
      if Persist(g, Some(v), cs[0]).Done? { ApplyExtends(g, v, cs[0]); }
      HistoryExtends(g, next.value, cs[1..]);
      ExtendsTransitive(v, next.value, After(g, Some(v), cs).value);
    }
  }

  /** A service, an account and a version name one secret in every later vault. */
  lemma VersionNamesOneSecret(g: Grammar, v: Vault, cs: seq<Command>, k: Key)
    requires k in v.credentials
    ensures After(g, Some(v), cs).Some? && k in After(g, Some(v), cs).value.credentials
    ensures var d := After(g, Some(v), cs).value.credentials[k];
            && d.version >= v.credentials[k].version
            && (d.version == v.credentials[k].version ==> d == v.credentials[k])
            && d.issuer == v.credentials[k].issuer && d.schema == v.credentials[k].schema
  {
    HistoryExtends(g, v, cs);
  }

  /** A revoked account never changes again and no grant ever names it again. */
  lemma RevokedForever(g: Grammar, v: Vault, cs: seq<Command>, k: Key)
    requires Sound(g, v) && k in v.credentials && v.credentials[k].state.Revoked?
    ensures After(g, Some(v), cs).Some?
    ensures var w := After(g, Some(v), cs).value;
            && k in w.credentials && w.credentials[k] == v.credentials[k]
            && forall r :: r in w.grants ==> Owner(w.grants[r]) != k
  {
    HistoryExtends(g, v, cs);
    HistoryKeepsSound(g, Some(v), cs);
  }

  // ----- revisions -----------------------------------------------------------

  lemma RevisionOfApply(g: Grammar, v: Vault, c: Command)
    requires Apply(g, v, c).Done?
    ensures Apply(g, v, c).vault.revision == if c.InitializeEmpty? then v.revision else v.revision + 1
    ensures !c.InitializeEmpty? ==> Apply(g, v, c).receipt.revision == v.revision + 1
  {
    match c
    case InitializeEmpty =>
    case Insert(_, d, secret, approvals) => RevisionOfInsert(g, v, d, secret, approvals);
    case Rotate(_, service, account, version, secret) =>
    case Revoke(_, service, account, version) =>
    case Bind(_, bindings) => RevisionOfBind(g, v, bindings);
    case Rebind(_, key, b, t, digest) =>
    case Unbind(_, key, b) =>
  }

  lemma RevisionOfInsert(g: Grammar, v: Vault, d: Descriptor, secret: Secret, approvals: seq<Approval>)
    requires InsertCredential(g, v, d, secret, approvals).Done?
    ensures InsertCredential(g, v, d, secret, approvals).vault.revision == v.revision + 1
    ensures InsertCredential(g, v, d, secret, approvals).receipt.revision == v.revision + 1
  {
  }

  lemma RevisionOfBind(g: Grammar, v: Vault, bindings: seq<BindApproval>)
    requires BindGrants(g, v, bindings).Done?
    ensures BindGrants(g, v, bindings).vault.revision == v.revision + 1
    ensures BindGrants(g, v, bindings).receipt.revision == v.revision + 1
  {
  }

  function Expectation(c: Command): Expected {
    if c.InitializeEmpty? then Absent else c.expected
  }

  /** Of two commands that expect the same state at most one ever succeeds. */
  lemma ExpectationIsSpent(g: Grammar, current: Option<Vault>, c: Command, cs: seq<Command>, d: Command)
    requires Persist(g, current, c).Done? && Expectation(d) == Expectation(c)
    ensures Persist(g, After(g, Some(Persist(g, current, c).vault), cs), d) == Refused(RevisionConflict)
  {
    RevisionOfApply(g, Stored(current), c);
    HistoryExtends(g, Persist(g, current, c).vault, cs);
  }

  // ----- grants --------------------------------------------------------------

  /** The keys a command may add or redirect. */
  ghost predicate Names(c: Command, k: Key) {
    match c
    case Insert(_, _, _, approvals) => exists a :: a in approvals && InputKey(a.key) == k
    case Bind(_, bindings) => exists b :: b in bindings && InputKey(b.key) == k
    case Rebind(_, key, _, _, _) => InputKey(key) == k
    case _ => false
  }

  lemma InsertGrants(g: Grammar, v: Vault, d: Descriptor, secret: Secret, approvals: seq<Approval>, k: Key)
    requires InsertCredential(g, v, d, secret, approvals).Done?
    requires var w := InsertCredential(g, v, d, secret, approvals).vault;
             k in w.grants && (k !in v.grants || w.grants[k] != v.grants[k])
    ensures k !in v.grants && exists a :: a in approvals && InputKey(a.key) == k
  {
    var rows := ApprovedGrants(approvals, d);
    assert k in Table(rows, GrantRowKey);
    var i :| 0 <= i < |rows| && rows[i] == Table(rows, GrantRowKey)[k];
    assert approvals[i] in approvals && rows[i] in rows;
  }

  lemma BindAddsGrants(g: Grammar, v: Vault, bindings: seq<BindApproval>, k: Key)
    requires BindGrants(g, v, bindings).Done?
    requires var w := BindGrants(g, v, bindings).vault;
             k in w.grants && (k !in v.grants || w.grants[k] != v.grants[k])
    ensures k !in v.grants && exists b :: b in bindings && InputKey(b.key) == k
  {
    BindFacts(g, v, bindings);
    var rows := BoundGrants(bindings);
    assert k in Table(rows, GrantRowKey);
    var i :| 0 <= i < |rows| && rows[i] == Table(rows, GrantRowKey)[k];
    assert bindings[i] in bindings && rows[i] in rows;
  }

  /** A grant appears or is redirected only by a command that names its key. */
  lemma GrantsChangeByName(g: Grammar, v: Vault, c: Command, k: Key)
    requires Apply(g, v, c).Done?
    requires var w := Apply(g, v, c).vault; k in w.grants && (k !in v.grants || w.grants[k] != v.grants[k])
    ensures Names(c, k) && (k in v.grants ==> c.Rebind?)
  {
    match c
    case InitializeEmpty =>
    case Insert(_, d, secret, approvals) => InsertGrants(g, v, d, secret, approvals, k);
    case Rotate(_, service, account, version, secret) =>
    case Revoke(_, service, account, version) =>
    case Bind(_, bindings) => BindAddsGrants(g, v, bindings, k);
    case Rebind(_, key, b, t, digest) =>
    case Unbind(_, key, b) =>
  }

  /** Unbinding what was just bound restores both tables. */
  lemma UnbindUndoesBind(g: Grammar, v: Vault, b: BindApproval)
    requires BindGrants(g, v, [b]).Done?
    ensures var d := b.target.descriptor;
            var back := UnbindGrant(g, BindGrants(g, v, [b]).vault, b.key, Binding(d.service, d.account, b.digest));
            if v.revision + 2 <= MAX_REVISION then back.Done? && back.vault == v.(revision := v.revision + 2)
            else back == Refused(RevisionExhausted)
  {
    var k, rows := InputKey(b.key), BoundGrants([b]);
    BindFacts(g, v, [b]);
    assert b in [b];
    assert rows == [OwnedGrant(b.key, b.target.descriptor, b.digest)] && rows[0] in rows;
    OneRow(rows[0]);
    assert BindGrants(g, v, [b]).vault.grants == v.grants[k := rows[0]];
    assert v.grants[k := rows[0]] - {k} == v.grants;
  }

  lemma OneRow(row: Grant)
    ensures Table([row], GrantRowKey) == map[GrantRowKey(row) := row]
  {
    TableLooksUp([row], GrantRowKey);
    TableIs([row], GrantRowKey, map[GrantRowKey(row) := row]);
  }
}
