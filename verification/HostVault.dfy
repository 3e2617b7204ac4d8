/**
 * The Host vault: what each private command does to the stored credentials and
 * grants, stated on keyed tables. Everything holds for any identifier grammar.
 */
module HostVault {
  import opened Prelude
  import opened KeyOrder

  const MAX_REVISION: nat := 0x7FFF_FFFF_FFFF_FFFF
  const MAX_ACTIVE_CREDENTIALS: nat := 64
  const MAX_CREDENTIALS: nat := 320
  const MAX_GRANTS: nat := 1024
  const MAX_SECRET_BYTES: nat := 8192

  datatype Failure = AuthorityValidation | RevisionConflict | RevisionExhausted | Serialization

  /** Which texts are local identifiers and operation keys, and which are Pack identifiers. */
  datatype Grammar = Grammar(localId: string -> bool, packId: string -> bool)

  datatype Family = Providers | Web | Usage

  datatype CredentialState = Active | Revoked

  type Version = v: nat | 1 <= v <= MAX_REVISION witness 1

  type Secret = seq<bv8>

  /** The text of a well-formed digest. */
  type Digest = string

  datatype Credential = Credential(
    service: string, account: string, issuer: string, schema: string,
    version: Version, state: CredentialState, secret: Option<Secret>)

  /** A stored grant; `None` stands for a digest that is not well formed. */
  datatype Grant = Grant(
    family: Family, manager: string, pack: string, operation: string,
    service: string, account: string, digest: Option<Digest>)

  datatype Vault = Vault(revision: nat, credentials: map<Key, Credential>, grants: map<Key, Grant>)

  // ----- keys and commands ---------------------------------------------------

  function SortKey(f: Family): string {
    match f case Providers => "providers" case Web => "web" case Usage => "usage"
  }

  function ManagerId(f: Family): string {
    match f
    case Providers => "com.mcode.providers"
    case Web => "com.mcode.web"
    case Usage => "com.mcode.usage"
  }

  function CredentialKey(c: Credential): Key { [c.service, c.account] }

  function GrantRowKey(g: Grant): Key { [SortKey(g.family), g.manager, g.pack, g.operation] }

  function Owner(g: Grant): Key { [g.service, g.account] }

  datatype Expected = Absent | Present(revision: nat)

  datatype Descriptor = Descriptor(service: string, account: string, issuer: string, schema: string)

  datatype Target = Target(descriptor: Descriptor, version: Version)

  datatype GrantKey = GrantKey(family: Family, pack: string, operation: string)

  /** A grant asked for: on the credential being inserted, or on an exact existing one. */
  datatype Approval = Approval(key: GrantKey, digest: Digest)

  datatype BindApproval = BindApproval(key: GrantKey, target: Target, digest: Digest)

  datatype Binding = Binding(service: string, account: string, digest: Digest)

  datatype Command =
    | InitializeEmpty
    | Insert(expected: Expected, descriptor: Descriptor, secret: Secret, approvals: seq<Approval>)
    | Rotate(expected: Expected, service: string, account: string, version: Version, secret: Secret)
    | Revoke(expected: Expected, service: string, account: string, version: Version)
    | Bind(expected: Expected, bindings: seq<BindApproval>)
    | Rebind(expected: Expected, key: GrantKey, old_: Binding, replacement: Target, digest: Digest)
    | Unbind(expected: Expected, key: GrantKey, old_: Binding)

  datatype Receipt = Receipt(revision: nat, version: Option<Version>)

  datatype Reply = Done(vault: Vault, receipt: Receipt) | Refused(failure: Failure)

  function InputKey(k: GrantKey): Key { [SortKey(k.family), ManagerId(k.family), k.pack, k.operation] }

  function OwnedGrant(k: GrantKey, d: Descriptor, digest: Digest): (g: Grant)
    ensures GrantRowKey(g) == InputKey(k) && Owner(g) == DescriptorKey(d)
  {
    Grant(k.family, ManagerId(k.family), k.pack, k.operation, d.service, d.account, Some(digest))
  }

  function DescriptorKey(d: Descriptor): Key { [d.service, d.account] }

  /** The rows of an insertion or of a binding, in the order they were given. */
  function ApprovedGrants(approvals: seq<Approval>, d: Descriptor): (rows: seq<Grant>)
    ensures |rows| == |approvals|
    ensures forall i :: 0 <= i < |rows| ==> rows[i] == OwnedGrant(approvals[i].key, d, approvals[i].digest)
  {
    seq(|approvals|, i requires 0 <= i < |approvals| => OwnedGrant(approvals[i].key, d, approvals[i].digest))
  }

  function BoundGrants(bindings: seq<BindApproval>): (rows: seq<Grant>)
    ensures |rows| == |bindings|
    ensures forall i :: 0 <= i < |rows| ==>
              rows[i] == OwnedGrant(bindings[i].key, bindings[i].target.descriptor, bindings[i].digest)
  {
    seq(|bindings|, i requires 0 <= i < |bindings| =>
      OwnedGrant(bindings[i].key, bindings[i].target.descriptor, bindings[i].digest))
  }

  // ----- what a well-formed vault is -----------------------------------------

  predicate IsDescriptor(g: Grammar, d: Descriptor) {
    g.localId(d.service) && g.localId(d.account) && g.localId(d.issuer) && g.localId(d.schema)
  }

  predicate IsGrantInput(g: Grammar, k: GrantKey) { g.localId(k.operation) && g.packId(k.pack) }

  predicate IsBinding(g: Grammar, b: Binding) { g.localId(b.service) && g.localId(b.account) }

  predicate IsSecret(s: Secret) { 1 <= |s| <= MAX_SECRET_BYTES }

  /** Identifiers are canonical, and exactly the active credentials hold a secret. */
  predicate IsCredential(g: Grammar, c: Credential) {
    && g.localId(c.service) && g.localId(c.account) && g.localId(c.issuer) && g.localId(c.schema)
    && (c.state.Active? <==> c.secret.Some?)
  }

  predicate IsGrant(g: Grammar, row: Grant) {
    && g.localId(row.operation) && row.manager == ManagerId(row.family) && g.packId(row.pack)
    && g.localId(row.service) && g.localId(row.account) && row.digest.Some?
  }

  ghost function ActiveKeys(credentials: map<Key, Credential>): set<Key> {
    set k | k in credentials && credentials[k].state.Active?
  }

  predicate IsActive(credentials: map<Key, Credential>, k: Key) {
    k in credentials && credentials[k].state.Active?
  }

  ghost predicate CredentialsOk(g: Grammar, credentials: map<Key, Credential>) {
    && (forall k :: k in credentials ==> CredentialKey(credentials[k]) == k && IsCredential(g, credentials[k]))
    && |ActiveKeys(credentials)| <= MAX_ACTIVE_CREDENTIALS
    && |credentials| <= MAX_CREDENTIALS
  }

  ghost predicate RowsOk(g: Grammar, grants: map<Key, Grant>) {
    forall k :: k in grants ==> GrantRowKey(grants[k]) == k && IsGrant(g, grants[k])
  }

  /** Every grant names exactly one active credential: the one under its owner's key. */
  ghost predicate RowsOwned(grants: map<Key, Grant>, credentials: map<Key, Credential>) {
    forall k :: k in grants ==> IsActive(credentials, Owner(grants[k]))
  }

  ghost predicate GrantsOk(g: Grammar, grants: map<Key, Grant>, credentials: map<Key, Credential>) {
    RowsOk(g, grants) && RowsOwned(grants, credentials) && |grants| <= MAX_GRANTS
  }

  ghost predicate Sound(g: Grammar, v: Vault) {
    v.revision <= MAX_REVISION && CredentialsOk(g, v.credentials) && GrantsOk(g, v.grants, v.credentials)
  }

  // ----- the commands --------------------------------------------------------

  const EMPTY: Vault := Vault(0, map[], map[])

  /** Takes the next revision, or reports that the counter is exhausted. */
  function Commit(v: Vault, credentials: map<Key, Credential>, grants: map<Key, Grant>, version: Option<Version>)
    : Reply
  {
    if v.revision + 1 > MAX_REVISION then Refused(RevisionExhausted)
    else Done(Vault(v.revision + 1, credentials, grants), Receipt(v.revision + 1, version))
  }

  ghost predicate NewRows(grants: map<Key, Grant>, rows: seq<Grant>) {
    Distinct(rows, GrantRowKey) && forall row :: row in rows ==> GrantRowKey(row) !in grants
  }

  predicate HasVersion(v: Vault, k: Key, version: Version) {
    IsActive(v.credentials, k) && v.credentials[k].version == version
  }

  /** The credential a target names: active, at its version, with its issuer and schema. */
  predicate IsExact(v: Vault, t: Target) {
    var k := DescriptorKey(t.descriptor);
    && HasVersion(v, k, t.version)
    && v.credentials[k].issuer == t.descriptor.issuer
    && v.credentials[k].schema == t.descriptor.schema
  }

  predicate IsBoundTo(v: Vault, key: GrantKey, b: Binding) {
    && InputKey(key) in v.grants
    && var row := v.grants[InputKey(key)];
      row.service == b.service && row.account == b.account && row.digest == Some(b.digest)
  }

  function FirstVersion(d: Descriptor, secret: Secret): Credential {
    Credential(d.service, d.account, d.issuer, d.schema, 1, Active, Some(secret))
  }

  ghost function InsertCredential(
    g: Grammar, v: Vault, d: Descriptor, secret: Secret, approvals: seq<Approval>): Reply
  {
    var rows := ApprovedGrants(approvals, d);
    if |rows| > MAX_GRANTS then Refused(AuthorityValidation)
    else if DescriptorKey(d) in v.credentials then Refused(RevisionConflict)
    else if !NewRows(v.grants, rows) then Refused(RevisionConflict)
    else if !IsDescriptor(g, d) || !IsSecret(secret) then Refused(AuthorityValidation)
    else if exists a :: a in approvals && !IsGrantInput(g, a.key) then Refused(AuthorityValidation)
    else if |rows| + |v.grants| > MAX_GRANTS
      || |ActiveKeys(v.credentials)| >= MAX_ACTIVE_CREDENTIALS
      || |v.credentials| >= MAX_CREDENTIALS then Refused(AuthorityValidation)
    else Commit(v, v.credentials[DescriptorKey(d) := FirstVersion(d, secret)],
                v.grants + Table(rows, GrantRowKey), Some(1))
  }

  function RotateSecret(v: Vault, service: string, account: string, version: Version, secret: Secret): Reply {
    var k := [service, account];
    if !HasVersion(v, k, version) then Refused(RevisionConflict)
    else if !IsSecret(secret) then Refused(AuthorityValidation)
    else if version == MAX_REVISION then Refused(RevisionExhausted)
    else Commit(v, v.credentials[k := v.credentials[k].(version := version + 1, secret := Some(secret))],
                v.grants, Some(version + 1))
  }

  /** The grants that do not name the account. */
  function Unowned(grants: map<Key, Grant>, owner: Key): map<Key, Grant> {
    map k | k in grants && Owner(grants[k]) != owner :: grants[k]
  }

  function RevokeCredential(v: Vault, service: string, account: string, version: Version): Reply {
    var k := [service, account];
    if !HasVersion(v, k, version) then Refused(RevisionConflict)
    else if version == MAX_REVISION then Refused(RevisionExhausted)
    else Commit(v, v.credentials[k := v.credentials[k].(version := version + 1, state := Revoked, secret := None)],
                Unowned(v.grants, k), Some(version + 1))
  }

  ghost function BindGrants(g: Grammar, v: Vault, bindings: seq<BindApproval>): Reply {
    var rows := BoundGrants(bindings);
    if bindings == [] || |bindings| > MAX_GRANTS then Refused(AuthorityValidation)
    else if !NewRows(v.grants, rows) then Refused(RevisionConflict)
    else if exists b :: b in bindings && !IsExact(v, b.target) then Refused(RevisionConflict)
    else if exists b :: b in bindings && !(IsGrantInput(g, b.key) && IsDescriptor(g, b.target.descriptor))
    then Refused(AuthorityValidation)
    else if |rows| + |v.grants| > MAX_GRANTS then Refused(AuthorityValidation)
    else Commit(v, v.credentials, v.grants + Table(rows, GrantRowKey), None)
  }

  function RebindGrant(g: Grammar, v: Vault, key: GrantKey, b: Binding, t: Target, digest: Digest): Reply {
    if !IsBoundTo(v, key, b) || !IsExact(v, t) then Refused(RevisionConflict)
    else if !IsGrantInput(g, key) || !IsBinding(g, b) || !IsDescriptor(g, t.descriptor)
    then Refused(AuthorityValidation)
    else
      var row := v.grants[InputKey(key)].(
        service := t.descriptor.service, account := t.descriptor.account, digest := Some(digest));
      Commit(v, v.credentials, v.grants[InputKey(key) := row], None)
  }

  function UnbindGrant(g: Grammar, v: Vault, key: GrantKey, b: Binding): Reply {
    if !IsBoundTo(v, key, b) then Refused(RevisionConflict)
    else if !IsGrantInput(g, key) || !IsBinding(g, b) then Refused(AuthorityValidation)
    else Commit(v, v.credentials, v.grants - {InputKey(key)}, None)
  }

  ghost function Apply(g: Grammar, v: Vault, c: Command): Reply {
    match c
    case InitializeEmpty => Done(v, Receipt(0, None))
    case Insert(_, d, secret, approvals) => InsertCredential(g, v, d, secret, approvals)
    case Rotate(_, service, account, version, secret) => RotateSecret(v, service, account, version, secret)
    case Revoke(_, service, account, version) => RevokeCredential(v, service, account, version)
    case Bind(_, bindings) => BindGrants(g, v, bindings)
    case Rebind(_, key, b, t, digest) => RebindGrant(g, v, key, b, t, digest)
    case Unbind(_, key, b) => UnbindGrant(g, v, key, b)
  }

  predicate Meets(current: Option<Vault>, e: Expected) {
    match e
    case Absent => current.None?
    case Present(r) => current.Some? && current.value.revision == r
  }

  predicate ExpectationHolds(current: Option<Vault>, c: Command) {
    && (if c.InitializeEmpty? then current.None? else Meets(current, c.expected))
    && (current.None? ==> c.InitializeEmpty? || c.Insert?)
  }

  function Stored(current: Option<Vault>): Vault {
    if current.Some? then current.value else EMPTY
  }

  /** One whole transaction: the expected state is compared, then the command applied. */
  ghost function Persist(g: Grammar, current: Option<Vault>, c: Command): Reply {
    if !ExpectationHolds(current, c) then Refused(RevisionConflict) else Apply(g, Stored(current), c)
  }

  // ----- every command keeps the vault sound ---------------------------------

  lemma ActiveKeysAfter(cs: map<Key, Credential>, k: Key, c: Credential)
    ensures ActiveKeys(cs[k := c]) ==
            if c.state.Active? then ActiveKeys(cs) + {k} else ActiveKeys(cs) - {k}
  {
  }

  lemma SmallerMap<K, V>(a: map<K, V>, b: map<K, V>)
    requires a.Keys <= b.Keys
    ensures |a| <= |b|
  {
    SmallerSet(a.Keys, b.Keys);
  }

  lemma MergedSize<K, V>(a: map<K, V>, b: map<K, V>)
    requires a.Keys !! b.Keys
    ensures |a + b| == |a| + |b|
  {
    assert (a + b).Keys == a.Keys + b.Keys;
    assert |(a + b).Keys| == |a.Keys| + |b.Keys|;
  }

  lemma RowsOfTable<T(!new)>(m: map<Key, T>, rows: seq<T>, key: T -> Key)
    requires Distinct(rows, key) && forall x :: x in rows ==> key(x) !in m
    ensures |m + Table(rows, key)| == |m| + |rows|
  {
    TableSize(rows, key);
    forall k | k in Table(rows, key) ensures k !in m {
      assert Table(rows, key)[k] in rows;
    }
    MergedSize(m, Table(rows, key));
  }

  lemma ActiveCountAfter(cs: map<Key, Credential>, c: Credential)
    requires IsActive(cs, CredentialKey(c)) && c.state.Active?
    ensures |ActiveKeys(cs[CredentialKey(c) := c])| == |ActiveKeys(cs)|
  {
    assert ActiveKeys(cs[CredentialKey(c) := c]) == ActiveKeys(cs);
  }

  lemma WithCredential(g: Grammar, cs: map<Key, Credential>, c: Credential)
    requires CredentialsOk(g, cs) && IsCredential(g, c) && c.state.Active?
    requires IsActive(cs, CredentialKey(c)) || (CredentialKey(c) !in cs
               && |cs| < MAX_CREDENTIALS && |ActiveKeys(cs)| < MAX_ACTIVE_CREDENTIALS)
    ensures CredentialsOk(g, cs[CredentialKey(c) := c])
  {
    if IsActive(cs, CredentialKey(c)) {
      ActiveCountAfter(cs, c);
      SmallerMap(cs[CredentialKey(c) := c], cs);
    } else {
      ActiveKeysAfter(cs, CredentialKey(c), c);
    }
  }

  lemma WithRevoked(g: Grammar, cs: map<Key, Credential>, c: Credential)
    requires CredentialsOk(g, cs) && IsCredential(g, c) && c.state.Revoked? && CredentialKey(c) in cs
    ensures CredentialsOk(g, cs[CredentialKey(c) := c])
  {
    var after := cs[CredentialKey(c) := c];
    ActiveKeysAfter(cs, CredentialKey(c), c);
    SmallerSet(ActiveKeys(after), ActiveKeys(cs));
    SmallerMap(after, cs);
  }

  lemma OwnersStayActive(g: Grammar, grants: map<Key, Grant>, cs: map<Key, Credential>, c: Credential)
    requires GrantsOk(g, grants, cs) && c.state.Active?
    ensures GrantsOk(g, grants, cs[CredentialKey(c) := c])
  {
  }

  lemma OthersStayActive(g: Grammar, grants: map<Key, Grant>, cs: map<Key, Credential>, c: Credential)
    requires GrantsOk(g, grants, cs)
    ensures GrantsOk(g, Unowned(grants, CredentialKey(c)), cs[CredentialKey(c) := c])
  {
    SmallerMap(Unowned(grants, CredentialKey(c)), grants);
  }

  lemma MergeRowsOk(g: Grammar, grants: map<Key, Grant>, rows: seq<Grant>)
    requires RowsOk(g, grants) && forall row :: row in rows ==> IsGrant(g, row)
    ensures RowsOk(g, grants + Table(rows, GrantRowKey))
  {
  }

  lemma MergeRowsOwned(grants: map<Key, Grant>, cs: map<Key, Credential>, rows: seq<Grant>)
    requires RowsOwned(grants, cs) && forall row :: row in rows ==> IsActive(cs, Owner(row))
    ensures RowsOwned(grants + Table(rows, GrantRowKey), cs)
  {
  }

  lemma WithGrants(g: Grammar, grants: map<Key, Grant>, cs: map<Key, Credential>, rows: seq<Grant>)
    requires GrantsOk(g, grants, cs) && NewRows(grants, rows) && |grants| + |rows| <= MAX_GRANTS
    requires forall row :: row in rows ==> IsGrant(g, row) && IsActive(cs, Owner(row))
    ensures GrantsOk(g, grants + Table(rows, GrantRowKey), cs)
  {
    RowsOfTable(grants, rows, GrantRowKey);
    MergeRowsOk(g, grants, rows);
    MergeRowsOwned(grants, cs, rows);
  }

  lemma ApprovedRows(g: Grammar, approvals: seq<Approval>, d: Descriptor)
    requires IsDescriptor(g, d) && forall a :: a in approvals ==> IsGrantInput(g, a.key)
    ensures forall row :: row in ApprovedGrants(approvals, d) ==> IsGrant(g, row) && Owner(row) == DescriptorKey(d)
  {
    forall i | 0 <= i < |approvals| ensures IsGrant(g, ApprovedGrants(approvals, d)[i]) {
      assert approvals[i] in approvals;
    }
  }

  lemma BoundRows(g: Grammar, v: Vault, bindings: seq<BindApproval>)
    requires forall b :: b in bindings ==>
               IsGrantInput(g, b.key) && IsDescriptor(g, b.target.descriptor) && IsExact(v, b.target)
    ensures forall row :: row in BoundGrants(bindings) ==> IsGrant(g, row) && IsActive(v.credentials, Owner(row))
  {
    forall i | 0 <= i < |bindings|
      ensures IsGrant(g, BoundGrants(bindings)[i]) && IsActive(v.credentials, Owner(BoundGrants(bindings)[i]))
    {
      assert bindings[i] in bindings;
    }
  }

  lemma InsertKeepsSound(g: Grammar, v: Vault, d: Descriptor, secret: Secret, approvals: seq<Approval>)
    requires Sound(g, v) && InsertCredential(g, v, d, secret, approvals).Done?
    ensures Sound(g, InsertCredential(g, v, d, secret, approvals).vault)
  {
    var c := FirstVersion(d, secret);
    WithCredential(g, v.credentials, c);
    OwnersStayActive(g, v.grants, v.credentials, c);
    ApprovedRows(g, approvals, d);
    WithGrants(g, v.grants, v.credentials[CredentialKey(c) := c], ApprovedGrants(approvals, d));
  }

  lemma RotateKeepsSound(g: Grammar, v: Vault, service: string, account: string, version: Version, secret: Secret)
    requires Sound(g, v) && RotateSecret(v, service, account, version, secret).Done?
    ensures Sound(g, RotateSecret(v, service, account, version, secret).vault)
  {
    var c := v.credentials[[service, account]].(version := version + 1, secret := Some(secret));
    WithCredential(g, v.credentials, c);
    OwnersStayActive(g, v.grants, v.credentials, c);
  }

  lemma RevokeKeepsSound(g: Grammar, v: Vault, service: string, account: string, version: Version)
    requires Sound(g, v) && RevokeCredential(v, service, account, version).Done?
    ensures Sound(g, RevokeCredential(v, service, account, version).vault)
  {
    var c := v.credentials[[service, account]].(version := version + 1, state := Revoked, secret := None);
    WithRevoked(g, v.credentials, c);
    OthersStayActive(g, v.grants, v.credentials, c);
  }

  lemma BindFacts(g: Grammar, v: Vault, bindings: seq<BindApproval>)
    requires BindGrants(g, v, bindings).Done?
    ensures v.revision < MAX_REVISION && NewRows(v.grants, BoundGrants(bindings))
    ensures |BoundGrants(bindings)| + |v.grants| <= MAX_GRANTS
    ensures forall b :: b in bindings ==>
              IsGrantInput(g, b.key) && IsDescriptor(g, b.target.descriptor) && IsExact(v, b.target)
    ensures BindGrants(g, v, bindings) ==
            Done(Vault(v.revision + 1, v.credentials, v.grants + Table(BoundGrants(bindings), GrantRowKey)),
                 Receipt(v.revision + 1, None))
  {
  }

  lemma BoundIsSound(g: Grammar, v: Vault, w: Vault, bindings: seq<BindApproval>)
    requires Sound(g, v) && v.revision < MAX_REVISION
    requires NewRows(v.grants, BoundGrants(bindings)) && |BoundGrants(bindings)| + |v.grants| <= MAX_GRANTS
    requires forall b :: b in bindings ==>
               IsGrantInput(g, b.key) && IsDescriptor(g, b.target.descriptor) && IsExact(v, b.target)
    requires w == Vault(v.revision + 1, v.credentials, v.grants + Table(BoundGrants(bindings), GrantRowKey))
    ensures Sound(g, w)
  {
    BoundRows(g, v, bindings);
    WithGrants(g, v.grants, v.credentials, BoundGrants(bindings));
  }

  lemma BindKeepsSound(g: Grammar, v: Vault, w: Vault, bindings: seq<BindApproval>)
    requires Sound(g, v) && BindGrants(g, v, bindings).Done? && w == BindGrants(g, v, bindings).vault
    ensures Sound(g, w)
  {
    BindFacts(g, v, bindings);
    BoundIsSound(g, v, w, bindings);
  }

  lemma RebindKeepsSound(g: Grammar, v: Vault, key: GrantKey, b: Binding, t: Target, digest: Digest)
    requires Sound(g, v) && RebindGrant(g, v, key, b, t, digest).Done?
    ensures Sound(g, RebindGrant(g, v, key, b, t, digest).vault)
  {
    SmallerMap(RebindGrant(g, v, key, b, t, digest).vault.grants, v.grants);
  }

  lemma UnbindKeepsSound(g: Grammar, v: Vault, key: GrantKey, b: Binding)
    requires Sound(g, v) && UnbindGrant(g, v, key, b).Done?
    ensures Sound(g, UnbindGrant(g, v, key, b).vault)
  {
    SmallerMap(v.grants - {InputKey(key)}, v.grants);
  }

  /** A successful command takes a sound vault to a sound vault. */
  lemma ApplyKeepsSound(g: Grammar, v: Vault, c: Command)
    requires Sound(g, v) && Apply(g, v, c).Done?
    ensures Sound(g, Apply(g, v, c).vault)
  {
    match c
    case InitializeEmpty =>
    case Insert(_, d, secret, approvals) => InsertKeepsSound(g, v, d, secret, approvals);
    case Rotate(_, service, account, version, secret) => RotateKeepsSound(g, v, service, account, version, secret);
    case Revoke(_, service, account, version) => RevokeKeepsSound(g, v, service, account, version);
    case Bind(_, bindings) => BindKeepsSound(g, v, Apply(g, v, c).vault, bindings);
    case Rebind(_, key, b, t, digest) => RebindKeepsSound(g, v, key, b, t, digest);
    case Unbind(_, key, b) => UnbindKeepsSound(g, v, key, b);
  }
}
