/**
 * The Host-vault reducer: a document whose rows are pushed, retained, removed
 * and sorted in place, answering exactly to the commands on the tables.
 */
module VaultCode {
  import opened Prelude
  import opened KeyOrder
  import opened HostVault
  import opened VaultCheck

  // ----- what editing a row list does to its table ---------------------------

  lemma TableAround<T(!new)>(a: seq<T>, y: T, b: seq<T>, key: T -> Key)
    requires Distinct(a + [y] + b, key)
    ensures Table(a + [y] + b, key) == Table(a, key)[key(y) := y] + Table(b, key)
    ensures key(y) !in Table(a, key) && key(y) !in Table(b, key)
  {
    PartsAreDistinct(a + [y], b, key);
    TableOfAppend(a + [y], b, key);
    TableOfOneMore(a, y, key);
    assert y in a + [y];
  }

  lemma ReplaceMiddle<T(!new)>(a: seq<T>, y: T, x: T, b: seq<T>, key: T -> Key)
    requires key(x) == key(y) && Distinct(a + [y] + b, key) && Distinct(a + [x] + b, key)
    ensures Table(a + [x] + b, key) == Table(a + [y] + b, key)[key(x) := x]
  {
    TableAround(a, y, b, key);
    TableAround(a, x, b, key);
  }

  lemma DropKey<K, V>(a: map<K, V>, b: map<K, V>, k: K, v: V)
    requires k !in a && k !in b
    ensures (a[k := v] + b) - {k} == a + b
  {
  }

  lemma DropMiddle<T(!new)>(a: seq<T>, y: T, b: seq<T>, key: T -> Key)
    requires Distinct(a + [y] + b, key) && Distinct(a + b, key)
    ensures Table(a + b, key) == Table(a + [y] + b, key) - {key(y)}
  {
    TableAround(a, y, b, key);
    TableOfAppend(a, b, key);
    DropKey(Table(a, key), Table(b, key), key(y), y);
  }

  lemma AroundRow<T>(s: seq<T>, i: nat, x: T)
    requires i < |s|
    ensures s[..i] + [s[i]] + s[i + 1..] == s && s[..i] + [x] + s[i + 1..] == s[i := x]
  {
  }

  lemma TableOfUpdate<T(!new)>(s: seq<T>, i: nat, x: T, key: T -> Key)
    requires Distinct(s, key) && i < |s| && key(x) == key(s[i])
    ensures Distinct(s[i := x], key) && Table(s[i := x], key) == Table(s, key)[key(x) := x]
  {
    assert forall j :: 0 <= j < |s| ==> key(s[i := x][j]) == key(s[j]);
    AroundRow(s, i, x);
    ReplaceMiddle(s[..i], s[i], x, s[i + 1..], key);
  }

  lemma DistinctWithout<T(!new)>(s: seq<T>, i: nat, key: T -> Key)
    requires Distinct(s, key) && i < |s|
    ensures Distinct(s[..i] + s[i + 1..], key)
  {
    var t := s[..i] + s[i + 1..];
    assert forall j :: 0 <= j < |t| ==> t[j] == s[if j < i then j else j + 1];
    forall j, k | 0 <= j < k < |t| ensures key(t[j]) != key(t[k]) {
      DifferentRows(s, key, if j < i then j else j + 1, if k < i then k else k + 1);
    }
  }

  lemma TableOfRemove<T(!new)>(s: seq<T>, i: nat, key: T -> Key)
    requires Distinct(s, key) && i < |s|
    ensures Table(s[..i] + s[i + 1..], key) == Table(s, key) - {key(s[i])}
  {
    AroundRow(s, i, s[i]);
    DistinctWithout(s, i, key);
    DropMiddle(s[..i], s[i], s[i + 1..], key);
  }

  /** The grants of other accounts, in their order. */
  function Retained(s: seq<Grant>, owner: Key): (t: seq<Grant>)
    ensures forall row :: row in t <==> row in s && Owner(row) != owner
  {
    if s == [] then []
    else
      var front, x := s[..|s| - 1], s[|s| - 1];
      assert s == front + [x];
      if Owner(x) != owner then Retained(front, owner) + [x] else Retained(front, owner)
  }

  lemma {:induction false} RetainedIsDistinct(s: seq<Grant>, owner: Key)
    requires Distinct(s, GrantRowKey)
    ensures Distinct(Retained(s, owner), GrantRowKey)
  {
    if s != [] {
      var front, x := s[..|s| - 1], s[|s| - 1];
      NewLastKey(s, GrantRowKey);
      RetainedIsDistinct(front, owner);
      assert !Has(Retained(front, owner), GrantRowKey, GrantRowKey(x));
      DistinctExtends(Retained(front, owner), x, GrantRowKey);
    }
  }

  lemma TableOfRetained(s: seq<Grant>, owner: Key)
    requires Distinct(s, GrantRowKey)
    ensures Distinct(Retained(s, owner), GrantRowKey)
    ensures Table(Retained(s, owner), GrantRowKey) == Unowned(Table(s, GrantRowKey), owner)
  {
    RetainedIsDistinct(s, owner);
    TableLooksUp(s, GrantRowKey);
    TableIs(Retained(s, owner), GrantRowKey, Unowned(Table(s, GrantRowKey), owner));
  }

  lemma AppendedRows(s: seq<Grant>, rows: seq<Grant>)
    requires Distinct(s, GrantRowKey) && NewRows(Table(s, GrantRowKey), rows)
    ensures Distinct(s + rows, GrantRowKey)
  {
    var t := s + rows;
    forall i, j | 0 <= i < j < |t| ensures GrantRowKey(t[i]) != GrantRowKey(t[j]) {
      if j < |s| {
        DifferentRows(s, GrantRowKey, i, j);
      } else if |s| <= i {
        DifferentRows(rows, GrantRowKey, i - |s|, j - |s|);
      } else {
        assert s[i] in s && rows[j - |s|] in rows;
      }
    }
  }

  lemma ReorderedRows<T(!new)>(s: seq<T>, t: seq<T>, key: T -> Key)
    requires Distinct(s, key) && Ordered(t, key) && multiset(t) == multiset(s)
    requires Distinct(t, key) <==> Distinct(s, key)
    ensures Strict(t, key) && Table(t, key) == Table(s, key)
  {
    StrictIsOrderedAndDistinct(t, key);
    TableOfPermutation(t, s, key);
  }

  /** Sorts the keys and compares neighbours. */
  method AreDistinct(keys: seq<GrantKey>) returns (ok: bool)
    ensures ok <==> Distinct(keys, InputKey)
  {
    var pending := Sort(keys, InputKey);
    RepeatsAreNeighbours(pending, InputKey);
    var i := 0;
    while i + 1 < |pending|
      invariant 0 <= i <= if pending == [] then 0 else |pending| - 1
      invariant forall j :: 0 <= j < i ==> InputKey(pending[j]) != InputKey(pending[j + 1])
    {
      if InputKey(pending[i]) == InputKey(pending[i + 1]) { return false; }
      i := i + 1;
    }
    return true;
  }

  lemma InputKeysOfRows(keys: seq<GrantKey>, rows: seq<Grant>, granted: map<Key, Grant>)
    requires |keys| == |rows| && forall i :: 0 <= i < |keys| ==> GrantRowKey(rows[i]) == InputKey(keys[i])
    ensures NewRows(granted, rows) <==>
            Distinct(keys, InputKey) && forall k :: k in keys ==> InputKey(k) !in granted
  {
    forall row | row in rows ensures exists i :: 0 <= i < |rows| && GrantRowKey(row) == InputKey(keys[i]) {
      var i :| 0 <= i < |rows| && rows[i] == row;
    }
    forall k | k in keys ensures exists i :: 0 <= i < |rows| && GrantRowKey(rows[i]) == InputKey(k) && rows[i] in rows {
      var i :| 0 <= i < |keys| && keys[i] == k;
      assert rows[i] in rows;
    }
  }

  /** What an accepted insertion leaves. */
  ghost function Inserted(v: Vault, d: Descriptor, secret: Secret, approvals: seq<Approval>): Reply {
    Done(Vault(v.revision + 1, v.credentials[DescriptorKey(d) := FirstVersion(d, secret)],
               v.grants + Table(ApprovedGrants(approvals, d), GrantRowKey)),
         Receipt(v.revision + 1, Some(1)))
  }

  lemma TableWithOneMore(cs: seq<Credential>, c: Credential)
    requires Strict(cs, CredentialKey) && CredentialKey(c) !in Table(cs, CredentialKey)
    ensures Distinct(cs + [c], CredentialKey)
    ensures Table(cs + [c], CredentialKey) == Table(cs, CredentialKey)[CredentialKey(c) := c]
  {
    StrictIsDistinct(cs, CredentialKey);
    TableLooksUp(cs, CredentialKey);
    DistinctExtends(cs, c, CredentialKey);
    TableOfOneMore(cs, c, CredentialKey);
  }

  lemma TableWithRows(s: seq<Grant>, rows: seq<Grant>)
    requires Strict(s, GrantRowKey) && NewRows(Table(s, GrantRowKey), rows)
    ensures Distinct(s + rows, GrantRowKey)
    ensures Table(s + rows, GrantRowKey) == Table(s, GrantRowKey) + Table(rows, GrantRowKey)
  {
    StrictIsDistinct(s, GrantRowKey);
    AppendedRows(s, rows);
    TableOfAppend(s, rows, GrantRowKey);
  }

  lemma InsertedTables(
    v: Vault, cs: seq<Credential>, s: seq<Grant>, d: Descriptor, secret: Secret, approvals: seq<Approval>)
    requires Strict(cs, CredentialKey) && Strict(s, GrantRowKey)
    requires v.credentials == Table(cs, CredentialKey) && v.grants == Table(s, GrantRowKey)
    requires DescriptorKey(d) !in v.credentials && NewRows(v.grants, ApprovedGrants(approvals, d))
    ensures Distinct(cs + [FirstVersion(d, secret)], CredentialKey)
    ensures Distinct(s + ApprovedGrants(approvals, d), GrantRowKey)
    ensures Inserted(v, d, secret, approvals) ==
            Done(Vault(v.revision + 1, Table(cs + [FirstVersion(d, secret)], CredentialKey),
                       Table(s + ApprovedGrants(approvals, d), GrantRowKey)),
                 Receipt(v.revision + 1, Some(1)))
  {
    TableWithOneMore(cs, FirstVersion(d, secret));
    TableWithRows(s, ApprovedGrants(approvals, d));
  }

  // ----- the reducer ---------------------------------------------------------

  ghost predicate Answers(before: Vault, after: Vault, reply: Reply, r: Result<Receipt, Failure>) {
    match reply
    case Done(w, receipt) => after == w && r == Ok(receipt)
    case Refused(f) => after == before && r == Err(f)
  }

  class VaultDocument {
    const grammar: Grammar
    var revision: nat
    var credentials: seq<Credential>
    var grants: seq<Grant>

    ghost function Model(): Vault reads this {
      Vault(revision, Table(credentials, CredentialKey), Table(grants, GrantRowKey))
    }

    ghost predicate Ascending() reads this {
      Strict(credentials, CredentialKey) && Strict(grants, GrantRowKey)
    }

    ghost predicate Valid() reads this {
      Ascending() && Sound(grammar, Model())
    }

    constructor (g: Grammar, f: File)
      ensures grammar == g && revision == f.revision && credentials == f.credentials && grants == f.grants
    {
      grammar, revision, credentials, grants := g, f.revision, f.credentials, f.grants;
    }

    method FindCredential(service: string, account: string) returns (at: Option<nat>)
      requires Ascending()
      ensures at.Some? <==> [service, account] in Model().credentials
      ensures at.Some? ==>
                && at.value < |credentials| && CredentialKey(credentials[at.value]) == [service, account]
                && credentials[at.value] == Model().credentials[[service, account]]
    {
      at := BinarySearch(credentials, CredentialKey, [service, account]);
      StrictIsDistinct(credentials, CredentialKey);
      TableLooksUp(credentials, CredentialKey);
      if at.Some? { assert credentials[at.value] in credentials; }
    }

    method FindGrant(key: GrantKey) returns (at: Option<nat>)
      requires Ascending()
      ensures at.Some? <==> InputKey(key) in Model().grants
      ensures at.Some? ==>
                && at.value < |grants| && GrantRowKey(grants[at.value]) == InputKey(key)
                && grants[at.value] == Model().grants[InputKey(key)]
    {
      at := BinarySearch(grants, GrantRowKey, InputKey(key));
      StrictIsDistinct(grants, GrantRowKey);
      TableLooksUp(grants, GrantRowKey);
      if at.Some? { assert grants[at.value] in grants; }
    }

    /** `active_credential_index`. */
    method ActiveIndex(service: string, account: string, version: Version) returns (at: Option<nat>)
      requires Ascending()
      ensures at.Some? <==> HasVersion(Model(), [service, account], version)
      ensures at.Some? ==>
                && at.value < |credentials| && CredentialKey(credentials[at.value]) == [service, account]
                && credentials[at.value] == Model().credentials[[service, account]]
    {
      at := FindCredential(service, account);
      if at.Some? && (credentials[at.value].state.Revoked? || credentials[at.value].version != version) {
        return None;
      }
    }

    /** `exact_active_credential`. */
    method ExactCredential(t: Target) returns (ok: bool)
      requires Ascending()
      ensures ok <==> IsExact(Model(), t)
    {
      var at := ActiveIndex(t.descriptor.service, t.descriptor.account, t.version);
      if at.None? { return false; }
      var c := credentials[at.value];
      return c.issuer == t.descriptor.issuer && c.schema == t.descriptor.schema;
    }

    /** `exact_grant_index`. */
    method ExactGrant(key: GrantKey, b: Binding) returns (at: Option<nat>)
      requires Ascending()
      ensures at.Some? <==> IsBoundTo(Model(), key, b)
      ensures at.Some? ==>
                && at.value < |grants| && GrantRowKey(grants[at.value]) == InputKey(key)
                && grants[at.value] == Model().grants[InputKey(key)]
    {
      at := FindGrant(key);
      if at.Some? {
        var row := grants[at.value];
        if row.service != b.service || row.account != b.account || row.digest != Some(b.digest) { return None; }
      }
    }

    method ActiveTotal() returns (n: nat)
      requires Ascending()
      ensures n == |ActiveKeys(Model().credentials)|
    {
      n := 0;
      var i := 0;
      while i < |credentials|
        invariant 0 <= i <= |credentials| && n == ActiveCount(credentials[..i])
      {
        assert credentials[..i + 1][..i] == credentials[..i];
        if credentials[i].state.Active? { n := n + 1; }
        i := i + 1;
      }
      assert credentials[..i] == credentials;
      StrictIsDistinct(credentials, CredentialKey);
      ActiveCountIsExact(credentials);
    }

    /** `ensure_new_grant_keys`: no key repeats among the inputs, and none is already granted. */
    method AreNewKeys(keys: seq<GrantKey>) returns (ok: bool)
      requires Ascending()
      ensures ok <==> Distinct(keys, InputKey) && forall k :: k in keys ==> InputKey(k) !in Model().grants
    {
      var distinct := AreDistinct(keys);
      if !distinct { return false; }
      var i := 0;
      while i < |keys|
        invariant 0 <= i <= |keys|
        invariant forall j :: 0 <= j < i ==> InputKey(keys[j]) !in Model().grants
      {
        var found := FindGrant(keys[i]);
        if found.Some? { return false; }
        i := i + 1;
      }
      return true;
    }

    lemma Sizes()
      requires Ascending()
      ensures |Model().credentials| == |credentials| && |Model().grants| == |grants|
    {
      StrictIsDistinct(credentials, CredentialKey);
      StrictIsDistinct(grants, GrantRowKey);
      TableSize(credentials, CredentialKey);
      TableSize(grants, GrantRowKey);
    }

    /** `finish_mutation`: takes the revision and restores the order of both lists. */
    method Finish(next: nat, version: Option<Version>) returns (r: Receipt)
      requires Distinct(credentials, CredentialKey) && Distinct(grants, GrantRowKey)
      modifies this
      ensures Ascending() && r == Receipt(next, version)
      ensures Model() == old(Model()).(revision := next)
    {
      revision := next;
      var cs := Sort(credentials, CredentialKey);
      ReorderedRows(credentials, cs, CredentialKey);
      credentials := cs;
      var rows := Sort(grants, GrantRowKey);
      ReorderedRows(grants, rows, GrantRowKey);
      grants := rows;
      r := Receipt(next, version);
    }

    method PushApproved(approvals: seq<Approval>, d: Descriptor)
      modifies this`grants
      ensures grants == old(grants) + ApprovedGrants(approvals, d)
    {
      ghost var rows := ApprovedGrants(approvals, d);
      var i := 0;
      while i < |approvals|
        invariant 0 <= i <= |approvals| && grants == old(grants) + rows[..i]
      {
        grants := grants + [OwnedGrant(approvals[i].key, d, approvals[i].digest)];
        i := i + 1;
      }
      assert rows[..i] == rows;
    }

    method PushBound(bindings: seq<BindApproval>)
      modifies this`grants
      ensures grants == old(grants) + BoundGrants(bindings)
    {
      ghost var rows := BoundGrants(bindings);
      var i := 0;
      while i < |bindings|
        invariant 0 <= i <= |bindings| && grants == old(grants) + rows[..i]
      {
        grants := grants + [OwnedGrant(bindings[i].key, bindings[i].target.descriptor, bindings[i].digest)];
        i := i + 1;
      }
      assert rows[..i] == rows;
    }

    method RetainOthers(owner: Key)
      modifies this`grants
      ensures grants == Retained(old(grants), owner)
    {
      var kept, i := [], 0;
      while i < |grants|
        invariant 0 <= i <= |grants| && kept == Retained(grants[..i], owner)
      {
        assert grants[..i + 1][..i] == grants[..i];
        if Owner(grants[i]) != owner { kept := kept + [grants[i]]; }
        i := i + 1;
      }
      assert grants[..i] == grants;
      grants := kept;
    }

    method AnyInvalidApproval(approvals: seq<Approval>) returns (bad: bool)
      ensures bad <==> exists a :: a in approvals && !IsGrantInput(grammar, a.key)
    {
      var i := 0;
      while i < |approvals|
        invariant 0 <= i <= |approvals| && forall j :: 0 <= j < i ==> IsGrantInput(grammar, approvals[j].key)
      {
        if !IsGrantInput(grammar, approvals[i].key) {
          assert approvals[i] in approvals;
          return true;
        }
        i := i + 1;
      }
      return false;
    }

    method AreNewApprovals(approvals: seq<Approval>, ghost d: Descriptor) returns (ok: bool)
      requires Ascending()
      ensures ok <==> NewRows(Model().grants, ApprovedGrants(approvals, d))
    {
      var keys := seq(|approvals|, i requires 0 <= i < |approvals| => approvals[i].key);
      ok := AreNewKeys(keys);
      InputKeysOfRows(keys, ApprovedGrants(approvals, d), Model().grants);
    }

    /** The tests of an insertion, in their order. */
    method RefusesInsert(d: Descriptor, secret: Secret, approvals: seq<Approval>) returns (failure: Option<Failure>)
      requires Ascending()
      ensures InsertCredential(grammar, Model(), d, secret, approvals) ==
              if failure.Some? then Refused(failure.value) else Inserted(Model(), d, secret, approvals)
      ensures failure.None? ==>
                && DescriptorKey(d) !in Model().credentials
                && NewRows(Model().grants, ApprovedGrants(approvals, d))
    {
      if |approvals| > MAX_GRANTS { return Some(AuthorityValidation); }
      var at := FindCredential(d.service, d.account);
      if at.Some? { return Some(RevisionConflict); }
      var new_ := AreNewApprovals(approvals, d);
      if !new_ { return Some(RevisionConflict); }
      if !IsDescriptor(grammar, d) || !IsSecret(secret) { return Some(AuthorityValidation); }
      var bad := AnyInvalidApproval(approvals);
      if bad { return Some(AuthorityValidation); }
      var active := ActiveTotal();
      Sizes();
      if |approvals| > MAX_GRANTS - |grants| || active >= MAX_ACTIVE_CREDENTIALS || |credentials| >= MAX_CREDENTIALS {
        return Some(AuthorityValidation);
      }
      if revision + 1 > MAX_REVISION { return Some(RevisionExhausted); }
      return None;
    }

    /** The edits of an insertion: one credential, its grants, then the order of both lists. */
    method AcceptInsert(d: Descriptor, secret: Secret, approvals: seq<Approval>) returns (receipt: Receipt)
      requires Ascending() && DescriptorKey(d) !in Model().credentials
      requires NewRows(Model().grants, ApprovedGrants(approvals, d))
      modifies this
      ensures Ascending() && Inserted(old(Model()), d, secret, approvals) == Done(Model(), receipt)
    {
      InsertedTables(Model(), credentials, grants, d, secret, approvals);
      credentials := credentials + [FirstVersion(d, secret)];
      PushApproved(approvals, d);
      receipt := Finish(revision + 1, Some(1));
    }

    method Insert(d: Descriptor, secret: Secret, approvals: seq<Approval>) returns (r: Result<Receipt, Failure>)
      requires Ascending()
      modifies this
      ensures Ascending() && (r.Err? ==> unchanged(this))
      ensures Answers(old(Model()), Model(), InsertCredential(grammar, old(Model()), d, secret, approvals), r)
    {
      var failure := RefusesInsert(d, secret, approvals);
      if failure.Some? { return Err(failure.value); }
      var receipt := AcceptInsert(d, secret, approvals);
      return Ok(receipt);
    }

    method ReplaceCredential(at: nat, c: Credential) returns (receipt: Receipt)
      requires Ascending() && at < |credentials| && CredentialKey(c) == CredentialKey(credentials[at])
      modifies this
      ensures Ascending() && receipt == Receipt(old(revision) + 1, Some(c.version))
      ensures Model() == Vault(old(revision) + 1, old(Model()).credentials[CredentialKey(c) := c], old(Model()).grants)
    {
      StrictIsDistinct(credentials, CredentialKey);
      StrictIsDistinct(grants, GrantRowKey);
      TableOfUpdate(credentials, at, c, CredentialKey);
      credentials := credentials[at := c];
      receipt := Finish(revision + 1, Some(c.version));
    }

    method SetCredential(at: nat, c: Credential)
      requires Ascending() && at < |credentials| && CredentialKey(c) == CredentialKey(credentials[at])
      modifies this`credentials
      ensures Distinct(credentials, CredentialKey)
      ensures Table(credentials, CredentialKey) == old(Model()).credentials[CredentialKey(c) := c]
    {
      StrictIsDistinct(credentials, CredentialKey);
      TableOfUpdate(credentials, at, c, CredentialKey);
      credentials := credentials[at := c];
    }

    /** The same, dropping every grant that names the account. */
    method ReplaceCredentialAlone(at: nat, c: Credential) returns (receipt: Receipt)
      requires Ascending() && at < |credentials| && CredentialKey(c) == CredentialKey(credentials[at])
      modifies this
      ensures Ascending() && receipt == Receipt(old(revision) + 1, Some(c.version))
      ensures Model() == Vault(old(revision) + 1, old(Model()).credentials[CredentialKey(c) := c],
                               Unowned(old(Model()).grants, CredentialKey(c)))
    {
      StrictIsDistinct(grants, GrantRowKey);
      TableOfRetained(grants, CredentialKey(c));
      SetCredential(at, c);
      RetainOthers(CredentialKey(c));
      receipt := Finish(revision + 1, Some(c.version));
    }

    method Rotate(service: string, account: string, version: Version, secret: Secret)
      returns (r: Result<Receipt, Failure>)
      requires Ascending()
      modifies this
      ensures Ascending() && (r.Err? ==> unchanged(this))
      ensures Answers(old(Model()), Model(), RotateSecret(old(Model()), service, account, version, secret), r)
    {
      var at := ActiveIndex(service, account, version);
      if at.None? { return Err(RevisionConflict); }
      if !IsSecret(secret) { return Err(AuthorityValidation); }
      if version + 1 > MAX_REVISION { return Err(RevisionExhausted); }
      if revision + 1 > MAX_REVISION { return Err(RevisionExhausted); }
      var c := credentials[at.value].(version := version + 1, secret := Some(secret));
      var receipt := ReplaceCredential(at.value, c);
      return Ok(receipt);
    }

    method Revoke(service: string, account: string, version: Version) returns (r: Result<Receipt, Failure>)
      requires Ascending()
      modifies this
      ensures Ascending() && (r.Err? ==> unchanged(this))
      ensures Answers(old(Model()), Model(), RevokeCredential(old(Model()), service, account, version), r)
    {
      var at := ActiveIndex(service, account, version);
      if at.None? { return Err(RevisionConflict); }
      if version + 1 > MAX_REVISION { return Err(RevisionExhausted); }
      if revision + 1 > MAX_REVISION { return Err(RevisionExhausted); }
      var c := credentials[at.value].(version := version + 1, state := Revoked, secret := None);
      var receipt := ReplaceCredentialAlone(at.value, c);
      return Ok(receipt);
    }

    method AnyInexact(bindings: seq<BindApproval>) returns (bad: bool)
      requires Ascending()
      ensures bad <==> exists b :: b in bindings && !IsExact(Model(), b.target)
    {
      var i := 0;
      while i < |bindings|
        invariant 0 <= i <= |bindings| && forall j :: 0 <= j < i ==> IsExact(Model(), bindings[j].target)
      {
        var ok := ExactCredential(bindings[i].target);
        if !ok {
          assert bindings[i] in bindings;
          return true;
        }
        i := i + 1;
      }
      return false;
    }

    method AnyInvalidBinding(bindings: seq<BindApproval>) returns (bad: bool)
      ensures bad <==> exists b :: b in bindings
                         && !(IsGrantInput(grammar, b.key) && IsDescriptor(grammar, b.target.descriptor))
    {
      var i := 0;
      while i < |bindings|
        invariant 0 <= i <= |bindings|
        invariant forall j :: 0 <= j < i ==>
                    IsGrantInput(grammar, bindings[j].key) && IsDescriptor(grammar, bindings[j].target.descriptor)
      {
        if !IsGrantInput(grammar, bindings[i].key) || !IsDescriptor(grammar, bindings[i].target.descriptor) {
          assert bindings[i] in bindings;
          return true;
        }
        i := i + 1;
      }
      return false;
    }

    method AreNewBindings(bindings: seq<BindApproval>) returns (ok: bool)
      requires Ascending()
      ensures ok <==> NewRows(Model().grants, BoundGrants(bindings))
    {
      var keys := seq(|bindings|, i requires 0 <= i < |bindings| => bindings[i].key);
      ok := AreNewKeys(keys);
      InputKeysOfRows(keys, BoundGrants(bindings), Model().grants);
    }

    method AcceptBindings(bindings: seq<BindApproval>) returns (receipt: Receipt)
      requires Ascending() && NewRows(Model().grants, BoundGrants(bindings))
      modifies this
      ensures Ascending() && receipt == Receipt(old(revision) + 1, None)
      ensures Model() == Vault(old(revision) + 1, old(Model()).credentials,
                               old(Model()).grants + Table(BoundGrants(bindings), GrantRowKey))
    {
      StrictIsDistinct(credentials, CredentialKey);
      TableWithRows(grants, BoundGrants(bindings));
      PushBound(bindings);
      receipt := Finish(revision + 1, None);
    }

    /** What is left to decide once the keys are new and every target is exact and well formed. */
    ghost function RestFailure(added: nat): Option<Failure> reads this {
      if added + |Model().grants| > MAX_GRANTS then Some(AuthorityValidation)
      else if revision + 1 > MAX_REVISION then Some(RevisionExhausted)
      else None
    }

    lemma BindIsRest(bindings: seq<BindApproval>)
      requires bindings != [] && |bindings| <= MAX_GRANTS && NewRows(Model().grants, BoundGrants(bindings))
      requires !exists b :: b in bindings && !IsExact(Model(), b.target)
      requires forall b :: b in bindings ==>
                 IsGrantInput(grammar, b.key) && IsDescriptor(grammar, b.target.descriptor)
      ensures var failure := RestFailure(|bindings|);
        BindGrants(grammar, Model(), bindings) ==
        if failure.Some? then Refused(failure.value)
        else Done(Vault(revision + 1, Model().credentials,
                        Model().grants + Table(BoundGrants(bindings), GrantRowKey)), Receipt(revision + 1, None))
    {
    }

    /** The last two tests: room in the table and in the revision. */
    method RefusesRest(added: nat) returns (failure: Option<Failure>)
      requires Ascending()
      ensures failure == RestFailure(added)
    {
      assert |Model().grants| == |grants| by { Sizes(); }
      if added > MAX_GRANTS - |grants| { return Some(AuthorityValidation); }
      if revision + 1 > MAX_REVISION { return Some(RevisionExhausted); }
      return None;
    }

    /** The tests of a binding, in their order. */
    method RefusesBindings(bindings: seq<BindApproval>) returns (failure: Option<Failure>)
      requires Ascending()
      ensures BindGrants(grammar, Model(), bindings) ==
              if failure.Some? then Refused(failure.value)
              else Done(Vault(revision + 1, Model().credentials,
                              Model().grants + Table(BoundGrants(bindings), GrantRowKey)), Receipt(revision + 1, None))
      ensures failure.None? ==> NewRows(Model().grants, BoundGrants(bindings))
    {
      if bindings == [] || |bindings| > MAX_GRANTS { return Some(AuthorityValidation); }
      var new_ := AreNewBindings(bindings);
      if !new_ { return Some(RevisionConflict); }
      var bad := AnyInexact(bindings);
      if bad { return Some(RevisionConflict); }
      bad := AnyInvalidBinding(bindings);
      if bad { return Some(AuthorityValidation); }
      BindIsRest(bindings);
      failure := RefusesRest(|bindings|);
    }

    method BindAll(bindings: seq<BindApproval>) returns (r: Result<Receipt, Failure>)
      requires Ascending()
      modifies this
      ensures Ascending() && (r.Err? ==> unchanged(this))
      ensures Answers(old(Model()), Model(), BindGrants(grammar, old(Model()), bindings), r)
    {
      var failure := RefusesBindings(bindings);
      if failure.Some? { return Err(failure.value); }
      var receipt := AcceptBindings(bindings);
      return Ok(receipt);
    }

    method ReplaceGrant(at: nat, row: Grant) returns (receipt: Receipt)
      requires Ascending() && at < |grants| && GrantRowKey(row) == GrantRowKey(grants[at])
      modifies this
      ensures Ascending() && receipt == Receipt(old(revision) + 1, None)
      ensures Model() == Vault(old(revision) + 1, old(Model()).credentials,
              old(Model()).grants[GrantRowKey(row) := row])
    {
      StrictIsDistinct(credentials, CredentialKey);
      StrictIsDistinct(grants, GrantRowKey);
      TableOfUpdate(grants, at, row, GrantRowKey);
      grants := grants[at := row];
      receipt := Finish(revision + 1, None);
    }

    method RemoveGrant(at: nat) returns (receipt: Receipt)
      requires Ascending() && at < |grants|
      modifies this
      ensures Ascending() && receipt == Receipt(old(revision) + 1, None)
      ensures Model() == Vault(old(revision) + 1, old(Model()).credentials,
                               old(Model()).grants - {GrantRowKey(old(grants)[at])})
    {
      StrictIsDistinct(credentials, CredentialKey);
      StrictIsDistinct(grants, GrantRowKey);
      DistinctWithout(grants, at, GrantRowKey);
      TableOfRemove(grants, at, GrantRowKey);
      grants := grants[..at] + grants[at + 1..];
      receipt := Finish(revision + 1, None);
    }

    /** The first test that a rebinding fails, if any. */
    ghost function RebindFailure(key: GrantKey, b: Binding, t: Target): Option<Failure> reads this {
      if !IsBoundTo(Model(), key, b) || !IsExact(Model(), t) then Some(RevisionConflict)
      else if !IsGrantInput(grammar, key) || !IsBinding(grammar, b) || !IsDescriptor(grammar, t.descriptor)
      then Some(AuthorityValidation)
      else if revision + 1 > MAX_REVISION then Some(RevisionExhausted)
      else None
    }

    lemma RebindIs(key: GrantKey, b: Binding, t: Target, digest: Digest)
      ensures var reply := RebindGrant(grammar, Model(), key, b, t, digest);
        if RebindFailure(key, b, t).Some? then reply == Refused(RebindFailure(key, b, t).value)
        else
          && InputKey(key) in Model().grants
          && reply == Done(Vault(revision + 1, Model().credentials,
                                 Model().grants[InputKey(key) := Redirected(Model().grants[InputKey(key)], t, digest)]),
                           Receipt(revision + 1, None))
    {
    }

    /** The row of a grant, now of the replacement's account. */
    function Redirected(row: Grant, t: Target, digest: Digest): Grant {
      row.(service := t.descriptor.service, account := t.descriptor.account, digest := Some(digest))
    }

    method RefusesRebind(key: GrantKey, b: Binding, t: Target) returns (failure: Option<Failure>, at: nat)
      requires Ascending()
      ensures failure == RebindFailure(key, b, t)
      ensures failure.None? ==>
        && at < |grants| && GrantRowKey(grants[at]) == InputKey(key)
        && InputKey(key) in Model().grants && grants[at] == Model().grants[InputKey(key)]
    {
      var found := ExactGrant(key, b);
      if found.None? { return Some(RevisionConflict), 0; }
      var exact := ExactCredential(t);
      if !exact { return Some(RevisionConflict), 0; }
      if !IsGrantInput(grammar, key) || !IsBinding(grammar, b) || !IsDescriptor(grammar, t.descriptor) {
        return Some(AuthorityValidation), 0;
      }
      if revision + 1 > MAX_REVISION { return Some(RevisionExhausted), 0; }
      return None, found.value;
    }

    method Rebind(key: GrantKey, b: Binding, t: Target, digest: Digest) returns (r: Result<Receipt, Failure>)
      requires Ascending()
      modifies this
      ensures Ascending() && (r.Err? ==> unchanged(this))
      ensures Answers(old(Model()), Model(), RebindGrant(grammar, old(Model()), key, b, t, digest), r)
    {
      RebindIs(key, b, t, digest);
      var failure, at := RefusesRebind(key, b, t);
      if failure.Some? { return Err(failure.value); }
      var receipt := Redirect(at, t, digest);
      return Ok(receipt);
    }

    /** The grant in place, now of the replacement's account. */
    method Redirect(at: nat, t: Target, digest: Digest) returns (receipt: Receipt)
      requires Ascending() && at < |grants|
      modifies this
      ensures Ascending() && receipt == Receipt(old(revision) + 1, None)
      ensures Model() == Vault(old(revision) + 1, old(Model()).credentials,
                old(Model()).grants[GrantRowKey(old(grants)[at]) := Redirected(old(grants)[at], t, digest)])
    {
      receipt := ReplaceGrant(at, Redirected(grants[at], t, digest));
    }

    method Unbind(key: GrantKey, b: Binding) returns (r: Result<Receipt, Failure>)
      requires Ascending()
      modifies this
      ensures Ascending() && (r.Err? ==> unchanged(this))
      ensures Answers(old(Model()), Model(), UnbindGrant(grammar, old(Model()), key, b), r)
    {
      var at := ExactGrant(key, b);
      if at.None? { return Err(RevisionConflict); }
      if !IsGrantInput(grammar, key) || !IsBinding(grammar, b) { return Err(AuthorityValidation); }
      if revision + 1 > MAX_REVISION { return Err(RevisionExhausted); }
      var receipt := RemoveGrant(at.value);
      return Ok(receipt);
    }

    /** The mutator of each command. */
    method Dispatch(c: Command) returns (r: Result<Receipt, Failure>)
      requires Ascending()
      modifies this
      ensures Ascending() && (r.Err? ==> unchanged(this))
      ensures Answers(old(Model()), Model(), Apply(grammar, old(Model()), c), r)
    {
      match c {
        case InitializeEmpty => r := Ok(Receipt(0, None));
        case Insert(_, d, secret, approvals) => r := Insert(d, secret, approvals);
        case Rotate(_, service, account, version, secret) => r := Rotate(service, account, version, secret);
        case Revoke(_, service, account, version) => r := Revoke(service, account, version);
        case Bind(_, bindings) => r := BindAll(bindings);
        case Rebind(_, key, b, t, digest) => r := Rebind(key, b, t, digest);
        case Unbind(_, key, b) => r := Unbind(key, b);
      }
    }

    /** `apply_command`: the answer of the command on the tables, from a sound document to a sound one. */
    method ApplyCommand(c: Command) returns (r: Result<Receipt, Failure>)
      requires Valid()
      modifies this
      ensures Valid() && (r.Err? ==> unchanged(this))
      ensures Answers(old(Model()), Model(), Apply(grammar, old(Model()), c), r)
    {
      ghost var before := Model();
      r := Dispatch(c);
      if Apply(grammar, before, c).Done? { ApplyKeepsSound(grammar, before, c); }
    }
  }

  /**
   * `persist_command` between the read and the replacement: the stored document
   * is checked, the expectation compared, the command applied, and the result
   * checked again. That second check is asserted never to fail. `fits` says
   * whether the text of the new document stays within the size limit.
   */
  method PersistCommand(g: Grammar, current: Option<File>, c: Command, fits: bool)
    returns (r: Result<(File, Receipt), Failure>)
    ensures current.Some? && !Acceptable(g, current.value) ==> r == Err(AuthorityValidation)
    ensures current.None? || Acceptable(g, current.value) ==>
              match Persist(g, View(current), c)
              case Refused(f) => r == Err(f)
              case Done(w, receipt) =>
                if fits then r.Ok? && Acceptable(g, r.value.0) && Contents(r.value.0) == w && r.value.1 == receipt
                else r == Err(Serialization)
  {
    var start := File(FORMAT_VERSION, KIND, 0, [], []);
    EmptyFile(g);
    if current.Some? {
      start := current.value;
      var parsed := Validate(g, start);
      if parsed.Err? { return Err(parsed.error); }
    }
    ExpectsIsExact(current, c);
    if !Expects(current, c) { return Err(RevisionConflict); }
    var applied := Reduce(g, start, c);
    if applied.Err? { return Err(applied.error); }
    return if fits then applied else Err(Serialization);
  }

  ghost function View(current: Option<File>): Option<Vault> {
    if current.Some? then Some(Contents(current.value)) else None
  }

  lemma ExpectsIsExact(current: Option<File>, c: Command)
    ensures Expects(current, c) <==> ExpectationHolds(View(current), c)
  {
  }

  /** The comparison with the stored state, before any command runs. */
  predicate Expects(current: Option<File>, c: Command) {
    && (if c.InitializeEmpty? then current.None?
        else match c.expected
             case Absent => current.None?
             case Present(e) => current.Some? && current.value.revision == e)
    && (current.None? ==> c.InitializeEmpty? || c.Insert?)
  }

  /** The command on a checked document, and the check of its result, which never fails. */
  method Reduce(g: Grammar, start: File, c: Command) returns (r: Result<(File, Receipt), Failure>)
    requires Acceptable(g, start)
    ensures match Apply(g, Contents(start), c)
            case Refused(f) => r == Err(f)
            case Done(w, receipt) =>
              r.Ok? && Acceptable(g, r.value.0) && Contents(r.value.0) == w && r.value.1 == receipt
  {
    var document := new VaultDocument(g, start);
    assert document.Model() == Contents(start);
    var applied := document.ApplyCommand(c);
    if applied.Err? { return Err(applied.error); }
    var after := File(start.formatVersion, start.kind, document.revision, document.credentials, document.grants);
    assert Contents(after) == document.Model();
    var again := Validate(g, after);
    assert again.Ok?;
    return Ok((after, applied.value));
  }

  lemma EmptyFile(g: Grammar)
    ensures Acceptable(g, File(FORMAT_VERSION, KIND, 0, [], []))
    ensures Contents(File(FORMAT_VERSION, KIND, 0, [], [])) == EMPTY
  {
    assert Table<Credential>([], CredentialKey) == map[];
    assert Table<Grant>([], GrantRowKey) == map[];
    assert ActiveKeys(map[]) == {};
  }
}
