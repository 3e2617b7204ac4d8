/**
 * What each vault command leaves when it is accepted, and when it is: credentials
 * and grants in plain terms, field by field, for every vault.
 */
module VaultEffects {
  import opened Prelude

  import opened HostVault
  import opened KeyOrder
  import opened VaultCheck

  /** The account has an active credential at this version. */
  predicate Stands(v: Vault, k: Key, version: Version) {
    k in v.credentials && v.credentials[k].state == Active && v.credentials[k].version == version
  }

  /** Both tables are as before, but for the account `k`. */
  ghost predicate OthersKept(v: Vault, w: Vault, k: Key) {
    && (forall j :: j != k ==> (j in w.credentials <==> j in v.credentials))
    && (forall j :: j != k && j in v.credentials ==> w.credentials[j] == v.credentials[j])
  }

  predicate Counted(v: Vault, r: Reply, version: Option<Version>) {
    r.Done? && r.vault.revision == v.revision + 1 && r.receipt == Receipt(v.revision + 1, version)
  }

  /** The rows of `v`, one new row for each key asked for, and no others. */
  ghost predicate Adds(v: Vault, w: Vault, keys: seq<GrantKey>) {
    && (forall k :: k in w.grants <==> k in v.grants || exists i :: 0 <= i < |keys| && InputKey(keys[i]) == k)
    && (forall k :: k in v.grants ==> w.grants[k] == v.grants[k])
  }

  /** No key is asked for twice or granted already. */
  ghost predicate AreFree(v: Vault, keys: seq<GrantKey>) {
    && (forall i, j :: 0 <= i < j < |keys| ==> keys[i] != keys[j])
    && (forall i :: 0 <= i < |keys| ==> InputKey(keys[i]) !in v.grants)
  }

  /** The row grants exactly this: the key's family, Pack and operation, to this account, under this digest. */
  predicate Grants(row: Grant, key: GrantKey, d: Descriptor, digest: Digest) {
    && row.family == key.family && row.pack == key.pack && row.operation == key.operation
    && row.service == d.service && row.account == d.account && row.digest == Some(digest)
  }

  predicate IsManagedBy(row: Grant) {
    match row.family
    case Providers => row.manager == "com.mcode.providers"
    case Web => row.manager == "com.mcode.web"
    case Usage => row.manager == "com.mcode.usage"
  }

  lemma KeysDiffer(a: GrantKey, b: GrantKey)
    ensures InputKey(a) == InputKey(b) <==> a == b
  {
    assert InputKey(a)[0] == SortKey(a.family) && InputKey(b)[0] == SortKey(b.family);
    assert InputKey(a)[2] == a.pack && InputKey(b)[2] == b.pack;
    assert InputKey(a)[3] == a.operation && InputKey(b)[3] == b.operation;
    assert SortKey(a.family)[0] == SortKey(b.family)[0] ==> a.family == b.family;
  }

  /** Stored grants are in the order of their families' names: providers, usage, web. */
  lemma FamiliesInOrder(a: Grant, b: Grant)
    requires (a.family.Providers? && !b.family.Providers?) || (a.family.Usage? && b.family.Web?)
    ensures Compare(GrantRowKey(a), GrantRowKey(b)) == Less
  {
    var x, y := SortKey(a.family), SortKey(b.family);
    assert x[0] < y[0];
    assert CompareText(x, y) == Less;
  }

  // ----- rotation and revocation ---------------------------------------------

  /**
   * A rotation stores the given secret at the next version of an active credential that stands at the expected
   * one, and changes nothing else.
   */
  lemma RotateStores(g: Grammar, v: Vault, c: Command)
    requires c.Rotate?
    ensures var k, r := [c.service, c.account], Apply(g, v, c);
      && (r.Done? <==> Stands(v, k, c.version) && 1 <= |c.secret| <= 8192
                       && c.version < 0x7FFF_FFFF_FFFF_FFFF && v.revision < 0x7FFF_FFFF_FFFF_FFFF)
      && (r == Refused(RevisionConflict) <==> !Stands(v, k, c.version))
      && (r == Refused(AuthorityValidation) ==> |c.secret| == 0 || |c.secret| > 8192)
      && (r.Done? ==>
            && Counted(v, r, Some(c.version + 1)) && OthersKept(v, r.vault, k) && r.vault.grants == v.grants
            && Stands(r.vault, k, c.version + 1) && r.vault.credentials[k].secret == Some(c.secret)
            && r.vault.credentials[k].issuer == v.credentials[k].issuer
            && r.vault.credentials[k].schema == v.credentials[k].schema)
  {
  }

  /** A revocation takes the secret of an account and exactly the grants that name it. */
  lemma RevokeTakes(g: Grammar, v: Vault, c: Command)
    requires c.Revoke?
    ensures var k, r := [c.service, c.account], Apply(g, v, c);
      && (r.Done? <==> Stands(v, k, c.version)
                       && c.version < 0x7FFF_FFFF_FFFF_FFFF && v.revision < 0x7FFF_FFFF_FFFF_FFFF)
      && (r == Refused(RevisionConflict) <==> !Stands(v, k, c.version))
      && r != Refused(AuthorityValidation)
      && (r.Done? ==>
            && Counted(v, r, Some(c.version + 1)) && OthersKept(v, r.vault, k)
            && k in r.vault.credentials && r.vault.credentials[k].state == Revoked
            && r.vault.credentials[k].secret == None && r.vault.credentials[k].version == c.version + 1
            && (forall j :: j in r.vault.grants <==>
                  j in v.grants && (v.grants[j].service != c.service || v.grants[j].account != c.account))
            && (forall j :: j in r.vault.grants ==> r.vault.grants[j] == v.grants[j]))
  {
    forall j | j in v.grants
      ensures Owner(v.grants[j]) == [c.service, c.account] <==>
              v.grants[j].service == c.service && v.grants[j].account == c.account
    {
      assert Owner(v.grants[j])[0] == v.grants[j].service && Owner(v.grants[j])[1] == v.grants[j].account;
    }
  }

  // ----- insertion -----------------------------------------------------------

  function ApprovedKeys(approvals: seq<Approval>): (keys: seq<GrantKey>)
    ensures |keys| == |approvals| && forall i :: 0 <= i < |keys| ==> keys[i] == approvals[i].key
  {
    seq(|approvals|, i requires 0 <= i < |approvals| => approvals[i].key)
  }

  lemma FreeIffNew(v: Vault, keys: seq<GrantKey>, rows: seq<Grant>)
    requires |keys| == |rows| && forall i :: 0 <= i < |rows| ==> GrantRowKey(rows[i]) == InputKey(keys[i])
    ensures AreFree(v, keys) <==> NewRows(v.grants, rows)
  {
    forall i, j | 0 <= i < j < |keys| ensures GrantRowKey(rows[i]) == GrantRowKey(rows[j]) <==> keys[i] == keys[j] {
      KeysDiffer(keys[i], keys[j]);
    }
    forall i | 0 <= i < |rows| ensures rows[i] in rows {}
  }

  /** Merging the rows adds exactly their keys, each with its own row. */
  lemma Merged(v: Vault, w: Vault, keys: seq<GrantKey>, rows: seq<Grant>)
    requires |keys| == |rows| && forall i :: 0 <= i < |rows| ==> GrantRowKey(rows[i]) == InputKey(keys[i])
    requires NewRows(v.grants, rows) && w.grants == v.grants + Table(rows, GrantRowKey)
    ensures Adds(v, w, keys)
    ensures forall i :: 0 <= i < |rows| ==> w.grants[InputKey(keys[i])] == rows[i]
  {
    TableLooksUp(rows, GrantRowKey);
    forall i | 0 <= i < |rows| ensures InputKey(keys[i]) in Table(rows, GrantRowKey) {
      assert rows[i] in rows;
    }
    forall k | k in Table(rows, GrantRowKey) ensures exists i :: 0 <= i < |keys| && InputKey(keys[i]) == k {
      var i :| 0 <= i < |rows| && rows[i] == Table(rows, GrantRowKey)[k];
      assert InputKey(keys[i]) == k;
    }
    forall k | k in Table(rows, GrantRowKey) ensures k !in v.grants {
      assert Table(rows, GrantRowKey)[k] in rows;
    }
  }

  /** What an insertion asks for that a vault may lack. */
  ghost predicate MayInsert(g: Grammar, v: Vault, c: Command)
    requires c.Insert?
  {
    && [c.descriptor.service, c.descriptor.account] !in v.credentials
    && AreFree(v, ApprovedKeys(c.approvals))
    && 1 <= |c.secret| <= 8192 && IsDescriptor(g, c.descriptor)
    && (forall i :: 0 <= i < |c.approvals| ==> IsGrantInput(g, c.approvals[i].key))
    && |v.grants| + |c.approvals| <= 1024 && |v.credentials| < 320 && |ActiveKeys(v.credentials)| < 64
    && v.revision < 0x7FFF_FFFF_FFFF_FFFF
  }

  /** When an insertion is accepted, and when it is refused as a conflict. */
  lemma InsertIff(g: Grammar, v: Vault, c: Command)
    requires c.Insert?
    ensures Apply(g, v, c).Done? <==> MayInsert(g, v, c)
    ensures Apply(g, v, c) == Refused(RevisionConflict) <==>
            |c.approvals| <= 1024 && ([c.descriptor.service, c.descriptor.account] in v.credentials
                                      || !AreFree(v, ApprovedKeys(c.approvals)))
    ensures Apply(g, v, c) == Refused(RevisionExhausted) ==> v.revision >= 0x7FFF_FFFF_FFFF_FFFF
  {
    FreeIffNew(v, ApprovedKeys(c.approvals), ApprovedGrants(c.approvals, c.descriptor));
    assert (exists a :: a in c.approvals && !IsGrantInput(g, a.key)) <==>
           exists i :: 0 <= i < |c.approvals| && !IsGrantInput(g, c.approvals[i].key);
  }

  /** Row `i` of a reply grants approval `i` to the descriptor. */
  predicate Approves(w: Vault, a: Approval, d: Descriptor) {
    InputKey(a.key) in w.grants && Grants(w.grants[InputKey(a.key)], a.key, d, a.digest)
    && IsManagedBy(w.grants[InputKey(a.key)])
  }

  lemma InsertLeaves(g: Grammar, v: Vault, d: Descriptor, secret: Secret, approvals: seq<Approval>)
    requires InsertCredential(g, v, d, secret, approvals).Done?
    ensures NewRows(v.grants, ApprovedGrants(approvals, d))
    ensures InsertCredential(g, v, d, secret, approvals).vault ==
            Vault(v.revision + 1, v.credentials[DescriptorKey(d) := FirstVersion(d, secret)],
                  v.grants + Table(ApprovedGrants(approvals, d), GrantRowKey))
    ensures InsertCredential(g, v, d, secret, approvals).receipt == Receipt(v.revision + 1, Some(1))
  {
  }

  /**
   * An insertion stores the given secret under the given descriptor at version one, grants each approval to it
   * under its digest, and changes nothing else.
   */
  lemma InsertStores(g: Grammar, v: Vault, c: Command)
    requires c.Insert? && Apply(g, v, c).Done?
    ensures var d, r := c.descriptor, Apply(g, v, c);
      var k := [d.service, d.account];
      && Counted(v, r, Some(1)) && OthersKept(v, r.vault, k)
      && Stands(r.vault, k, 1) && r.vault.credentials[k].secret == Some(c.secret)
      && r.vault.credentials[k].service == d.service && r.vault.credentials[k].account == d.account
      && r.vault.credentials[k].issuer == d.issuer && r.vault.credentials[k].schema == d.schema
      && Adds(v, r.vault, ApprovedKeys(c.approvals))
      && forall i :: 0 <= i < |c.approvals| ==> Approves(r.vault, c.approvals[i], d)
  {
    InsertLeaves(g, v, c.descriptor, c.secret, c.approvals);
    var rows, w := ApprovedGrants(c.approvals, c.descriptor), Apply(g, v, c).vault;
    Merged(v, w, ApprovedKeys(c.approvals), rows);
    forall i | 0 <= i < |c.approvals| ensures Approves(w, c.approvals[i], c.descriptor) {
      assert w.grants[InputKey(ApprovedKeys(c.approvals)[i])] == rows[i];
    }
  }

  // ----- grants --------------------------------------------------------------

  function BoundKeys(bindings: seq<BindApproval>): (keys: seq<GrantKey>)
    ensures |keys| == |bindings| && forall i :: 0 <= i < |keys| ==> keys[i] == bindings[i].key
  {
    seq(|bindings|, i requires 0 <= i < |bindings| => bindings[i].key)
  }

  /** The target is an active credential at its version, with its issuer and schema. */
  predicate Names(v: Vault, t: Target) {
    var k := [t.descriptor.service, t.descriptor.account];
    && Stands(v, k, t.version)
    && v.credentials[k].issuer == t.descriptor.issuer && v.credentials[k].schema == t.descriptor.schema
  }

  ghost predicate MayBind(g: Grammar, v: Vault, bindings: seq<BindApproval>) {
    && bindings != [] && AreFree(v, BoundKeys(bindings)) && TargetsStand(v, bindings) && AreWritten(g, bindings)
    && |v.grants| + |bindings| <= 1024 && v.revision < 0x7FFF_FFFF_FFFF_FFFF
  }

  predicate TargetsStand(v: Vault, bindings: seq<BindApproval>) {
    forall i :: 0 <= i < |bindings| ==> Names(v, bindings[i].target)
  }

  /** Keys and descriptors are well written. */
  predicate AreWritten(g: Grammar, bindings: seq<BindApproval>) {
    forall i :: 0 <= i < |bindings| ==>
      IsGrantInput(g, bindings[i].key) && IsDescriptor(g, bindings[i].target.descriptor)
  }

  lemma AllTargets(g: Grammar, v: Vault, bindings: seq<BindApproval>)
    ensures (exists b :: b in bindings && !IsExact(v, b.target)) <==> !TargetsStand(v, bindings)
    ensures (exists b :: b in bindings && !(IsGrantInput(g, b.key) && IsDescriptor(g, b.target.descriptor))) <==>
            !AreWritten(g, bindings)
  {
    if !TargetsStand(v, bindings) {
      var i :| 0 <= i < |bindings| && !Names(v, bindings[i].target);
      assert bindings[i] in bindings;
    }
    if !AreWritten(g, bindings) {
      var i :| 0 <= i < |bindings|
        && !(IsGrantInput(g, bindings[i].key) && IsDescriptor(g, bindings[i].target.descriptor));
      assert bindings[i] in bindings;
    }
  }

  lemma BindAnswers(g: Grammar, v: Vault, bindings: seq<BindApproval>)
    ensures BindGrants(g, v, bindings).Done? <==> MayBind(g, v, bindings)
    ensures BindGrants(g, v, bindings) == Refused(RevisionConflict) <==>
            1 <= |bindings| <= 1024 && (!AreFree(v, BoundKeys(bindings)) || !TargetsStand(v, bindings))
    ensures BindGrants(g, v, bindings) == Refused(RevisionExhausted) ==> v.revision >= 0x7FFF_FFFF_FFFF_FFFF
  {
    FreeIffNew(v, BoundKeys(bindings), BoundGrants(bindings));
    AllTargets(g, v, bindings);
  }

  /** When a binding is accepted, and when it is refused as a conflict. */
  lemma BindIff(g: Grammar, v: Vault, c: Command)
    requires c.Bind?
    ensures Apply(g, v, c).Done? <==> MayBind(g, v, c.bindings)
    ensures Apply(g, v, c) == Refused(RevisionConflict) <==>
            1 <= |c.bindings| <= 1024 && (!AreFree(v, BoundKeys(c.bindings)) || !TargetsStand(v, c.bindings))
    ensures Apply(g, v, c) == Refused(RevisionExhausted) ==> v.revision >= 0x7FFF_FFFF_FFFF_FFFF
  {
    BindAnswers(g, v, c.bindings);
  }

  lemma RowForOne(w: Vault, b: BindApproval, row: Grant)
    requires InputKey(b.key) in w.grants && w.grants[InputKey(b.key)] == row
    requires row == OwnedGrant(b.key, b.target.descriptor, b.digest)
    ensures Approves(w, Approval(b.key, b.digest), b.target.descriptor)
  {
  }

  lemma RowsForEach(v: Vault, w: Vault, bindings: seq<BindApproval>)
    requires NewRows(v.grants, BoundGrants(bindings))
    requires w.grants == v.grants + Table(BoundGrants(bindings), GrantRowKey)
    ensures Adds(v, w, BoundKeys(bindings))
    ensures forall i :: 0 <= i < |bindings| ==>
              Approves(w, Approval(bindings[i].key, bindings[i].digest), bindings[i].target.descriptor)
  {
    Merged(v, w, BoundKeys(bindings), BoundGrants(bindings));
    forall i | 0 <= i < |bindings|
      ensures Approves(w, Approval(bindings[i].key, bindings[i].digest), bindings[i].target.descriptor)
    {
      RowForOne(w, bindings[i], BoundGrants(bindings)[i]);
    }
  }

  /** The reply counts one revision, leaves the credentials and grants each key to its own target under its digest. */
  ghost predicate BindsEach(v: Vault, r: Reply, bindings: seq<BindApproval>)
    requires r.Done?
  {
    && Counted(v, r, None) && r.vault.credentials == v.credentials
    && Adds(v, r.vault, BoundKeys(bindings))
    && forall i :: 0 <= i < |bindings| ==>
         Approves(r.vault, Approval(bindings[i].key, bindings[i].digest), bindings[i].target.descriptor)
  }

  lemma BindLeaves(v: Vault, r: Reply, bindings: seq<BindApproval>)
    requires NewRows(v.grants, BoundGrants(bindings))
    requires r == Done(Vault(v.revision + 1, v.credentials, v.grants + Table(BoundGrants(bindings), GrantRowKey)),
                       Receipt(v.revision + 1, None))
    ensures BindsEach(v, r, bindings)
  {
    RowsForEach(v, r.vault, bindings);
  }

  /** A binding grants each key to its own target under its digest, and changes nothing else. */
  lemma BindGrantsEach(g: Grammar, v: Vault, c: Command)
    requires c.Bind? && Apply(g, v, c).Done?
    ensures BindsEach(v, Apply(g, v, c), c.bindings)
  {
    BindFacts(g, v, c.bindings);
    BindLeaves(v, BindGrants(g, v, c.bindings), c.bindings);
  }

  /** The stored grant is to this account under this digest. */
  predicate IsGranted(v: Vault, key: GrantKey, b: Binding) {
    && InputKey(key) in v.grants && v.grants[InputKey(key)].service == b.service
    && v.grants[InputKey(key)].account == b.account && v.grants[InputKey(key)].digest == Some(b.digest)
  }

  /** Nothing but the one grant changes. */
  ghost predicate OtherGrantsKept(v: Vault, w: Vault, key: GrantKey) {
    && w.credentials == v.credentials
    && (forall k :: k != InputKey(key) ==> (k in w.grants <==> k in v.grants))
    && (forall k :: k != InputKey(key) && k in v.grants ==> w.grants[k] == v.grants[k])
  }

  /** A rebinding redirects one grant from exactly what it was to exactly its replacement. */
  lemma RebindRedirects(g: Grammar, v: Vault, c: Command)
    requires c.Rebind?
    ensures var r := Apply(g, v, c);
      && (r.Done? <==> && IsGranted(v, c.key, c.old_) && Names(v, c.replacement) && IsGrantInput(g, c.key)
                       && IsBinding(g, c.old_) && IsDescriptor(g, c.replacement.descriptor)
                       && v.revision < 0x7FFF_FFFF_FFFF_FFFF)
      && (r == Refused(RevisionConflict) <==> !IsGranted(v, c.key, c.old_) || !Names(v, c.replacement))
      && (r.Done? ==>
            && Counted(v, r, None) && OtherGrantsKept(v, r.vault, c.key)
            && IsGranted(r.vault, c.key, Binding(c.replacement.descriptor.service,
                                                 c.replacement.descriptor.account, c.digest))
            && GrantRowKey(r.vault.grants[InputKey(c.key)]) == GrantRowKey(v.grants[InputKey(c.key)]))
  {
  }

  /** An unbinding removes one grant that is exactly as expected. */
  lemma UnbindRemoves(g: Grammar, v: Vault, c: Command)
    requires c.Unbind?
    ensures var r := Apply(g, v, c);
      && (r.Done? <==> && IsGranted(v, c.key, c.old_) && IsGrantInput(g, c.key) && IsBinding(g, c.old_)
                       && v.revision < 0x7FFF_FFFF_FFFF_FFFF)
      && (r == Refused(RevisionConflict) <==> !IsGranted(v, c.key, c.old_))
      && (r.Done? ==>
            Counted(v, r, None) && OtherGrantsKept(v, r.vault, c.key) && InputKey(c.key) !in r.vault.grants)
  {
  }

  // ----- the transaction -----------------------------------------------------

  /**
   * A command reaches the vault exactly when it expected the state that is stored: an absent vault is created by
   * an insertion or by the empty initialization, which stores a vault with nothing in it.
   */
  lemma PersistWhenExpected(g: Grammar, current: Option<Vault>, c: Command)
    ensures c.InitializeEmpty? ==>
              Persist(g, current, c) ==
              if current.None? then Done(Vault(0, map[], map[]), Receipt(0, None)) else Refused(RevisionConflict)
    ensures !c.InitializeEmpty? && current.Some? ==>
              Persist(g, current, c) ==
              if c.expected == Present(current.value.revision) then Apply(g, current.value, c)
              else Refused(RevisionConflict)
    ensures !c.InitializeEmpty? && current.None? ==>
              Persist(g, current, c) ==
              if c.Insert? && c.expected == Absent then Apply(g, Vault(0, map[], map[]), c)
              else Refused(RevisionConflict)
  {
  }

  // ----- an accepted document ------------------------------------------------

  /** Credential `i` is the active one that the grant names. */
  predicate OwnedBy(f: File, row: Grant, i: int) {
    && 0 <= i < |f.credentials| && f.credentials[i].state == Active
    && f.credentials[i].service == row.service && f.credentials[i].account == row.account
  }

  /**
   * In a document the code accepts, exactly the active credentials hold a secret, no account and no grant is
   * stored twice, and every grant has a digest and exactly one active credential.
   */
  lemma AcceptedDocument(g: Grammar, f: File)
    requires Acceptable(g, f)
    ensures forall c :: c in f.credentials ==> (c.state == Active <==> c.secret.Some?)
    ensures forall i, j :: 0 <= i < j < |f.credentials| ==>
      f.credentials[i].service != f.credentials[j].service || f.credentials[i].account != f.credentials[j].account
    ensures forall i, j :: 0 <= i < j < |f.grants| ==> GrantRowKey(f.grants[i]) != GrantRowKey(f.grants[j])
    ensures forall row :: row in f.grants ==> row.digest.Some? && IsManagedBy(row) && exists i :: OwnedBy(f, row, i)
    ensures |f.credentials| <= 320 && |f.grants| <= 1024 && f.revision <= 0x7FFF_FFFF_FFFF_FFFF
  {
    StrictIsDistinct(f.credentials, CredentialKey);
    StrictIsDistinct(f.grants, GrantRowKey);
    TableSize(f.credentials, CredentialKey);
    TableSize(f.grants, GrantRowKey);
    TableLooksUp(f.credentials, CredentialKey);
    TableLooksUp(f.grants, GrantRowKey);
    forall c | c in f.credentials ensures c.state == Active <==> c.secret.Some? {
      assert IsCredential(g, Contents(f).credentials[CredentialKey(c)]);
    }
    forall i, j | 0 <= i < j < |f.credentials|
      ensures
        || f.credentials[i].service != f.credentials[j].service
        || f.credentials[i].account != f.credentials[j].account
    {
      assert CredentialKey(f.credentials[i]) != CredentialKey(f.credentials[j]);
    }
    forall row | row in f.grants ensures row.digest.Some? && IsManagedBy(row) && exists i :: OwnedBy(f, row, i) {
      HasAnOwner(g, f, row);
    }
  }

  lemma HasAnOwner(g: Grammar, f: File, row: Grant)
    requires Acceptable(g, f) && row in f.grants
    ensures row.digest.Some? && IsManagedBy(row) && exists i :: OwnedBy(f, row, i)
  {
    StrictIsDistinct(f.credentials, CredentialKey);
    StrictIsDistinct(f.grants, GrantRowKey);
    TableLooksUp(f.grants, GrantRowKey);
    TableLooksUp(f.credentials, CredentialKey);
    var v := Contents(f);
    assert v.grants[GrantRowKey(row)] == row && IsGrant(g, row);
    assert IsActive(v.credentials, Owner(row));
    var c := v.credentials[Owner(row)];
    assert c in f.credentials && CredentialKey(c) == Owner(row);
    RefersIsOwner(row, c);
    var i :| 0 <= i < |f.credentials| && f.credentials[i] == c;
    assert OwnedBy(f, row, i);
  }
}
