/**
 * The check that the code runs on a whole Host-vault document, row by row and
 * neighbour by neighbour, and what it means for the tables the document stands for.
 */
module VaultCheck {
  import opened Prelude
  import opened KeyOrder
  import opened HostVault

  const FORMAT_VERSION: nat := 1
  const KIND: string := "mcode-host-auth"

  /** A parsed document, in the order of its rows. */
  datatype File = File(
    formatVersion: nat, kind: string, revision: nat, credentials: seq<Credential>, grants: seq<Grant>)

  ghost function Contents(f: File): Vault {
    Vault(f.revision, Table(f.credentials, CredentialKey), Table(f.grants, GrantRowKey))
  }

  /** A document the code accepts: strictly ordered rows standing for a sound vault. */
  ghost predicate Acceptable(g: Grammar, f: File) {
    && f.formatVersion == FORMAT_VERSION && f.kind == KIND
    && Strict(f.credentials, CredentialKey) && Strict(f.grants, GrantRowKey)
    && Sound(g, Contents(f))
  }

  function ActiveCount(s: seq<Credential>): (n: nat) {
    if s == [] then 0
    else ActiveCount(s[..|s| - 1]) + if s[|s| - 1].state.Active? then 1 else 0
  }

  predicate Refers(row: Grant, c: Credential) {
    c.state.Active? && c.service == row.service && c.account == row.account
  }

  /** How many active credentials a grant names. */
  function References(s: seq<Credential>, row: Grant): nat {
    if s == [] then 0
    else References(s[..|s| - 1], row) + if Refers(row, s[|s| - 1]) then 1 else 0
  }

  lemma NewLastKey<T(!new)>(s: seq<T>, key: T -> Key)
    requires s != [] && Distinct(s, key)
    ensures Distinct(s[..|s| - 1], key) && key(s[|s| - 1]) !in Table(s[..|s| - 1], key)
    ensures Table(s, key) == Table(s[..|s| - 1], key)[key(s[|s| - 1]) := s[|s| - 1]]
  {
    SplitLast(s);
    TableOfOneMore(s[..|s| - 1], s[|s| - 1], key);
  }

  lemma {:induction false} ActiveCountIsExact(s: seq<Credential>)
    requires Distinct(s, CredentialKey)
    ensures ActiveCount(s) == |ActiveKeys(Table(s, CredentialKey))|
  {
    if s == [] {
      assert ActiveKeys(map[]) == {};
    } else {
      var front, x := s[..|s| - 1], s[|s| - 1];
      NewLastKey(s, CredentialKey);
      ActiveCountIsExact(front);
      ActiveKeysAfter(Table(front, CredentialKey), CredentialKey(x), x);
    }
  }

  lemma RefersIsOwner(row: Grant, c: Credential)
    ensures Refers(row, c) <==> c.state.Active? && CredentialKey(c) == Owner(row)
  {
    assert CredentialKey(c)[0] == c.service && CredentialKey(c)[1] == c.account;
    assert Owner(row)[0] == row.service && Owner(row)[1] == row.account;
  }

  /** Counting matches over all rows is looking the owner up. */
  lemma {:induction false} ReferencesIsLookup(s: seq<Credential>, row: Grant)
    requires Distinct(s, CredentialKey)
    ensures References(s, row) == if IsActive(Table(s, CredentialKey), Owner(row)) then 1 else 0
  {
    if s != [] {
      var front, x := s[..|s| - 1], s[|s| - 1];
      NewLastKey(s, CredentialKey);
      ReferencesIsLookup(front, row);
      RefersIsOwner(row, x);
    }
  }

  /** The rows and counts the code looks at, before the order of the grants. */
  ghost predicate CredentialRowsPass(g: Grammar, s: seq<Credential>) {
    && (forall c :: c in s ==> IsCredential(g, c))
    && ActiveCount(s) <= MAX_ACTIVE_CREDENTIALS && |s| <= MAX_CREDENTIALS
  }

  ghost predicate GrantRowsPass(g: Grammar, rows: seq<Grant>, s: seq<Credential>) {
    && |rows| <= MAX_GRANTS
    && forall row :: row in rows ==> IsGrant(g, row) && References(s, row) == 1
  }

  lemma CredentialRows(g: Grammar, s: seq<Credential>)
    requires Distinct(s, CredentialKey)
    ensures CredentialRowsPass(g, s) <==> CredentialsOk(g, Table(s, CredentialKey))
  {
    TableLooksUp(s, CredentialKey);
    TableSize(s, CredentialKey);
    ActiveCountIsExact(s);
  }

  lemma GrantRows(g: Grammar, rows: seq<Grant>, s: seq<Credential>)
    requires Distinct(rows, GrantRowKey) && Distinct(s, CredentialKey)
    ensures GrantRowsPass(g, rows, s) <==> GrantsOk(g, Table(rows, GrantRowKey), Table(s, CredentialKey))
  {
    TableLooksUp(rows, GrantRowKey);
    TableSize(rows, GrantRowKey);
    forall row | row in rows ensures References(s, row) == 1 <==> IsActive(Table(s, CredentialKey), Owner(row)) {
      ReferencesIsLookup(s, row);
    }
    forall k | k in Table(rows, GrantRowKey) ensures Table(rows, GrantRowKey)[k] in rows {
    }
  }

  /** The row-by-row check accepts exactly the acceptable documents. */
  lemma ChecksAreComplete(g: Grammar, f: File)
    ensures Acceptable(g, f) <==>
            && f.formatVersion == FORMAT_VERSION && f.kind == KIND && f.revision <= MAX_REVISION
            && CredentialRowsPass(g, f.credentials) && NeighboursIncrease(f.credentials, CredentialKey)
            && GrantRowsPass(g, f.grants, f.credentials) && NeighboursIncrease(f.grants, GrantRowKey)
  {
    StrictIffNeighbours(f.credentials, CredentialKey);
    StrictIffNeighbours(f.grants, GrantRowKey);
    if Strict(f.credentials, CredentialKey) && Strict(f.grants, GrantRowKey) {
      StrictIsDistinct(f.credentials, CredentialKey);
      StrictIsDistinct(f.grants, GrantRowKey);
      CredentialRows(g, f.credentials);
      GrantRows(g, f.grants, f.credentials);
    }
  }

  method CountReferences(s: seq<Credential>, row: Grant) returns (n: nat)
    ensures n == References(s, row)
  {
    n := 0;
    var i := 0;
    while i < |s|
      invariant 0 <= i <= |s| && n == References(s[..i], row)
    {
      assert s[..i + 1][..i] == s[..i];
      if Refers(row, s[i]) { n := n + 1; }
      i := i + 1;
    }
    assert s[..i] == s;
  }

  method CheckCredentials(g: Grammar, s: seq<Credential>) returns (ok: bool)
    ensures ok <==> CredentialRowsPass(g, s)
  {
    var active, i := 0, 0;
    while i < |s|
      invariant 0 <= i <= |s| && active == ActiveCount(s[..i])
      invariant forall j :: 0 <= j < i ==> IsCredential(g, s[j])
    {
      if !IsCredential(g, s[i]) { return false; }
      assert s[..i + 1][..i] == s[..i];
      if s[i].state.Active? { active := active + 1; }
      i := i + 1;
    }
    assert s[..i] == s;
    return active <= MAX_ACTIVE_CREDENTIALS && |s| <= MAX_CREDENTIALS;
  }

  method CheckGrants(g: Grammar, rows: seq<Grant>, s: seq<Credential>) returns (ok: bool)
    ensures ok <==> GrantRowsPass(g, rows, s)
  {
    if |rows| > MAX_GRANTS { return false; }
    var i := 0;
    while i < |rows|
      invariant 0 <= i <= |rows|
      invariant forall j :: 0 <= j < i ==> IsGrant(g, rows[j]) && References(s, rows[j]) == 1
    {
      if !IsGrant(g, rows[i]) { return false; }
      var n := CountReferences(s, rows[i]);
      if n != 1 { return false; }
      i := i + 1;
    }
    return true;
  }

  /** `validate_document`. */
  method Validate(g: Grammar, f: File) returns (r: Result<(), Failure>)
    ensures r == if Acceptable(g, f) then Ok(()) else Err(AuthorityValidation)
  {
    ChecksAreComplete(g, f);
    if f.formatVersion != FORMAT_VERSION || f.kind != KIND || f.revision > MAX_REVISION {
      return Err(AuthorityValidation);
    }
    var ok := CheckCredentials(g, f.credentials);
    if !ok { return Err(AuthorityValidation); }
    ok := Increasing(f.credentials, CredentialKey);
    if !ok { return Err(AuthorityValidation); }
    ok := CheckGrants(g, f.grants, f.credentials);
    if !ok { return Err(AuthorityValidation); }
    ok := Increasing(f.grants, GrantRowKey);
    return if ok then Ok(()) else Err(AuthorityValidation);
  }
}
