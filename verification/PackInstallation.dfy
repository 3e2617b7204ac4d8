/**
 * The strict authority document of one Pack installation: its printed tree, the
 * bounded reader it must pass, the exact schema that reads it back, and the
 * lookup of the component digest. The schema's member names are constructors;
 * the grammars of its texts are parameters.
 */
module PackInstallation {
  import opened Prelude
  import opened KeyOrder
  import opened StrictJson

  const MAX_ENTRIES: nat := 4096
  const MAX_NODES: nat := 5 * MAX_ENTRIES + 64
  const MAX_DEPTH: nat := 8
  const MAX_REVISION: nat := 0x7FFF_FFFF_FFFF_FFFF
  const FORMAT_VERSION: int := 1

  datatype Name =
    | FormatVersion | Kind | Revision | Family | PackId | Source | Selected | TrustHighWater | Inventory
    | Version | Digest | Sequence | ManifestDigest | PathName
    | Other(name: string)

  datatype Grammar = Grammar(
    packId: string -> bool, source: string -> bool, version: string -> bool, digest: string -> bool,
    path: string -> bool, kind: string, componentPath: string)

  datatype Entry = Entry(path: string, digest: string)

  datatype Installation = Installation(
    family: string, packId: string, source: string,
    version: string, digest: string, sequence: nat, manifestDigest: string,
    inventory: seq<Entry>)

  datatype Document = Document(revision: nat, installation: Installation)

  function EntryKey(e: Entry): Key { [e.path] }

  predicate IsEntry(g: Grammar, e: Entry) { g.path(e.path) && g.digest(e.digest) }

  /** `validate_inventory`: 1 through 4096 entries, strictly increasing by path. */
  predicate IsInventory(entries: seq<Entry>) {
    1 <= |entries| <= MAX_ENTRIES && NeighboursIncrease(entries, EntryKey)
  }

  /** What the types and the constructor guarantee of an installation. */
  predicate IsInstallation(g: Grammar, i: Installation) {
    && g.packId(i.packId) && g.source(i.source) && g.version(i.version) && g.digest(i.digest)
    && 1 <= i.sequence <= MAX_REVISION && g.digest(i.manifestDigest)
    && IsInventory(i.inventory) && forall e :: e in i.inventory ==> IsEntry(g, e)
  }

  predicate IsDocument(g: Grammar, d: Document) {
    1 <= d.revision <= MAX_REVISION && IsInstallation(g, d.installation)
  }

  // ----- printing ------------------------------------------------------------

  type Tree = Text<Name>
  type Json = Value<Name>

  function Word(s: string): Tree { Leaf(Str(s)) }

  function Number(n: int): Tree { Leaf(Int(n)) }

  function PrintEntry(e: Entry): Tree {
    Record([Member(PathName, Word(e.path)), Member(Digest, Word(e.digest))])
  }

  function PrintEntries(entries: seq<Entry>): (items: seq<Tree>)
    ensures |items| == |entries|
  {
    seq(|entries|, i requires 0 <= i < |entries| => PrintEntry(entries[i]))
  }

  function PrintSelected(i: Installation): Tree {
    Record([Member(Version, Word(i.version)), Member(Digest, Word(i.digest))])
  }

  function PrintTrust(i: Installation): Tree {
    Record([Member(Sequence, Number(i.sequence)), Member(ManifestDigest, Word(i.manifestDigest))])
  }

  /** The members that are plain texts and numbers. */
  function Header(g: Grammar, d: Document): (pairs: seq<(Name, Scalar)>) {
    [(FormatVersion, Int(FORMAT_VERSION)), (Kind, Str(g.kind)), (Revision, Int(d.revision)),
     (Family, Str(d.installation.family)), (PackId, Str(d.installation.packId)), (Source, Str(d.installation.source))]
  }

  function Leaves(pairs: seq<(Name, Scalar)>): (members: seq<Member<Name>>)
    ensures |members| == |pairs|
  {
    seq(|pairs|, i requires 0 <= i < |pairs| => Member(pairs[i].0, Leaf(pairs[i].1)))
  }

  /** `serialize_document`, as a tree: nine members in their order. */
  function Print(g: Grammar, d: Document): Tree {
    Record(Leaves(Header(g, d)) +
           [Member(Selected, PrintSelected(d.installation)), Member(TrustHighWater, PrintTrust(d.installation)),
            Member(Inventory, List(PrintEntries(d.installation.inventory)))])
  }

  // ----- what a printed document reads as ------------------------------------

  function EntryValue(e: Entry): Json {
    Object(map[PathName := Atom(Str(e.path)), Digest := Atom(Str(e.digest))])
  }

  function EntryValues(entries: seq<Entry>): (values: seq<Json>)
    ensures |values| == |entries|
  {
    seq(|entries|, i requires 0 <= i < |entries| => EntryValue(entries[i]))
  }

  function SelectedValue(i: Installation): Json {
    Object(map[Version := Atom(Str(i.version)), Digest := Atom(Str(i.digest))])
  }

  function TrustValue(i: Installation): Json {
    Object(map[Sequence := Atom(Int(i.sequence)), ManifestDigest := Atom(Str(i.manifestDigest))])
  }

  function LeafValues(pairs: seq<(Name, Scalar)>): map<Name, Json> {
    if pairs == [] then map[]
    else LeafValues(pairs[..|pairs| - 1])[pairs[|pairs| - 1].0 := Atom(pairs[|pairs| - 1].1)]
  }

  function DocumentMembers(g: Grammar, d: Document): map<Name, Json> {
    LeafValues(Header(g, d))[Selected := SelectedValue(d.installation)][TrustHighWater := TrustValue(d.installation)]
      [Inventory := Array(EntryValues(d.installation.inventory))]
  }

  // ----- the exact schema ----------------------------------------------------

  function TakeString(m: map<Name, Json>, name: Name): Option<string> {
    if name in m && m[name].Atom? && m[name].scalar.Str? then Some(m[name].scalar.s) else None
  }

  /** `as_u64` and the bound of a positive authority number. */
  function TakePositive(m: map<Name, Json>, name: Name): Option<nat> {
    if name in m && m[name].Atom? && m[name].scalar.Int? && 1 <= m[name].scalar.n <= MAX_REVISION
    then Some(m[name].scalar.n) else None
  }

  /** `exact_object`: an object with these members and no others. */
  predicate IsExactly(v: Json, names: set<Name>) { v.Object? && v.members.Keys == names }

  const ROOT_NAMES: set<Name> :=
    {FormatVersion, Kind, Revision, Family, PackId, Source, Selected, TrustHighWater, Inventory}

  function ParseEntry(g: Grammar, v: Json): Option<Entry> {
    if !IsExactly(v, {PathName, Digest}) then None
    else
      match (TakeString(v.members, PathName), TakeString(v.members, Digest))
      case (Some(path), Some(digest)) => if g.path(path) && g.digest(digest) then Some(Entry(path, digest)) else None
      case _ => None
  }

  function ParseEntries(g: Grammar, vs: seq<Json>): Option<seq<Entry>> {
    if vs == [] then Some([])
    else
      match (ParseEntries(g, vs[..|vs| - 1]), ParseEntry(g, vs[|vs| - 1]))
      case (Some(front), Some(e)) => Some(front + [e])
      case _ => None
  }

  function ParseSelected(g: Grammar, v: Json): Option<(string, string)> {
    if !IsExactly(v, {Version, Digest}) then None
    else
      match (TakeString(v.members, Version), TakeString(v.members, Digest))
      case (Some(version), Some(digest)) =>
        if g.version(version) && g.digest(digest) then Some((version, digest)) else None
      case _ => None
  }

  function ParseTrust(g: Grammar, v: Json): Option<(nat, string)> {
    if !IsExactly(v, {Sequence, ManifestDigest}) then None
    else
      match (TakePositive(v.members, Sequence), TakeString(v.members, ManifestDigest))
      case (Some(sequence), Some(digest)) => if g.digest(digest) then Some((sequence, digest)) else None
      case _ => None
  }

  function ParseInventory(g: Grammar, v: Json): Option<seq<Entry>> {
    if !v.Array? then None
    else
      match ParseEntries(g, v.items)
      case Some(entries) => if IsInventory(entries) then Some(entries) else None
      case None => None
  }

  predicate HeaderOk(g: Grammar, m: map<Name, Json>, family: string, packId: string) {
    && FormatVersion in m && m[FormatVersion] == Atom(Int(FORMAT_VERSION))
    && TakeString(m, Kind) == Some(g.kind)
    && TakeString(m, Family) == Some(family)
    && TakeString(m, PackId) == Some(packId) && g.packId(packId)
  }

  /** `parse_document_value`, for the family and Pack that the path names. */
  function Parse(g: Grammar, v: Json, family: string, packId: string): Option<Document> {
    if !IsExactly(v, ROOT_NAMES) || !HeaderOk(g, v.members, family, packId) then None
    else
      var m := v.members;
      match (TakePositive(m, Revision), TakeString(m, Source))
      case (Some(revision), Some(source)) =>
        if !g.source(source) then None
        else
          (match (ParseSelected(g, m[Selected]), ParseTrust(g, m[TrustHighWater]), ParseInventory(g, m[Inventory]))
           case (Some(selected), Some(trust), Some(inventory)) =>
             Some(Document(revision,
                           Installation(family, packId, source, selected.0, selected.1, trust.0, trust.1, inventory)))
           case _ => None)
      case _ => None
  }

  // ----- cost and meaning of the printed tree --------------------------------

  /** Everything the reader asks of a list of members. */
  ghost predicate Reads(members: seq<Member<Name>>, nodes: nat, depth: nat, values: map<Name, Json>) {
    && MemberNodes(members) == nodes && MemberDepth(members) <= depth && NoMemberRepeats(members)
    && ReadMembers(members) == values && Names(members) == values.Keys
  }

  lemma ReadsNothing()
    ensures Reads([], 0, 0, map[])
  {
    assert Names<Name>([]) == {};
  }

  lemma OneMoreMember(front: seq<Member<Name>>, whole: seq<Member<Name>>, nodes: nat, depth: nat,
                      values: map<Name, Json>, name: Name, t: Tree)
    requires Reads(front, nodes, depth, values) && name !in values && NoRepeats(t)
    requires whole == front + [Member(name, t)]
    ensures Reads(whole, nodes + 1 + Nodes(t), Max(depth, Depth(t)), values[name := Read(t)])
  {
    MembersOneMore(front, Member(name, t));
  }

  predicate DistinctNames(pairs: seq<(Name, Scalar)>) {
    forall i, j :: 0 <= i < j < |pairs| ==> pairs[i].0 != pairs[j].0
  }

  /** Plain members cost two nodes each. */
  lemma {:induction false} LeavesRead(pairs: seq<(Name, Scalar)>)
    requires DistinctNames(pairs)
    ensures Reads(Leaves(pairs), 2 * |pairs|, 1, LeafValues(pairs))
    decreases |pairs|
  {
    if pairs == [] {
      ReadsNothing();
    } else {
      var front, last := pairs[..|pairs| - 1], pairs[|pairs| - 1];
      LeavesRead(front);
      LeafLookup(front);
      OneMoreMember(Leaves(front), Leaves(pairs), 2 * |front|, 1, LeafValues(front), last.0, Leaf(last.1));
    }
  }

  lemma {:induction false} LeafLookup(pairs: seq<(Name, Scalar)>)
    requires DistinctNames(pairs)
    ensures forall n :: n in LeafValues(pairs) <==> exists i :: 0 <= i < |pairs| && pairs[i].0 == n
    ensures forall i :: 0 <= i < |pairs| ==> LeafValues(pairs)[pairs[i].0] == Atom(pairs[i].1)
    decreases |pairs|
  {
    if pairs != [] {
      var front, last := pairs[..|pairs| - 1], pairs[|pairs| - 1];
      LeafLookup(front);
      assert pairs == front + [last];
    }
  }

  lemma LeavesCost(pairs: seq<(Name, Scalar)>)
    requires DistinctNames(pairs)
    ensures Reads(Leaves(pairs), 2 * |pairs|, 1, LeafValues(pairs))
    ensures forall n :: n in LeafValues(pairs) <==> exists i :: 0 <= i < |pairs| && pairs[i].0 == n
    ensures forall i :: 0 <= i < |pairs| ==> LeafValues(pairs)[pairs[i].0] == Atom(pairs[i].1)
  {
    LeavesRead(pairs);
    LeafLookup(pairs);
  }

  /** A record of two leaves costs five nodes and two levels. */
  lemma PairRecord(a: Name, x: Scalar, b: Name, y: Scalar)
    requires a != b
    ensures var t := Record([Member(a, Leaf(x)), Member(b, Leaf(y))]);
            Nodes(t) == 5 && Depth(t) <= 2 && NoRepeats(t) && Read(t) == Object(map[a := Atom(x), b := Atom(y)])
  {
    var pairs := [(a, x), (b, y)];
    LeavesCost(pairs);
    assert Leaves(pairs) == [Member(a, Leaf(x)), Member(b, Leaf(y))];
    assert pairs[0].0 in LeafValues(pairs) && pairs[1].0 in LeafValues(pairs);
    assert LeafValues(pairs) == map[a := Atom(x), b := Atom(y)];
  }

  /** Five nodes for each inventory entry. */
  lemma {:induction false} EntriesCost(entries: seq<Entry>)
    ensures ItemNodes(PrintEntries(entries)) == 5 * |entries| && ItemDepth(PrintEntries(entries)) <= 2
    ensures NoItemRepeats(PrintEntries(entries)) && ReadItems(PrintEntries(entries)) == EntryValues(entries)
    decreases |entries|
  {
    if entries != [] {
      var front, e := entries[..|entries| - 1], entries[|entries| - 1];
      EntriesCost(front);
      PairRecord(PathName, Str(e.path), Digest, Str(e.digest));
      assert PrintEntries(entries)[..|entries| - 1] == PrintEntries(front);
      assert EntryValues(entries) == EntryValues(front) + [EntryValue(e)];
    }
  }

  /** Reads, without looking into the members again. */
  lemma ThreeMore(h: seq<Member<Name>>, h1: seq<Member<Name>>, h2: seq<Member<Name>>, h3: seq<Member<Name>>,
                  nodes: nat, depth: nat, values: map<Name, Json>,
                  a: Name, x: Tree, b: Name, y: Tree, c: Name, z: Tree)
    requires Reads(h, nodes, depth, values) && a !in values && b !in values && c !in values
    requires a != b && b != c && a != c && NoRepeats(x) && NoRepeats(y) && NoRepeats(z)
    requires h1 == h + [Member(a, x)] && h2 == h1 + [Member(b, y)] && h3 == h2 + [Member(c, z)]
    ensures Reads(h3, nodes + 3 + Nodes(x) + Nodes(y) + Nodes(z),
                  Max(Max(Max(depth, Depth(x)), Depth(y)), Depth(z)),
                  values[a := Read(x)][b := Read(y)][c := Read(z)])
  {
    OneMoreMember(h, h1, nodes, depth, values, a, x);
    OneMoreMember(h1, h2, nodes + 1 + Nodes(x), Max(depth, Depth(x)), values[a := Read(x)], b, y);
    OneMoreMember(h2, h3, nodes + 2 + Nodes(x) + Nodes(y), Max(Max(depth, Depth(x)), Depth(y)),
                  values[a := Read(x)][b := Read(y)], c, z);
  }

  lemma BodyCost(i: Installation)
    ensures Nodes(PrintSelected(i)) == 5 && Depth(PrintSelected(i)) <= 2 && NoRepeats(PrintSelected(i))
    ensures Read(PrintSelected(i)) == SelectedValue(i)
    ensures Nodes(PrintTrust(i)) == 5 && Depth(PrintTrust(i)) <= 2 && NoRepeats(PrintTrust(i))
    ensures Read(PrintTrust(i)) == TrustValue(i)
    ensures var t := List(PrintEntries(i.inventory));
            && Nodes(t) == 1 + 5 * |i.inventory| && Depth(t) <= 3 && NoRepeats(t)
            && Read(t) == Array(EntryValues(i.inventory))
  {
    PairRecord(Version, Str(i.version), Digest, Str(i.digest));
    PairRecord(Sequence, Int(i.sequence), ManifestDigest, Str(i.manifestDigest));
    EntriesCost(i.inventory);
  }

  lemma BodyFollows(h: seq<Member<Name>>, v: map<Name, Json>, i: Installation)
    requires Reads(h, 12, 1, v) && v.Keys !! {Selected, TrustHighWater, Inventory}
    ensures var t := Record(h + [Member(Selected, PrintSelected(i)), Member(TrustHighWater, PrintTrust(i)),
                                 Member(Inventory, List(PrintEntries(i.inventory)))]);
            && Nodes(t) == 27 + 5 * |i.inventory| && Depth(t) <= 4 && NoRepeats(t)
            && Read(t) == Object(v[Selected := SelectedValue(i)][TrustHighWater := TrustValue(i)]
                                 [Inventory := Array(EntryValues(i.inventory))])
  {
    BodyCost(i);
    var x, y, z := PrintSelected(i), PrintTrust(i), List(PrintEntries(i.inventory));
    assert Selected !in v && TrustHighWater !in v && Inventory !in v;
    InThreeSteps(h, v, x, y, z);
  }

  lemma InThreeSteps(h: seq<Member<Name>>, v: map<Name, Json>, x: Tree, y: Tree, z: Tree)
    requires Reads(h, 12, 1, v) && Selected !in v && TrustHighWater !in v && Inventory !in v
    requires NoRepeats(x) && NoRepeats(y) && NoRepeats(z)
    ensures Reads(h + [Member(Selected, x), Member(TrustHighWater, y), Member(Inventory, z)],
                  15 + Nodes(x) + Nodes(y) + Nodes(z), Max(Max(Max(1, Depth(x)), Depth(y)), Depth(z)),
                  v[Selected := Read(x)][TrustHighWater := Read(y)][Inventory := Read(z)])
  {
    var h1 := h + [Member(Selected, x)];
    var h2 := h1 + [Member(TrustHighWater, y)];
    var h3 := h2 + [Member(Inventory, z)];
    assert h3 == h + [Member(Selected, x), Member(TrustHighWater, y), Member(Inventory, z)];
    ThreeMore(h, h1, h2, h3, 12, 1, v, Selected, x, TrustHighWater, y, Inventory, z);
  }

  /** A printed document has 27 nodes and five for each entry, is four levels deep and repeats nothing. */
  lemma PrintedDocument(g: Grammar, d: Document)
    ensures var t := Print(g, d);
            && Nodes(t) == 27 + 5 * |d.installation.inventory| && Depth(t) <= 4 && NoRepeats(t)
            && Read(t) == Object(DocumentMembers(g, d))
  {
    HeaderNames(g, d);
    BodyFollows(Leaves(Header(g, d)), LeafValues(Header(g, d)), d.installation);
  }

  predicate IsHeader(pairs: seq<(Name, Scalar)>) {
    && |pairs| == 6
    && pairs[0].0 == FormatVersion && pairs[1].0 == Kind && pairs[2].0 == Revision
    && pairs[3].0 == Family && pairs[4].0 == PackId && pairs[5].0 == Source
  }

  lemma SixLeaves(pairs: seq<(Name, Scalar)>)
    requires IsHeader(pairs)
    ensures Reads(Leaves(pairs), 12, 1, LeafValues(pairs))
    ensures LeafValues(pairs).Keys == {FormatVersion, Kind, Revision, Family, PackId, Source}
    ensures forall i :: 0 <= i < 6 ==> LeafValues(pairs)[pairs[i].0] == Atom(pairs[i].1)
  {
    LeavesCost(pairs);
    forall n ensures n in LeafValues(pairs) <==> n in {FormatVersion, Kind, Revision, Family, PackId, Source} {
    }
  }

  lemma HeaderNames(g: Grammar, d: Document)
    ensures Reads(Leaves(Header(g, d)), 12, 1, LeafValues(Header(g, d)))
    ensures LeafValues(Header(g, d)).Keys == {FormatVersion, Kind, Revision, Family, PackId, Source}
    ensures forall i :: 0 <= i < 6 ==> LeafValues(Header(g, d))[Header(g, d)[i].0] == Atom(Header(g, d)[i].1)
  {
    SixLeaves(Header(g, d));
  }

  // ----- the round trip ------------------------------------------------------

  lemma {:induction false} EntriesReadBack(g: Grammar, entries: seq<Entry>)
    requires forall e :: e in entries ==> IsEntry(g, e)
    ensures ParseEntries(g, EntryValues(entries)) == Some(entries)
    decreases |entries|
  {
    if entries != [] {
      var front, e := entries[..|entries| - 1], entries[|entries| - 1];
      EntriesReadBack(g, front);
      assert EntryValues(entries)[..|entries| - 1] == EntryValues(front);
      assert entries == front + [e];
      EntryReadsBack(g, e);
    }
  }

  lemma EntryReadsBack(g: Grammar, e: Entry)
    requires IsEntry(g, e)
    ensures ParseEntry(g, EntryValue(e)) == Some(e)
  {
  }

  lemma {:induction false} EntriesAreExact(g: Grammar, vs: seq<Json>)
    requires ParseEntries(g, vs).Some?
    ensures vs == EntryValues(ParseEntries(g, vs).value)
    ensures forall e :: e in ParseEntries(g, vs).value ==> IsEntry(g, e)
    decreases |vs|
  {
    if vs != [] {
      EntriesAreExact(g, vs[..|vs| - 1]);
      EntryIsExact(g, vs[|vs| - 1]);
    }
  }

  lemma EntryIsExact(g: Grammar, v: Json)
    requires ParseEntry(g, v).Some?
    ensures v == EntryValue(ParseEntry(g, v).value) && IsEntry(g, ParseEntry(g, v).value)
  {
  }

  lemma SelectedReadsBack(g: Grammar, i: Installation)
    requires IsInstallation(g, i)
    ensures ParseSelected(g, SelectedValue(i)) == Some((i.version, i.digest))
    ensures ParseTrust(g, TrustValue(i)) == Some((i.sequence, i.manifestDigest))
    ensures ParseInventory(g, Array(EntryValues(i.inventory))) == Some(i.inventory)
  {
    EntriesReadBack(g, i.inventory);
  }

  lemma HeaderLooksUp(g: Grammar, d: Document)
    ensures var m := DocumentMembers(g, d);
            && m.Keys == ROOT_NAMES
            && m[FormatVersion] == Atom(Int(FORMAT_VERSION)) && m[Kind] == Atom(Str(g.kind))
            && m[Revision] == Atom(Int(d.revision)) && m[Family] == Atom(Str(d.installation.family))
            && m[PackId] == Atom(Str(d.installation.packId)) && m[Source] == Atom(Str(d.installation.source))
  {
    HeaderNames(g, d);
    var pairs, v := Header(g, d), LeafValues(Header(g, d));
    assert v[pairs[0].0] == Atom(pairs[0].1) && v[pairs[1].0] == Atom(pairs[1].1) && v[pairs[2].0] == Atom(pairs[2].1);
    assert v[pairs[3].0] == Atom(pairs[3].1) && v[pairs[4].0] == Atom(pairs[4].1) && v[pairs[5].0] == Atom(pairs[5].1);
  }

  lemma MembersReadBack(g: Grammar, d: Document)
    requires IsDocument(g, d)
    ensures Parse(g, Object(DocumentMembers(g, d)), d.installation.family, d.installation.packId) == Some(d)
  {
    SelectedReadsBack(g, d.installation);
    HeaderLooksUp(g, d);
    var m := DocumentMembers(g, d);
    assert m.Keys == ROOT_NAMES;
  }

  /** The paths come in the order of their characters, and none comes twice. */
  ghost predicate PathsIncrease(entries: seq<Entry>) {
    forall i, j :: 0 <= i < j < |entries| ==> CompareText(entries[i].path, entries[j].path) == Less
  }

  lemma OneComponent(a: string, b: string)
    ensures Compare([a], [b]) == CompareText(a, b)
  {
    assert Compare([a][1..], [b][1..]) == Equal;
  }

  lemma IncreaseByPath(entries: seq<Entry>)
    ensures NeighboursIncrease(entries, EntryKey) <==> PathsIncrease(entries)
  {
    StrictIffNeighbours(entries, EntryKey);
    forall i, j | 0 <= i < j < |entries|
      ensures Compare(EntryKey(entries[i]), EntryKey(entries[j])) == CompareText(entries[i].path, entries[j].path)
    {
      OneComponent(entries[i].path, entries[j].path);
    }
  }

  /** What a document must be to be accepted, in plain terms. */
  lemma ValidDocuments(g: Grammar, d: Document)
    ensures var i := d.installation;
      IsDocument(g, d) <==>
        && 1 <= d.revision < 0x8000_0000_0000_0000 && 1 <= i.sequence < 0x8000_0000_0000_0000
        && g.packId(i.packId) && g.source(i.source) && g.version(i.version)
        && g.digest(i.digest) && g.digest(i.manifestDigest)
        && 1 <= |i.inventory| <= 4096 && PathsIncrease(i.inventory)
        && forall e :: e in i.inventory ==> g.path(e.path) && g.digest(e.digest)
  {
    IncreaseByPath(d.installation.inventory);
  }

  /** A printed document reads as one object of nine members, each of which says the field of its name. */
  lemma EachMemberSaysItsField(g: Grammar, d: Document)
    ensures Read(Print(g, d)).Object?
    ensures var m, i := Read(Print(g, d)).members, d.installation;
      && m.Keys == {FormatVersion, Kind, Revision, Family, PackId, Source, Selected, TrustHighWater, Inventory}
      && m[FormatVersion] == Atom(Int(1)) && m[Kind] == Atom(Str(g.kind)) && m[Revision] == Atom(Int(d.revision))
      && m[Family] == Atom(Str(i.family)) && m[PackId] == Atom(Str(i.packId)) && m[Source] == Atom(Str(i.source))
      && m[Selected] == Object(map[Version := Atom(Str(i.version)), Digest := Atom(Str(i.digest))])
      && m[TrustHighWater] ==
         Object(map[Sequence := Atom(Int(i.sequence)), ManifestDigest := Atom(Str(i.manifestDigest))])
      && m[Inventory].Array? && |m[Inventory].items| == |i.inventory|
      && forall k :: 0 <= k < |i.inventory| ==>
           m[Inventory].items[k] ==
           Object(map[PathName := Atom(Str(i.inventory[k].path)), Digest := Atom(Str(i.inventory[k].digest))])
  {
    PrintedDocument(g, d);
    HeaderLooksUp(g, d);
    assert DocumentMembers(g, d).Keys == ROOT_NAMES;
  }

  /** Every valid document prints to a tree within the reader's bounds that reads back as the same document. */
  lemma PrintReadsBack(g: Grammar, d: Document)
    requires IsDocument(g, d)
    ensures var t := Print(g, d);
            && Nodes(t) <= MAX_NODES && Depth(t) <= MAX_DEPTH && NoRepeats(t)
            && Parse(g, Read(t), d.installation.family, d.installation.packId) == Some(d)
  {
    PrintedDocument(g, d);
    MembersReadBack(g, d);
  }

  lemma SelectedIsExact(g: Grammar, v: Json, i: Installation)
    requires ParseSelected(g, v) == Some((i.version, i.digest))
    ensures v == SelectedValue(i) && g.version(i.version) && g.digest(i.digest)
  {
  }

  lemma TrustIsExact(g: Grammar, v: Json, i: Installation)
    requires ParseTrust(g, v) == Some((i.sequence, i.manifestDigest))
    ensures v == TrustValue(i) && 1 <= i.sequence <= MAX_REVISION && g.digest(i.manifestDigest)
  {
  }

  lemma HeaderIsExact(g: Grammar, m: map<Name, Json>, d: Document)
    requires HeaderOk(g, m, d.installation.family, d.installation.packId)
    requires TakePositive(m, Revision) == Some(d.revision) && TakeString(m, Source) == Some(d.installation.source)
    ensures m[FormatVersion] == Atom(Int(FORMAT_VERSION)) && m[Kind] == Atom(Str(g.kind))
    ensures m[Revision] == Atom(Int(d.revision)) && m[Family] == Atom(Str(d.installation.family))
    ensures m[PackId] == Atom(Str(d.installation.packId)) && m[Source] == Atom(Str(d.installation.source))
  {
  }

  /** Whatever the schema accepts is a valid document, and is exactly what that document prints to. */
  lemma ParseIsExact(g: Grammar, v: Json, family: string, packId: string)
    requires Parse(g, v, family, packId).Some?
    ensures var d := Parse(g, v, family, packId).value;
            && IsDocument(g, d) && d.installation.family == family && d.installation.packId == packId
            && v == Read(Print(g, d))
  {
    var d := Parse(g, v, family, packId).value;
    var m := v.members;
    HeaderIsExact(g, m, d);
    SelectedIsExact(g, m[Selected], d.installation);
    TrustIsExact(g, m[TrustHighWater], d.installation);
    EntriesAreExact(g, m[Inventory].items);
    PrintedDocument(g, d);
    HeaderLooksUp(g, d);
    SameMembers(m, DocumentMembers(g, d));
  }

  lemma SameMembers(m: map<Name, Json>, n: map<Name, Json>)
    requires m.Keys == ROOT_NAMES && n.Keys == ROOT_NAMES
    requires m[FormatVersion] == n[FormatVersion] && m[Kind] == n[Kind] && m[Revision] == n[Revision]
    requires m[Family] == n[Family] && m[PackId] == n[PackId] && m[Source] == n[Source]
    requires m[Selected] == n[Selected] && m[TrustHighWater] == n[TrustHighWater] && m[Inventory] == n[Inventory]
    ensures m == n
  {
  }

  /** `parse_document` on a written tree: the bounded reader, then the schema. */
  method ParseDocument(g: Grammar, t: Tree, family: string, packId: string) returns (d: Option<Document>)
    ensures d.Some? <==>
            && Nodes(t) <= MAX_NODES && Depth(t) <= MAX_DEPTH && NoRepeats(t)
            && Parse(g, Read(t), family, packId).Some?
    ensures d.Some? ==> IsDocument(g, d.value) && Read(t) == Read(Print(g, d.value))
    ensures forall e :: IsDocument(g, e) && t == Print(g, e)
                        && family == e.installation.family && packId == e.installation.packId
              ==> d == Some(e)
  {
    var value := ParseStrict(t, Limits(MAX_DEPTH, MAX_NODES));
    forall e | IsDocument(g, e) && t == Print(g, e)
               && family == e.installation.family && packId == e.installation.packId
      ensures Nodes(t) <= MAX_NODES && Depth(t) <= MAX_DEPTH && NoRepeats(t)
      ensures Parse(g, Read(t), family, packId) == Some(e)
    {
      PrintReadsBack(g, e);
    }
    if value.Err? { return None; }
    d := Parse(g, value.value, family, packId);
    if d.Some? { ParseIsExact(g, value.value, family, packId); }
  }

  // ----- the component digest ------------------------------------------------

  /** The simple form: the digest of the first entry at the component's path. */
  function FirstDigestAt(entries: seq<Entry>, path: string): Option<string> {
    if entries == [] then None
    else if entries[0].path == path then Some(entries[0].digest)
    else FirstDigestAt(entries[1..], path)
  }

  lemma {:induction false} FirstDigestIs(entries: seq<Entry>, path: string)
    ensures FirstDigestAt(entries, path).None? <==> forall e :: e in entries ==> e.path != path
    ensures FirstDigestAt(entries, path).Some? ==>
              exists i :: 0 <= i < |entries| && entries[i].path == path
                          && FirstDigestAt(entries, path).value == entries[i].digest
  {
    if entries != [] && entries[0].path != path {
      FirstDigestIs(entries[1..], path);
      assert entries == [entries[0]] + entries[1..];
      if FirstDigestAt(entries[1..], path).Some? {
        var i :| 0 <= i < |entries[1..]| && entries[1..][i].path == path
                 && FirstDigestAt(entries[1..], path).value == entries[1..][i].digest;
        assert entries[i + 1] == entries[1..][i];
      }
    }
  }

  /** `validate_inventory`. */
  method ValidateInventory(entries: seq<Entry>) returns (ok: bool)
    ensures ok <==> IsInventory(entries)
  {
    if entries == [] || |entries| > MAX_ENTRIES { return false; }
    ok := Increasing(entries, EntryKey);
  }

  /** `component_digest`: the binary search finds what a scan from the front would. */
  method ComponentDigest(g: Grammar, i: Installation) returns (digest: Option<string>)
    requires IsInstallation(g, i)
    ensures digest == FirstDigestAt(i.inventory, g.componentPath)
  {
    StrictIffNeighbours(i.inventory, EntryKey);
    StrictIsDistinct(i.inventory, EntryKey);
    FirstDigestIs(i.inventory, g.componentPath);
    var at := BinarySearch(i.inventory, EntryKey, [g.componentPath]);
    if at.Some? {
      OnlyEntryAt(i.inventory, at.value, g.componentPath);
      return Some(i.inventory[at.value].digest);
    }
    forall e | e in i.inventory ensures e.path != g.componentPath {
      assert EntryKey(e) == [e.path];
    }
    return None;
  }

  lemma OnlyEntryAt(entries: seq<Entry>, at: nat, path: string)
    requires Distinct(entries, EntryKey) && at < |entries| && EntryKey(entries[at]) == [path]
    ensures FirstDigestAt(entries, path) == Some(entries[at].digest)
  {
    FirstDigestIs(entries, path);
    assert EntryKey(entries[at])[0] == entries[at].path == path;
    assert entries[at] in entries;
    var i :| 0 <= i < |entries| && entries[i].path == path && FirstDigestAt(entries, path).value == entries[i].digest;
    SameKeySameRow(entries, EntryKey, i, at);
  }
}
