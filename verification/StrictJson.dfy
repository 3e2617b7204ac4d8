/**
 * The strict bounded reader of JSON documents: it walks the written tree once,
 * counting values and member names, and refuses what is too deep, too large or
 * repeats a member.
 */
module StrictJson {
  import opened Prelude

  /** A document as written: members in their order, possibly repeated. */
  datatype Text<N> =
    | Leaf(scalar: Scalar)
    | List(items: seq<Text<N>>)
    | Record(members: seq<Member<N>>)

  datatype Member<N> = Member(name: N, value: Text<N>)

  datatype Scalar = Null | Bool(b: bool) | Int(n: int) | Float(x: real) | Str(s: string)

  /** A document as read: at most one value under each name. */
  datatype Value<N> = Atom(scalar: Scalar) | Array(items: seq<Value<N>>) | Object(members: map<N, Value<N>>)

  datatype Violation = TooDeep | TooManyNodes | DuplicateKey

  datatype Limits = Limits(depth: nat, nodes: nat)

  // ----- the written tree ----------------------------------------------------

  function Max(a: nat, b: nat): nat { if a < b then b else a }

  /** Values and member names. */
  function Nodes<N>(t: Text<N>): nat
    decreases t, 0
  {
    match t
    case Leaf(_) => 1
    case List(items) => 1 + ItemNodes(items)
    case Record(members) => 1 + MemberNodes(members)
  }

  function ItemNodes<N>(items: seq<Text<N>>): nat {
    if items == [] then 0 else ItemNodes(items[..|items| - 1]) + Nodes(items[|items| - 1])
  }

  function MemberNodes<N>(members: seq<Member<N>>): nat {
    if members == [] then 0
    else
      var last := members[|members| - 1];
      assert last.value < last;
      MemberNodes(members[..|members| - 1]) + 1 + Nodes(last.value)
  }

  function Depth<N>(t: Text<N>): nat
    decreases t, 0
  {
    match t
    case Leaf(_) => 1
    case List(items) => 1 + ItemDepth(items)
    case Record(members) => 1 + MemberDepth(members)
  }

  function ItemDepth<N>(items: seq<Text<N>>): nat {
    if items == [] then 0 else Max(ItemDepth(items[..|items| - 1]), Depth(items[|items| - 1]))
  }

  function MemberDepth<N>(members: seq<Member<N>>): nat {
    if members == [] then 0
    else
      var last := members[|members| - 1];
      assert last.value < last;
      Max(MemberDepth(members[..|members| - 1]), Depth(last.value))
  }

  function Names<N>(members: seq<Member<N>>): set<N> { set m | m in members :: m.name }

  /** No record of the tree repeats a name. */
  predicate NoRepeats<N(==)>(t: Text<N>)
    decreases t, 0
  {
    match t
    case Leaf(_) => true
    case List(items) => NoItemRepeats(items)
    case Record(members) => NoMemberRepeats(members)
  }

  predicate NoItemRepeats<N(==)>(items: seq<Text<N>>) {
    items == [] || (NoItemRepeats(items[..|items| - 1]) && NoRepeats(items[|items| - 1]))
  }

  predicate NoMemberRepeats<N(==)>(members: seq<Member<N>>) {
    if members == [] then true
    else
      var last := members[|members| - 1];
      assert last.value < last;
      && NoMemberRepeats(members[..|members| - 1])
      && last.name !in Names(members[..|members| - 1])
      && NoRepeats(last.value)
  }

  function Read<N>(t: Text<N>): Value<N>
    decreases t, 0
  {
    match t
    case Leaf(s) => Atom(s)
    case List(items) => Array(ReadItems(items))
    case Record(members) => Object(ReadMembers(members))
  }

  function ReadItems<N>(items: seq<Text<N>>): seq<Value<N>> {
    if items == [] then [] else ReadItems(items[..|items| - 1]) + [Read(items[|items| - 1])]
  }

  function ReadMembers<N>(members: seq<Member<N>>): map<N, Value<N>> {
    if members == [] then map[]
    else
      var last := members[|members| - 1];
      assert last.value < last;
      ReadMembers(members[..|members| - 1])[last.name := Read(last.value)]
  }

  /** Whether a tree met at this depth, after this many nodes, is within the limits. */
  predicate Fits<N(==)>(t: Text<N>, depth: nat, nodes: nat, limits: Limits) {
    depth - 1 + Depth(t) <= limits.depth && nodes + Nodes(t) <= limits.nodes && NoRepeats(t)
  }

  lemma FitsWithin<N>(items: seq<Text<N>>, k: nat)
    requires k < |items|
    ensures ItemNodes(items[..k + 1]) == ItemNodes(items[..k]) + Nodes(items[k])
    ensures ItemDepth(items[..k + 1]) == Max(ItemDepth(items[..k]), Depth(items[k]))
    ensures NoItemRepeats(items[..k + 1]) <==> NoItemRepeats(items[..k]) && NoRepeats(items[k])
    ensures ReadItems(items[..k + 1]) == ReadItems(items[..k]) + [Read(items[k])]
  {
    assert items[..k + 1][..k] == items[..k];
  }

  lemma MembersWithin<N>(members: seq<Member<N>>, k: nat)
    requires k < |members|
    ensures MemberNodes(members[..k + 1]) == MemberNodes(members[..k]) + 1 + Nodes(members[k].value)
    ensures MemberDepth(members[..k + 1]) == Max(MemberDepth(members[..k]), Depth(members[k].value))
    ensures NoMemberRepeats(members[..k + 1]) <==>
            NoMemberRepeats(members[..k]) && members[k].name !in Names(members[..k]) && NoRepeats(members[k].value)
    ensures ReadMembers(members[..k + 1]) == ReadMembers(members[..k])[members[k].name := Read(members[k].value)]
    ensures Names(members[..k + 1]) == Names(members[..k]) + {members[k].name}
  {
    assert members[..k + 1][..k] == members[..k];
  }

  lemma MembersOneMore<N>(front: seq<Member<N>>, m: Member<N>)
    ensures MemberNodes(front + [m]) == MemberNodes(front) + 1 + Nodes(m.value)
    ensures MemberDepth(front + [m]) == Max(MemberDepth(front), Depth(m.value))
    ensures NoMemberRepeats(front + [m]) <==> NoMemberRepeats(front) && m.name !in Names(front) && NoRepeats(m.value)
    ensures ReadMembers(front + [m]) == ReadMembers(front)[m.name := Read(m.value)]
    ensures Names(front + [m]) == Names(front) + {m.name}
  {
    assert (front + [m])[..|front|] == front;
  }

  /** A longer list has no fewer nodes, is no shallower and repeats what its beginning repeats. */
  lemma {:induction false} ItemsGrow<N>(items: seq<Text<N>>, k: nat)
    requires k <= |items|
    ensures ItemNodes(items[..k]) <= ItemNodes(items) && ItemDepth(items[..k]) <= ItemDepth(items)
    ensures NoItemRepeats(items) ==> NoItemRepeats(items[..k])
    decreases |items| - k
  {
    if k < |items| {
      FitsWithin(items, k);
      ItemsGrow(items, k + 1);
    } else {
      assert items[..k] == items;
    }
  }

  lemma {:induction false} MembersGrow<N>(members: seq<Member<N>>, k: nat)
    requires k <= |members|
    ensures MemberNodes(members[..k]) <= MemberNodes(members) && MemberDepth(members[..k]) <= MemberDepth(members)
    ensures NoMemberRepeats(members) ==> NoMemberRepeats(members[..k])
    decreases |members| - k
  {
    if k < |members| {
      MembersWithin(members, k);
      MembersGrow(members, k + 1);
    } else {
      assert members[..k] == members;
    }
  }

  // ----- the reader ----------------------------------------------------------

  class ParseState {
    const limits: Limits
    var nodes: nat
    var violation: Option<Violation>

    constructor (limits_: Limits)
      ensures limits == limits_ && nodes == 0 && violation.None?
    {
      limits, nodes, violation := limits_, 0, None;
    }

    /** Only the first violation is remembered. */
    method Reject(kind: Violation)
      modifies this`violation
      ensures violation == if old(violation).None? then Some(kind) else old(violation)
    {
      if violation.None? { violation := Some(kind); }
    }

    method CountNode() returns (ok: bool)
      requires violation.None?
      modifies this
      ensures nodes == old(nodes) + 1 && (ok <==> nodes <= limits.nodes)
      ensures violation == if ok then None else Some(TooManyNodes)
    {
      nodes := nodes + 1;
      ok := nodes <= limits.nodes;
      if !ok { Reject(TooManyNodes); }
    }

    method EnterValue(depth: nat) returns (ok: bool)
      requires violation.None?
      modifies this
      ensures ok <==> depth <= limits.depth && old(nodes) + 1 <= limits.nodes
      ensures ok ==> nodes == old(nodes) + 1
      ensures ok <==> violation.None?
    {
      if depth > limits.depth {
        Reject(TooDeep);
        return false;
      }
      ok := CountNode();
    }

    /** Reads one value: it succeeds exactly when the tree fits, and then has counted it and read it as it is. */
    method ReadValue<N(==)>(t: Text<N>, depth: nat) returns (r: Option<Value<N>>)
      requires violation.None? && depth >= 1 && nodes <= limits.nodes
      modifies this
      ensures r == if Fits(t, depth, old(nodes), limits) then Some(Read(t)) else None
      ensures r.Some? ==> nodes == old(nodes) + Nodes(t)
      ensures r.Some? <==> violation.None?
      decreases t, 1
    {
      var ok := EnterValue(depth);
      if !ok {
        AtLeastOne(t);
        return None;
      }
      match t {
        case Leaf(s) => return Some(Atom(s));
        case List(items) =>
          var values := ReadSequence(items, depth + 1);
          return if values.Some? then Some(Array(values.value)) else None;
        case Record(members) =>
          var fields := ReadMap(members, depth + 1);
          return if fields.Some? then Some(Object(fields.value)) else None;
      }
    }

    method ReadSequence<N(==)>(items: seq<Text<N>>, depth: nat) returns (r: Option<seq<Value<N>>>)
      requires violation.None? && depth >= 2 && nodes <= limits.nodes && depth - 1 <= limits.depth
      modifies this
      ensures r == if depth - 1 + ItemDepth(items) <= limits.depth && old(nodes) + ItemNodes(items) <= limits.nodes
                      && NoItemRepeats(items) then Some(ReadItems(items)) else None
      ensures r.Some? ==> nodes == old(nodes) + ItemNodes(items)
      ensures r.Some? <==> violation.None?
      decreases items, 0
    {
      var values: seq<Value<N>>, k := [], 0;
      while k < |items|
        invariant 0 <= k <= |items| && violation.None? && nodes <= limits.nodes
        invariant nodes == old(nodes) + ItemNodes(items[..k])
        invariant depth - 1 + ItemDepth(items[..k]) <= limits.depth && NoItemRepeats(items[..k])
        invariant values == ReadItems(items[..k])
      {
        FitsWithin(items, k);
        ItemsGrow(items, k + 1);
        var value := ReadValue(items[k], depth);
        if value.None? { return None; }
        values := values + [value.value];
        k := k + 1;
      }
      assert items[..k] == items;
      return Some(values);
    }

    method ReadMap<N(==)>(members: seq<Member<N>>, depth: nat) returns (r: Option<map<N, Value<N>>>)
      requires violation.None? && depth >= 2 && nodes <= limits.nodes && depth - 1 <= limits.depth
      modifies this
      ensures r == if depth - 1 + MemberDepth(members) <= limits.depth
                      && old(nodes) + MemberNodes(members) <= limits.nodes
                      && NoMemberRepeats(members) then Some(ReadMembers(members)) else None
      ensures r.Some? ==> nodes == old(nodes) + MemberNodes(members)
      ensures r.Some? <==> violation.None?
      decreases members, 0
    {
      var keys: set<N>, values: map<N, Value<N>>, k := {}, map[], 0;
      while k < |members|
        invariant 0 <= k <= |members| && violation.None? && nodes <= limits.nodes
        invariant nodes == old(nodes) + MemberNodes(members[..k])
        invariant depth - 1 + MemberDepth(members[..k]) <= limits.depth && NoMemberRepeats(members[..k])
        invariant values == ReadMembers(members[..k]) && keys == Names(members[..k])
      {
        MembersWithin(members, k);
        MembersGrow(members, k + 1);
        var value := ReadMember(members[k], keys, depth);
        if value.None? { return None; }
        keys := keys + {members[k].name};
        values := values[members[k].name := value.value];
        k := k + 1;
      }
      assert members[..k] == members;
      return Some(values);
    }

    /** One member: its name is counted, then tested, then its value read. */
    method ReadMember<N(==)>(m: Member<N>, keys: set<N>, depth: nat) returns (r: Option<Value<N>>)
      requires violation.None? && depth >= 1 && nodes <= limits.nodes
      modifies this
      ensures r == if m.name !in keys && Fits(m.value, depth, old(nodes) + 1, limits) then Some(Read(m.value)) else None
      ensures r.Some? ==> nodes == old(nodes) + 1 + Nodes(m.value)
      ensures r.Some? <==> violation.None?
      decreases m, 0
    {
      var ok := CountNode();
      if !ok {
        AtLeastOne(m.value);
        return None;
      }
      if m.name in keys {
        Reject(DuplicateKey);
        return None;
      }
      r := ReadValue(m.value, depth);
    }

    static lemma AtLeastOne<N>(t: Text<N>)
      ensures Nodes(t) >= 1 && Depth(t) >= 1
    {
    }
  }

  /** `parse_strict_value` on a written tree. */
  method ParseStrict<N(==)>(t: Text<N>, limits: Limits) returns (r: Result<Value<N>, Violation>)
    ensures r.Ok? <==> Depth(t) <= limits.depth && Nodes(t) <= limits.nodes && NoRepeats(t)
    ensures r.Ok? ==> r.value == Read(t)
  {
    var state := new ParseState(limits);
    var value := state.ReadValue(t, 1);
    return if value.Some? then Ok(value.value) else Err(state.violation.value);
  }

  // ----- how deep and how large ----------------------------------------------

  /** A scalar inside `n` lists. */
  function Nested<N>(n: nat): Text<N> {
    if n == 0 then Leaf(Null) else List([Nested(n - 1)])
  }

  /** A value inside `n` lists is `n + 1` levels deep and costs as many nodes; the reader stops exactly there. */
  lemma {:induction false} NestedCost<N>(n: nat, limits: Limits)
    ensures Depth<N>(Nested(n)) == n + 1 && Nodes<N>(Nested(n)) == n + 1 && NoRepeats<N>(Nested(n))
    ensures Fits<N>(Nested(n), 1, 0, limits) <==> n < limits.depth && n < limits.nodes
  {
    if n > 0 {
      NestedCost<N>(n - 1, limits);
      var items: seq<Text<N>> := [Nested(n - 1)];
      assert items[..0] == [];
      assert ItemDepth(items) == Max(0, Depth<N>(Nested(n - 1))) && ItemNodes(items) == Nodes<N>(Nested(n - 1));
      assert NoItemRepeats(items[..0]) && NoItemRepeats(items);
    }
  }

  /** A name that a record repeats anywhere is found. */
  lemma RepeatsAreFound<N>(members: seq<Member<N>>, i: nat, j: nat)
    requires i < j < |members| && members[i].name == members[j].name
    ensures !NoRepeats(Record(members))
  {
    MembersGrow(members, j + 1);
    MembersWithin(members, j);
    assert members[..j][i] == members[i];
    assert members[j].name in Names(members[..j]);
  }
}
