/**
 * The order of identifiers and of tuples of identifiers, and strictly sorted
 * tables: sorting, binary search and the map a table stands for.
 */
module KeyOrder {
  import opened Prelude

  datatype Ordering = Less | Equal | Greater

  /** A tuple of identifiers, compared component by component. */
  type Key = seq<string>

  function CompareText(a: string, b: string): Ordering {
    if a == [] then (if b == [] then Equal else Less)
    else if b == [] then Greater
    else if a[0] < b[0] then Less
    else if b[0] < a[0] then Greater
    else CompareText(a[1..], b[1..])
  }

  function Compare(a: Key, b: Key): Ordering {
    if a == [] then (if b == [] then Equal else Less)
    else if b == [] then Greater
    else
      var first := CompareText(a[0], b[0]);
      if first == Equal then Compare(a[1..], b[1..]) else first
  }

  lemma TextEqual(a: string, b: string)
    ensures CompareText(a, b) == Equal <==> a == b
    ensures CompareText(a, b) == Less <==> CompareText(b, a) == Greater
  {
    if a != [] && b != [] {
      TextEqual(a[1..], b[1..]);
      if a[0] == b[0] && a[1..] == b[1..] {
        assert a == [a[0]] + a[1..] == [b[0]] + b[1..] == b;
      }
    }
  }

  lemma {:induction false} TextTransitive(a: string, b: string, c: string)
    requires CompareText(a, b) == Less && CompareText(b, c) == Less
    ensures CompareText(a, c) == Less
  {
    if a != [] && a[0] == b[0] && b[0] == c[0] {
      TextTransitive(a[1..], b[1..], c[1..]);
    }
  }

  lemma {:induction false} KeyEqual(a: Key, b: Key)
    ensures Compare(a, b) == Equal <==> a == b
    ensures Compare(a, b) == Less <==> Compare(b, a) == Greater
  {
    if a != [] && b != [] {
      TextEqual(a[0], b[0]);
      TextEqual(b[0], a[0]);
      KeyEqual(a[1..], b[1..]);
      if a[0] == b[0] && a[1..] == b[1..] {
        assert a == [a[0]] + a[1..] == [b[0]] + b[1..] == b;
      }
    }
  }

  lemma {:induction false} KeyTransitive(a: Key, b: Key, c: Key)
    requires Compare(a, b) == Less && Compare(b, c) == Less
    ensures Compare(a, c) == Less
  {
    if a != [] {
      TextEqual(a[0], b[0]);
      TextEqual(b[0], c[0]);
      if a[0] == b[0] {
        if b[0] == c[0] { KeyTransitive(a[1..], b[1..], c[1..]); }
      } else if b[0] != c[0] {
        TextTransitive(a[0], b[0], c[0]);
      }
    }
  }

  /** The sequences agree before place `k`, and there the order decides. */
  ghost predicate DecidedAt<T(!new)>(a: seq<T>, b: seq<T>, less: (T, T) -> bool, k: nat) {
    k < |a| && k < |b| && a[..k] == b[..k] && less(a[k], b[k])
  }

  ghost predicate Lexicographic<T(!new)>(a: seq<T>, b: seq<T>, less: (T, T) -> bool) {
    a < b || exists k: nat :: DecidedAt(a, b, less, k)
  }

  lemma LaterPlace<T(!new)>(a: seq<T>, b: seq<T>, less: (T, T) -> bool)
    requires a != [] && b != [] && a[0] == b[0] && !less(a[0], b[0])
    ensures Lexicographic(a, b, less) <==> Lexicographic(a[1..], b[1..], less)
  {
    if Lexicographic(a, b, less) && !(a < b) {
      var k: nat :| DecidedAt(a, b, less, k);
      assert k > 0;
      assert a[1..][..k - 1] == a[..k][1..] && b[1..][..k - 1] == b[..k][1..];
      assert DecidedAt(a[1..], b[1..], less, k - 1);
    }
    if Lexicographic(a[1..], b[1..], less) && !(a[1..] < b[1..]) {
      var k: nat :| DecidedAt(a[1..], b[1..], less, k);
      assert a[..k + 1] == [a[0]] + a[1..][..k] && b[..k + 1] == [b[0]] + b[1..][..k];
      assert DecidedAt(a, b, less, k + 1);
    }
    assert a == [a[0]] + a[1..] && b == [b[0]] + b[1..];
  }

  lemma SameStart<T(!new)>(a: seq<T>, b: seq<T>, less: (T, T) -> bool, k: nat)
    requires DecidedAt(a, b, less, k)
    ensures k == 0 || a[0] == b[0]
  {
    if k > 0 { assert a[..k][0] == a[0] && b[..k][0] == b[0]; }
  }

  lemma FirstPlace<T(!new)>(a: seq<T>, b: seq<T>, less: (T, T) -> bool)
    requires a != [] && b != [] && a[0] != b[0]
    ensures Lexicographic(a, b, less) <==> less(a[0], b[0])
  {
    if Lexicographic(a, b, less) {
      var k: nat :| DecidedAt(a, b, less, k);
      SameStart(a, b, less, k);
    }
    if less(a[0], b[0]) { assert DecidedAt(a, b, less, 0); }
  }

  function CharLess(): (char, char) -> bool { (x, y) => x < y }

  function TextLess(): (string, string) -> bool { (x, y) => CompareText(x, y) == Less }

  /** Texts are ordered by their first differing character, a beginning before what extends it. */
  lemma {:induction false} TextIsLexicographic(a: string, b: string)
    ensures CompareText(a, b) == Less <==> Lexicographic(a, b, CharLess())
    decreases |a|
  {
    if a != [] && b != [] {
      if a[0] == b[0] {
        LaterPlace(a, b, CharLess());
        TextIsLexicographic(a[1..], b[1..]);
      } else {
        FirstPlace(a, b, CharLess());
      }
    }
  }

  /** Keys are ordered by their first differing component. */
  lemma {:induction false} KeyIsLexicographic(a: Key, b: Key)
    ensures Compare(a, b) == Less <==> Lexicographic(a, b, TextLess())
    decreases |a|
  {
    if a != [] && b != [] {
      TextEqual(a[0], b[0]);
      if a[0] == b[0] {
        LaterPlace(a, b, TextLess());
        KeyIsLexicographic(a[1..], b[1..]);
      } else {
        FirstPlace(a, b, TextLess());
      }
    }
  }

  // ----- tables --------------------------------------------------------------

  /** Strictly increasing keys, all pairs. */
  ghost predicate Strict<T(!new)>(s: seq<T>, key: T -> Key) {
    forall i, j :: 0 <= i < j < |s| ==> Compare(key(s[i]), key(s[j])) == Less
  }

  /** Strictly increasing keys, neighbours only, as the code checks it. */
  predicate NeighboursIncrease<T>(s: seq<T>, key: T -> Key) {
    forall i :: 0 <= i < |s| - 1 ==> Compare(key(s[i]), key(s[i + 1])) == Less
  }

  lemma {:induction false} NeighboursSuffice<T(!new)>(s: seq<T>, key: T -> Key, i: nat, j: nat)
    requires NeighboursIncrease(s, key) && i < j < |s|
    ensures Compare(key(s[i]), key(s[j])) == Less
    decreases j - i
  {
    if i + 1 < j {
      NeighboursSuffice(s, key, i + 1, j);
      KeyTransitive(key(s[i]), key(s[i + 1]), key(s[j]));
    }
  }

  lemma StrictIffNeighbours<T(!new)>(s: seq<T>, key: T -> Key)
    ensures Strict(s, key) <==> NeighboursIncrease(s, key)
  {
    if NeighboursIncrease(s, key) {
      forall i, j | 0 <= i < j < |s| ensures Compare(key(s[i]), key(s[j])) == Less {
        NeighboursSuffice(s, key, i, j);
      }
    }
  }

  /** No two positions hold the same key. */
  ghost predicate Distinct<T(!new)>(s: seq<T>, key: T -> Key) {
    forall i, j :: 0 <= i < j < |s| ==> key(s[i]) != key(s[j])
  }

  lemma StrictIsDistinct<T(!new)>(s: seq<T>, key: T -> Key)
    requires Strict(s, key)
    ensures Distinct(s, key)
  {
    forall i, j | 0 <= i < j < |s| ensures key(s[i]) != key(s[j]) {
      KeyEqual(key(s[i]), key(s[j]));
    }
  }

  ghost predicate Has<T(!new)>(s: seq<T>, key: T -> Key, k: Key) {
    exists x :: x in s && key(x) == k
  }

  /** A map that holds, for each key of the rows, one row with that key. */
  ghost predicate IsTable<T(!new)>(s: seq<T>, key: T -> Key, m: map<Key, T>) {
    && (forall x :: x in s ==> key(x) in m)
    && (forall k :: k in m ==> m[k] in s && key(m[k]) == k)
  }

  lemma {:induction false} TableExists<T(!new)>(s: seq<T>, key: T -> Key)
    ensures exists m :: IsTable(s, key, m)
  {
    if s == [] {
      assert IsTable(s, key, map[]);
    } else {
      var front, x := s[..|s| - 1], s[|s| - 1];
      TableExists(front, key);
      var m :| IsTable(front, key, m);
      assert s == front + [x];
      assert IsTable(s, key, m[key(x) := x]);
    }
  }

  /** The elements of a table by key. */
  ghost function Table<T(!new)>(s: seq<T>, key: T -> Key): (m: map<Key, T>)
    ensures IsTable(s, key, m)
  {
    TableExists(s, key);
    var m :| IsTable(s, key, m);
    m
  }

  lemma SameKeySameRow<T(!new)>(s: seq<T>, key: T -> Key, i: nat, j: nat)
    requires Distinct(s, key) && i < |s| && j < |s| && key(s[i]) == key(s[j])
    ensures i == j
  {
  }

  lemma TableLooksUp<T(!new)>(s: seq<T>, key: T -> Key)
    requires Distinct(s, key)
    ensures forall x :: x in s ==> Table(s, key)[key(x)] == x
    ensures forall k :: k in Table(s, key) <==> Has(s, key, k)
  {
    forall x | x in s ensures Table(s, key)[key(x)] == x {
      var i :| 0 <= i < |s| && s[i] == x;
      var j :| 0 <= j < |s| && s[j] == Table(s, key)[key(x)];
      assert key(x) in Table(s, key);
      SameKeySameRow(s, key, i, j);
    }
  }

  /** A map whose entries are exactly the elements of a table is the table's map. */
  lemma TableIs<T(!new)>(s: seq<T>, key: T -> Key, m: map<Key, T>)
    requires Distinct(s, key)
    requires forall x :: x in s <==> key(x) in m && m[key(x)] == x
    requires forall k :: k in m ==> key(m[k]) == k
    ensures Table(s, key) == m
  {
    TableLooksUp(s, key);
    forall k ensures k in Table(s, key) <==> k in m {
      if k in m { assert m[k] in s; }
    }
  }

  lemma DifferentRows<T(!new)>(s: seq<T>, key: T -> Key, i: nat, j: nat)
    requires Distinct(s, key) && i < |s| && j < |s| && i != j
    ensures key(s[i]) != key(s[j])
  {
  }

  lemma PartsAreDistinct<T(!new)>(s: seq<T>, t: seq<T>, key: T -> Key)
    requires Distinct(s + t, key)
    ensures Distinct(s, key) && Distinct(t, key)
    ensures forall x, y :: x in s && y in t ==> key(x) != key(y)
  {
    var r := s + t;
    forall i, j | 0 <= i < j < |s| ensures key(s[i]) != key(s[j]) {
      DifferentRows(r, key, i, j);
    }
    forall i, j | 0 <= i < j < |t| ensures key(t[i]) != key(t[j]) {
      DifferentRows(r, key, |s| + i, |s| + j);
    }
    forall x, y | x in s && y in t ensures key(x) != key(y) {
      var i :| 0 <= i < |s| && s[i] == x;
      var j :| 0 <= j < |t| && t[j] == y;
      DifferentRows(r, key, i, |s| + j);
    }
  }

  /** Appended rows are merged into the table. */
  lemma TableOfAppend<T(!new)>(s: seq<T>, t: seq<T>, key: T -> Key)
    requires Distinct(s + t, key)
    ensures Table(s + t, key) == Table(s, key) + Table(t, key)
  {
    PartsAreDistinct(s, t, key);
    TableLooksUp(s, key);
    TableLooksUp(t, key);
    TableIs(s + t, key, Table(s, key) + Table(t, key));
  }

  lemma TableOfOneMore<T(!new)>(s: seq<T>, x: T, key: T -> Key)
    requires Distinct(s + [x], key)
    ensures Table(s + [x], key) == Table(s, key)[key(x) := x]
    ensures Distinct(s, key) && key(x) !in Table(s, key)
  {
    PartsAreDistinct(s, [x], key);
    assert x in [x];
    TableLooksUp(s, key);
    TableIs(s + [x], key, Table(s, key)[key(x) := x]);
  }

  lemma {:induction false} TableSize<T(!new)>(s: seq<T>, key: T -> Key)
    requires Distinct(s, key)
    ensures |Table(s, key)| == |s|
  {
    if s == [] {
      assert Table(s, key) == map[];
    } else {
      SplitLast(s);
      TableOfOneMore(s[..|s| - 1], s[|s| - 1], key);
      TableSize(s[..|s| - 1], key);
    }
  }

  lemma SplitLast<T>(t: seq<T>)
    requires t != []
    ensures t[..|t| - 1] + [t[|t| - 1]] == t
  {
  }

  /** Reordering distinct rows does not change the table. */
  lemma TableOfPermutation<T(!new)>(s: seq<T>, t: seq<T>, key: T -> Key)
    requires Distinct(s, key) && Distinct(t, key) && multiset(s) == multiset(t)
    ensures Table(s, key) == Table(t, key)
  {
    SameElements(s, t);
    TableLooksUp(s, key);
    TableLooksUp(t, key);
    TableIs(s, key, Table(t, key));
  }

  // ----- sorting -------------------------------------------------------------

  ghost predicate Ordered<T(!new)>(s: seq<T>, key: T -> Key) {
    forall i, j :: 0 <= i < j < |s| ==> Compare(key(s[i]), key(s[j])) != Greater
  }

  lemma KeyAtMostTransitive(a: Key, b: Key, c: Key)
    requires Compare(a, b) != Greater && Compare(b, c) != Greater
    ensures Compare(a, c) != Greater
  {
    KeyEqual(a, b);
    KeyEqual(b, c);
    if a != b && b != c { KeyTransitive(a, b, c); }
  }

  lemma StrictIsOrderedAndDistinct<T(!new)>(s: seq<T>, key: T -> Key)
    ensures Strict(s, key) <==> Ordered(s, key) && Distinct(s, key)
  {
    if Strict(s, key) { StrictIsDistinct(s, key); }
    if Ordered(s, key) && Distinct(s, key) {
      forall i, j | 0 <= i < j < |s| ensures Compare(key(s[i]), key(s[j])) == Less {
        KeyEqual(key(s[i]), key(s[j]));
      }
    }
  }

  /** An ordered table repeats a key exactly when two neighbours share it. */
  lemma RepeatsAreNeighbours<T(!new)>(s: seq<T>, key: T -> Key)
    requires Ordered(s, key)
    ensures Distinct(s, key) <==> forall i :: 0 <= i < |s| - 1 ==> key(s[i]) != key(s[i + 1])
  {
    if forall i :: 0 <= i < |s| - 1 ==> key(s[i]) != key(s[i + 1]) {
      forall i | 0 <= i < |s| - 1 ensures Compare(key(s[i]), key(s[i + 1])) == Less {
        KeyEqual(key(s[i]), key(s[i + 1]));
      }
      StrictIffNeighbours(s, key);
      StrictIsDistinct(s, key);
    }
  }

  lemma InsertionKeepsOrder<T(!new)>(s: seq<T>, x: T, i: nat, key: T -> Key)
    requires Ordered(s, key) && i <= |s|
    requires forall j :: 0 <= j < i ==> Compare(key(s[j]), key(x)) != Greater
    requires i < |s| ==> Compare(key(s[i]), key(x)) == Greater
    ensures Ordered(s[..i] + [x] + s[i..], key)
    ensures Distinct(s[..i] + [x] + s[i..], key) <==> Distinct(s, key) && !Has(s, key, key(x))
  {
    var r := s[..i] + [x] + s[i..];
    if i < |s| {
      KeyEqual(key(s[i]), key(x));
      forall j | i <= j < |s| ensures Compare(key(x), key(s[j])) != Greater {
        if i < j { KeyAtMostTransitive(key(x), key(s[i]), key(s[j])); }
      }
    }
    assert forall j :: 0 <= j < i ==> r[j] == s[j];
    assert forall j :: i <= j < |s| ==> r[j + 1] == s[j];
    assert forall j :: i < j < |r| ==> r[j] == s[j - 1];
    assert r[i] == x;
    if Distinct(r, key) {
      forall j | 0 <= j < |s| ensures key(s[j]) != key(x) {
        if j < i { assert key(r[j]) != key(r[i]); } else { assert key(r[i]) != key(r[j + 1]); }
      }
      forall j, k | 0 <= j < k < |s| ensures key(s[j]) != key(s[k]) {
        assert key(r[if j < i then j else j + 1]) != key(r[if k < i then k else k + 1]);
      }
    }
  }

  /** The stable insertion of `x` before the first strictly greater key. */
  method InsertSorted<T(!new)>(s: seq<T>, x: T, key: T -> Key) returns (r: seq<T>)
    requires Ordered(s, key)
    ensures Ordered(r, key) && multiset(r) == multiset(s) + multiset{x}
    ensures Distinct(r, key) <==> Distinct(s, key) && !Has(s, key, key(x))
  {
    var i := 0;
    while i < |s| && Compare(key(s[i]), key(x)) != Greater
      invariant 0 <= i <= |s|
      invariant forall j :: 0 <= j < i ==> Compare(key(s[j]), key(x)) != Greater
    {
      i := i + 1;
    }
    InsertionKeepsOrder(s, x, i, key);
    r := s[..i] + [x] + s[i..];
    assert s == s[..i] + s[i..];
  }

  lemma DistinctExtends<T(!new)>(s: seq<T>, x: T, key: T -> Key)
    ensures Distinct(s + [x], key) <==> Distinct(s, key) && !Has(s, key, key(x))
  {
    var r := s + [x];
    if Distinct(r, key) {
      forall j | 0 <= j < |s| ensures key(s[j]) != key(x) {
        assert key(r[j]) != key(r[|s|]);
      }
      forall j, k | 0 <= j < k < |s| ensures key(s[j]) != key(s[k]) {
        assert key(r[j]) != key(r[k]);
      }
    }
  }

  /** `sort_by`: an ordered permutation, strict exactly when no key repeats. */
  method Sort<T(!new)>(s: seq<T>, key: T -> Key) returns (r: seq<T>)
    ensures Ordered(r, key) && multiset(r) == multiset(s)
    ensures Distinct(r, key) <==> Distinct(s, key)
  {
    r := [];
    var i := 0;
    while i < |s|
      invariant 0 <= i <= |s|
      invariant Ordered(r, key) && multiset(r) == multiset(s[..i])
      invariant Distinct(r, key) <==> Distinct(s[..i], key)
    {
      assert s[..i + 1] == s[..i] + [s[i]];
      DistinctExtends(s[..i], s[i], key);
      SameElements(r, s[..i]);
      r := InsertSorted(r, s[i], key);
      i := i + 1;
    }
    assert s[..i] == s;
  }

  lemma SameElements<T>(s: seq<T>, t: seq<T>)
    requires multiset(s) == multiset(t)
    ensures forall x :: x in s <==> x in t
  {
    assert forall x :: x in s <==> x in multiset(s);
  }

  /** `binary_search_by`: the position of the key, or nothing exactly when it is absent. */
  method BinarySearch<T(!new)>(s: seq<T>, key: T -> Key, k: Key) returns (r: Option<nat>)
    requires Strict(s, key)
    ensures r.Some? ==> r.value < |s| && key(s[r.value]) == k
    ensures r.None? <==> !Has(s, key, k)
  {
    var low, high := 0, |s|;
    while low < high
      invariant 0 <= low <= high <= |s|
      invariant forall i :: 0 <= i < low ==> Compare(key(s[i]), k) == Less
      invariant forall i :: high <= i < |s| ==> Compare(key(s[i]), k) == Greater
    {
      var middle := low + (high - low) / 2;
      KeyEqual(key(s[middle]), k);
      match Compare(key(s[middle]), k) {
        case Less =>
          forall i | low <= i < middle ensures Compare(key(s[i]), k) == Less {
            KeyTransitive(key(s[i]), key(s[middle]), k);
          }
          low := middle + 1;
        case Greater =>
          forall i | middle < i < high ensures Compare(key(s[i]), k) == Greater {
            KeyEqual(k, key(s[middle]));
            KeyTransitive(k, key(s[middle]), key(s[i]));
            KeyEqual(k, key(s[i]));
          }
          high := middle;
        case Equal => return Some(middle);
      }
    }
    forall x | x in s ensures key(x) != k {
      KeyEqual(key(x), k);
    }
    return None;
  }

  /** `windows(2)`: whether every row lies strictly below the next. */
  method Increasing<T>(s: seq<T>, key: T -> Key) returns (ok: bool)
    ensures ok <==> NeighboursIncrease(s, key)
  {
    var i := 0;
    while i + 1 < |s|
      invariant 0 <= i <= if s == [] then 0 else |s| - 1
      invariant forall j :: 0 <= j < i ==> Compare(key(s[j]), key(s[j + 1])) == Less
    {
      if Compare(key(s[i]), key(s[i + 1])) != Less { return false; }
      i := i + 1;
    }
    return true;
  }
}
