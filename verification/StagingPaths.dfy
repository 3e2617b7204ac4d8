/**
 * Slash-separated payload paths: their components, their text, their order, and
 * why probing one ordered entry is enough to find a descendant.
 */
module StagingPaths {
  import opened KeyOrder

  type Path = seq<string>

  predicate IsComponent(c: string) { c != "" && '/' !in c }

  predicate IsPath(p: Path) { p != [] && forall c :: c in p ==> IsComponent(c) }

  /** The text of a path. */
  function Join(p: Path): string
    requires p != []
  {
    if |p| == 1 then p[0] else p[0] + "/" + Join(p[1..])
  }

  /** Text before the first slash. */
  function Head(s: string): string {
    if s == "" || s[0] == '/' then "" else [s[0]] + Head(s[1..])
  }

  lemma {:induction false} HeadOfComponent(c: string, rest: string)
    requires '/' !in c
    ensures Head(c + "/" + rest) == c && Head(c) == c
  {
    if c != "" {
      assert (c + "/" + rest)[1..] == c[1..] + "/" + rest;
      HeadOfComponent(c[1..], rest);
    }
  }

  lemma HeadOfJoin(p: Path)
    requires IsPath(p)
    ensures Head(Join(p)) == p[0] && '/' !in p[0]
    ensures |Join(p)| == |p[0]| <==> |p| == 1
  {
    assert p[0] in p;
    if |p| == 1 { HeadOfComponent(p[0], ""); } else { HeadOfComponent(p[0], Join(p[1..])); }
  }

  /** A path is determined by its text. */
  lemma {:induction false} JoinIsInjective(p: Path, q: Path)
    requires IsPath(p) && IsPath(q) && Join(p) == Join(q)
    ensures p == q
    decreases |p|
  {
    HeadOfJoin(p);
    HeadOfJoin(q);
    if |p| > 1 {
      assert Join(p)[|p[0]| + 1..] == Join(p[1..]);
      assert Join(q)[|q[0]| + 1..] == Join(q[1..]);
      JoinIsInjective(p[1..], q[1..]);
      assert p == [p[0]] + p[1..] && q == [q[0]] + q[1..];
    }
  }

  lemma {:induction false} JoinOfConcat(p: Path, q: Path)
    requires p != [] && q != []
    ensures Join(p + q) == Join(p) + "/" + Join(q)
    decreases |p|
  {
    assert (p + q)[1..] == p[1..] + q;
    if |p| == 1 {
      assert p[1..] + q == q;
    } else {
      JoinOfConcat(p[1..], q);
      assert p[0] + "/" + (Join(p[1..]) + "/" + Join(q)) == (p[0] + "/" + Join(p[1..])) + "/" + Join(q);
    }
  }

  predicate StartsWith(s: string, prefix: string) { prefix <= s }

  lemma {:induction false} PrefixIsBelow(p: Path, q: Path)
    requires IsPath(p) && IsPath(q) && StartsWith(Join(q), Join(p) + "/")
    ensures p < q
    decreases |p|
  {
    var a, b := Join(p), Join(q);
    var rest := b[|a| + 1..];
    assert b == a + "/" + rest;
    HeadOfJoin(q);
    HeadOfJoin(p);
    if |p| == 1 {
      HeadOfComponent(p[0], rest);
      assert q[0] == p[0] && |b| > |q[0]|;
    } else {
      assert b == p[0] + "/" + (Join(p[1..]) + "/" + rest) by {
        assert a == p[0] + "/" + Join(p[1..]);
      }
      HeadOfComponent(p[0], Join(p[1..]) + "/" + rest);
      assert q[0] == p[0] && |b| > |q[0]|;
      assert |q| > 1;
      assert Join(q[1..]) == b[|q[0]| + 1..] == Join(p[1..]) + "/" + rest;
      PrefixIsBelow(p[1..], q[1..]);
      assert p == [p[0]] + p[1..] && q == [q[0]] + q[1..];
    }
  }

  /** Text that begins with a path and a slash is exactly the text of the paths below it. */
  lemma StartsWithIffBelow(p: Path, q: Path)
    requires IsPath(p) && IsPath(q)
    ensures StartsWith(Join(q), Join(p) + "/") <==> p < q
  {
    if StartsWith(Join(q), Join(p) + "/") {
      PrefixIsBelow(p, q);
    }
    if p < q {
      var rest := q[|p|..];
      assert q == p + rest;
      JoinOfConcat(p, rest);
    }
  }

  // ----- the ordered probe ---------------------------------------------------

  predicate AtOrAfter(s: string, bound: string) { CompareText(s, bound) != Less }

  /** Between a prefix and a text that starts with it there are only texts that start with it. */
  lemma {:induction false} PrefixInterval(prefix: string, x: string, d: string)
    requires AtOrAfter(x, prefix) && AtOrAfter(d, x) && StartsWith(d, prefix)
    ensures StartsWith(x, prefix)
    decreases |prefix|
  {
    if prefix != "" {
      assert d[0] == prefix[0];
      assert x != "" && x[0] == prefix[0];
      PrefixInterval(prefix[1..], x[1..], d[1..]);
      assert prefix == [prefix[0]] + prefix[1..] && x == [x[0]] + x[1..];
    }
  }

  lemma {:induction false} ExtensionsComeAfter(prefix: string, d: string)
    requires StartsWith(d, prefix)
    ensures AtOrAfter(d, prefix)
    decreases |prefix|
  {
    if prefix != "" { ExtensionsComeAfter(prefix[1..], d[1..]); }
  }

  /** The first entry of an ordered set from a bound on. */
  ghost predicate IsFirstFrom(keys: set<string>, bound: string, first: string) {
    first in keys && AtOrAfter(first, bound) && forall k :: k in keys && AtOrAfter(k, bound) ==> AtOrAfter(k, first)
  }

  /** The probe: a descendant exists exactly when the first entry from the prefix on is one. */
  lemma ProbeFindsDescendant(keys: set<string>, prefix: string, first: string)
    requires IsFirstFrom(keys, prefix, first)
    ensures StartsWith(first, prefix) <==> exists k :: k in keys && StartsWith(k, prefix)
  {
    if k :| k in keys && StartsWith(k, prefix) {
      ExtensionsComeAfter(prefix, k);
      PrefixInterval(prefix, first, k);
    }
  }

  lemma NothingFromMeansNoDescendant(keys: set<string>, prefix: string)
    requires forall k :: k in keys ==> !AtOrAfter(k, prefix)
    ensures forall k :: k in keys ==> !StartsWith(k, prefix)
  {
    forall k | k in keys ensures !StartsWith(k, prefix) {
      if StartsWith(k, prefix) { ExtensionsComeAfter(prefix, k); }
    }
  }

  lemma {:induction false} TextAtMostTransitive(a: string, b: string, c: string)
    requires AtOrAfter(b, a) && AtOrAfter(c, b)
    ensures AtOrAfter(c, a)
    decreases |a|
  {
    if a != "" && b[0] == a[0] && c[0] == b[0] {
      TextAtMostTransitive(a[1..], b[1..], c[1..]);
    }
  }

  lemma {:induction false} TextTotal(a: string, b: string)
    ensures AtOrAfter(a, b) || AtOrAfter(b, a)
    decreases |a|
  {
    if a != "" && b != "" { TextTotal(a[1..], b[1..]); }
  }

  /** `range(bound..).next()`. */
  method FirstFrom(keys: set<string>, bound: string) returns (found: bool, first: string)
    ensures found ==> IsFirstFrom(keys, bound, first)
    ensures !found ==> forall k :: k in keys ==> !AtOrAfter(k, bound)
  {
    found, first := false, "";
    var rest := keys;
    while rest != {}
      invariant rest <= keys
      invariant found ==> IsFirstFrom(keys - rest, bound, first)
      invariant !found ==> forall k :: k in keys - rest ==> !AtOrAfter(k, bound)
      decreases |rest|
    {
      var k :| k in rest;
      rest := rest - {k};
      if AtOrAfter(k, bound) {
        TextTotal(k, k);
        if !found {
          found, first := true, k;
        } else if !AtOrAfter(k, first) {
          KeepLeast(keys - rest - {k}, bound, first, k);
          first := k;
        }
      }
    }
    assert keys - rest == keys;
  }

  lemma KeepLeast(seen: set<string>, bound: string, first: string, k: string)
    requires IsFirstFrom(seen, bound, first) && !AtOrAfter(k, first)
    ensures forall x :: x in seen && AtOrAfter(x, bound) ==> AtOrAfter(x, k)
  {
    TextTotal(k, first);
    forall x | x in seen && AtOrAfter(x, bound) ensures AtOrAfter(x, k) {
      TextAtMostTransitive(k, first, x);
    }
  }
}
