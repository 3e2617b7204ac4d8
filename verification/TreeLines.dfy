/**
 * The lines of a drawn tree, one by one: which line each node has, and what it
 * says of the node's place; and the lines of a text.
 */
module TreeLines {
  import opened PlainTree

  /** The way down from a node: which child at each level. */
  predicate IsWay(node: TreeNode, way: seq<nat>)
    decreases |way|
  {
    way == [] || (way[0] < |node.children| && IsWay(node.children[way[0]], way[1..]))
  }

  function NodeAt(node: TreeNode, way: seq<nat>): TreeNode
    requires IsWay(node, way)
    decreases |way|
  {
    if way == [] then node else NodeAt(node.children[way[0]], way[1..])
  }

  predicate IsLastChild(node: TreeNode, i: nat) { i + 1 == |node.children| }

  /**
   * The line of the node at the end of the way, as seen from `node` above it: a rail past every level that goes
   * on below, a branch to the node itself, and its name.
   */
  function LineBelow(node: TreeNode, way: seq<nat>): string
    requires way != [] && IsWay(node, way)
    decreases |way|
  {
    var child := node.children[way[0]];
    if |way| == 1 then (if IsLastChild(node, way[0]) then "`- " else "|- ") + child.name
    else (if IsLastChild(node, way[0]) then "   " else "|  ") + LineBelow(child, way[1..])
  }

  /** The line that stands for everything below the node at the end of the way: past the same rails. */
  function OmissionBelow(node: TreeNode, way: seq<nat>): string
    requires way != [] && IsWay(node, way)
    decreases |way|
  {
    if |way| == 1 then "  [nested nodes omitted]"
    else (if IsLastChild(node, way[0]) then "   " else "|  ") + OmissionBelow(node.children[way[0]], way[1..])
  }

  /** How many lines a node at this depth and all below it take: at depth 128 one line stands for what is below. */
  function Size(node: TreeNode, depth: nat): (n: nat)
    ensures n > 0
    decreases node, |node.children| + 2
  {
    if depth >= 128 then (if node.children == [] then 1 else 2) else 1 + SizeTo(node, depth, |node.children|)
  }

  /** The lines of the first `k` children. */
  function SizeTo(node: TreeNode, depth: nat, k: nat): nat
    requires k <= |node.children|
    decreases node, k
  {
    if k == 0 then 0
    else
      assert node.children[k - 1] < node;
      SizeTo(node, depth, k - 1) + Size(node.children[k - 1], depth + 1)
  }

  /** Where the line of a node is: below its parent's and after all lines of its earlier siblings. */
  function Position(node: TreeNode, depth: nat, way: seq<nat>): nat
    requires IsWay(node, way)
    decreases |way|
  {
    if way == [] then 0
    else 1 + SizeTo(node, depth, way[0]) + Position(node.children[way[0]], depth + 1, way[1..])
  }

  lemma {:induction false} DrawnSize(p: Pending)
    ensures |Draw(p)| == Size(p.node, p.depth)
    decreases p.node, |p.node.children| + 2
  {
    if p.depth < 128 { DrawnRest(p, 0); }
  }

  lemma OneMoreChild(p: Pending, i: nat)
    requires i < |p.node.children|
    ensures DrawFrom(p, i) == Draw(Child(p, p.node.children, i)) + DrawFrom(p, i + 1)
    ensures SizeTo(p.node, p.depth, i + 1) ==
            SizeTo(p.node, p.depth, i) + Size(Child(p, p.node.children, i).node, Child(p, p.node.children, i).depth)
  {
  }

  /** The children from `i` on take what all take less what the first `i` take. */
  lemma {:induction false} DrawnRest(p: Pending, i: nat)
    requires i <= |p.node.children|
    ensures |DrawFrom(p, i)| + SizeTo(p.node, p.depth, i) == SizeTo(p.node, p.depth, |p.node.children|)
    decreases p.node, |p.node.children| + 1 - i
  {
    if i < |p.node.children| {
      assert p.node.children[i] < p.node;
      DrawnSize(Child(p, p.node.children, i));
      DrawnRest(p, i + 1);
      OneMoreChild(p, i);
    }
  }

  /** The lines of `inner` stand in `outer`, one below the other, from line `j` on. */
  predicate Stands(inner: seq<string>, outer: seq<string>, j: nat) {
    j + |inner| <= |outer| && outer[j..j + |inner|] == inner
  }

  lemma StandsDeeper(a: seq<string>, b: seq<string>, c: seq<string>, i: nat, j: nat)
    requires Stands(a, b, i) && Stands(b, c, j)
    ensures Stands(a, c, j + i)
  {
    forall k | 0 <= k < |a| ensures a[k] == c[j + i + k] {
      assert b[i..i + |a|][k] == b[i + k] == c[j..j + |b|][i + k];
    }
  }

  lemma StandsAfter(a: seq<string>, b: seq<string>)
    ensures Stands(a, a + b, 0) && Stands(b, a + b, |a|)
  {
  }

  /** Among the children's lines, those of child `k` begin after those of the children before it. */
  lemma {:induction false} ChildLines(p: Pending, i: nat, k: nat)
    requires i <= k < |p.node.children|
    ensures SizeTo(p.node, p.depth, k) >= SizeTo(p.node, p.depth, i)
    ensures Stands(Draw(Child(p, p.node.children, k)), DrawFrom(p, i),
                   SizeTo(p.node, p.depth, k) - SizeTo(p.node, p.depth, i))
    decreases k - i
  {
    OneMoreChild(p, i);
    StandsAfter(Draw(Child(p, p.node.children, i)), DrawFrom(p, i + 1));
    if i < k {
      ChildLines(p, i + 1, k);
      DrawnSize(Child(p, p.node.children, i));
      StandsDeeper(Draw(Child(p, p.node.children, k)), DrawFrom(p, i + 1), DrawFrom(p, i),
                   SizeTo(p.node, p.depth, k) - SizeTo(p.node, p.depth, i + 1), |Draw(Child(p, p.node.children, i))|);
    }
  }

  lemma BelowTheHeading(p: Pending, k: nat)
    requires p.depth < 128 && k < |p.node.children|
    ensures Stands(Draw(Child(p, p.node.children, k)), Draw(p), 1 + SizeTo(p.node, p.depth, k))
  {
    ChildLines(p, 0, k);
    HeadingComesFirst(p);
    StandsAfter([Heading(p)], DrawFrom(p, 0));
    StandsDeeper(Draw(Child(p, p.node.children, k)), DrawFrom(p, 0), Draw(p), SizeTo(p.node, p.depth, k), 1);
  }

  /** How the node at the end of the way is drawn when the one above it is drawn as `p`. */
  function Reached(p: Pending, way: seq<nat>): (q: Pending)
    requires IsWay(p.node, way)
    ensures q.node == NodeAt(p.node, way) && q.depth == p.depth + |way|
    decreases |way|
  {
    if way == [] then p else Reached(Child(p, p.node.children, way[0]), way[1..])
  }

  lemma AndAboveIt(p: Pending, k: nat, lines: seq<string>, j: nat)
    requires p.depth < 128 && k < |p.node.children| && Stands(lines, Draw(Child(p, p.node.children, k)), j)
    ensures Stands(lines, Draw(p), 1 + SizeTo(p.node, p.depth, k) + j)
  {
    BelowTheHeading(p, k);
    StandsDeeper(lines, Draw(Child(p, p.node.children, k)), Draw(p), j, 1 + SizeTo(p.node, p.depth, k));
  }

  /** The whole drawing of a node is part of the drawing of every node above it, from the node's position on. */
  lemma {:induction false} DrawnAt(p: Pending, way: seq<nat>, lines: seq<string>)
    requires IsWay(p.node, way) && p.depth + |way| <= 128 && lines == Draw(Reached(p, way))
    ensures Stands(lines, Draw(p), Position(p.node, p.depth, way))
    decreases |way|
  {
    if way == [] {
      StandsAfter([], lines);
      assert [] + lines == lines;
    } else {
      var c := Child(p, p.node.children, way[0]);
      DrawnAt(c, way[1..], lines);
      AndAboveIt(p, way[0], lines, Position(c.node, c.depth, way[1..]));
    }
  }

  /** What the rails of a node that is drawn as `p` begin with. */
  function RailsOf(p: Pending): string {
    if p.isRoot then "" else p.prefix + if p.isLast then "   " else "|  "
  }

  lemma Regroup(a: string, b: string, c: string)
    ensures a + (b + c) == (a + b) + c
  {
  }

  lemma {:induction false} ReachedLine(p: Pending, way: seq<nat>)
    requires way != [] && IsWay(p.node, way)
    ensures Heading(Reached(p, way)) == RailsOf(p) + LineBelow(p.node, way)
    decreases |way|
  {
    var c := Child(p, p.node.children, way[0]);
    if |way| > 1 {
      ReachedLine(c, way[1..]);
      Regroup(RailsOf(p), if c.isLast then "   " else "|  ", LineBelow(c.node, way[1..]));
    } else {
      Regroup(RailsOf(p), if c.isLast then "`- " else "|- ", c.node.name);
    }
  }

  lemma {:induction false} ReachedOmission(p: Pending, way: seq<nat>)
    requires way != [] && IsWay(p.node, way)
    ensures Reached(p, way).prefix + "  [nested nodes omitted]" == RailsOf(p) + OmissionBelow(p.node, way)
    decreases |way|
  {
    if |way| > 1 {
      var c := Child(p, p.node.children, way[0]);
      ReachedOmission(c, way[1..]);
      Regroup(RailsOf(p), if c.isLast then "   " else "|  ", OmissionBelow(c.node, way[1..]));
    }
  }

  lemma OmittedHere(p: Pending)
    requires p.depth == 128 && p.node.children != []
    ensures |Draw(p)| == 2 && Draw(p)[1] == p.prefix + "  [nested nodes omitted]"
  {
    Regroup(p.prefix, "  ", OMITTED);
    assert "  " + OMITTED == "  [nested nodes omitted]";
  }

  lemma HeadingStands(p: Pending, lines: seq<string>, j: nat)
    requires Stands(Draw(p), lines, j)
    ensures j < |lines| && lines[j] == Heading(p)
  {
    HeadingComesFirst(p);
    assert lines[j..j + |Draw(p)|][0] == lines[j];
  }

  lemma NothingBefore(s: string)
    ensures "" + s == s
  {
  }

  /**
   * The drawing of a tree has one line for each node down to depth 128, in preorder: the root's is its name, and
   * every other tells by rails and a branch whether the node and each node above it is the last of its siblings.
   */
  lemma EveryNodeHasItsLine(root: TreeNode, way: seq<nat>)
    requires IsWay(root, way) && |way| <= 128
    ensures var drawn := Draw(Pending(root, "", true, true, 0));
      && |drawn| == Size(root, 0) && Position(root, 0, way) < |drawn|
      && drawn[Position(root, 0, way)] == if way == [] then root.name else LineBelow(root, way)
  {
    var top := Pending(root, "", true, true, 0);
    DrawnSize(top);
    DrawnAt(top, way, Draw(Reached(top, way)));
    HeadingStands(Reached(top, way), Draw(top), Position(root, 0, way));
    if way != [] {
      ReachedLine(top, way);
      NothingBefore(LineBelow(root, way));
    }
  }

  /** A node at depth 128 that has children is followed by one line that stands for all below it. */
  lemma DeepNodesAreOmitted(root: TreeNode, way: seq<nat>)
    requires IsWay(root, way) && |way| == 128 && NodeAt(root, way).children != []
    ensures var drawn := Draw(Pending(root, "", true, true, 0));
      && Position(root, 0, way) + 1 < |drawn|
      && drawn[Position(root, 0, way) + 1] == OmissionBelow(root, way)
  {
    var top := Pending(root, "", true, true, 0);
    OmittedHere(Reached(top, way));
    DrawnAt(top, way, Draw(Reached(top, way)));
    ReachedOmission(top, way);
    NothingBefore(OmissionBelow(root, way));
  }

  // ----- the lines of a text -------------------------------------------------

  function Joined(pieces: seq<string>): string
    requires pieces != []
  {
    if |pieces| == 1 then pieces[0] else pieces[0] + "\n" + Joined(pieces[1..])
  }

  lemma JoinFirst(c: char, pieces: seq<string>)
    requires pieces != []
    ensures Joined([[c] + pieces[0]] + pieces[1..]) == [c] + Joined(pieces)
  {
    var longer := [[c] + pieces[0]] + pieces[1..];
    assert longer[0] == [c] + pieces[0] && longer[1..] == pieces[1..];
    if |pieces| > 1 {
      assert ([c] + pieces[0]) + "\n" + Joined(pieces[1..]) == [c] + (pieces[0] + "\n" + Joined(pieces[1..]));
    }
  }

  /**
   * The pieces of a text, joined by line feeds, are the text, and no piece holds one: so there is one way to cut
   * it.
   */
  lemma {:induction false} SplitIsExact(text: string)
    ensures Joined(Split(text)) == text
    ensures forall i :: 0 <= i < |Split(text)| ==> '\n' !in Split(text)[i]
    decreases |text|
  {
    if text != "" {
      var rest := Split(text[1..]);
      SplitIsExact(text[1..]);
      assert text == [text[0]] + text[1..];
      if text[0] == '\n' {
        assert ([""] + rest)[1..] == rest;
        assert "" + "\n" + Joined(rest) == text;
      } else {
        JoinFirst(text[0], rest);
      }
    }
  }
}
