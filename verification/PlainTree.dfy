/**
 * The bounded plain writer, and the tree renderer's explicit stack against the
 * recursive drawing of the same tree.
 */
module PlainTree {
  import opened Prelude

  import opened PlainText

  const MAX_LINES: nat := 4096
  const MAX_DEPTH: nat := 128
  const OUTPUT_TRUNCATED: string := "[output truncated]"
  const OMITTED: string := "[nested nodes omitted]"

  // ----- lines ---------------------------------------------------------------

  /** The pieces of a text between line feeds; there is always at least one. */
  function Split(text: string): (pieces: seq<string>)
    ensures pieces != []
    decreases |text|
  {
    if text == "" then [""]
    else
      var rest := Split(text[1..]);
      if text[0] == '\n' then [""] + rest else [[text[0]] + rest[0]] + rest[1..]
  }

  function Cut(m: Measure, pieces: seq<string>, width: nat): (lines: seq<string>)
    ensures |lines| == |pieces|
  {
    seq(|pieces|, i requires 0 <= i < |pieces| => Truncated(m, pieces[i], width))
  }

  /** The terminal lines of one logical line. */
  function Physical(m: Measure, width: nat, line: string): (lines: seq<string>)
    ensures lines != []
  {
    Cut(m, Split(Sanitized(Plain, line)), width)
  }

  function PhysicalAll(m: Measure, width: nat, lines: seq<string>): seq<string> {
    if lines == [] then [] else Physical(m, width, lines[0]) + PhysicalAll(m, width, lines[1..])
  }

  lemma {:induction false} PhysicalOfConcat(m: Measure, width: nat, a: seq<string>, b: seq<string>)
    ensures PhysicalAll(m, width, a + b) == PhysicalAll(m, width, a) + PhysicalAll(m, width, b)
    decreases |a|
  {
    if a == [] {
      assert a + b == b;
    } else {
      assert (a + b)[1..] == a[1..] + b;
      PhysicalOfConcat(m, width, a[1..], b);
    }
  }

  predicate Narrow(m: Measure, width: nat, lines: seq<string>) {
    forall i :: 0 <= i < |lines| ==> m.width(lines[i]) <= width
  }

  class PlainWriter {
    const m: Measure
    const width: nat
    var lines: seq<string>
    var truncated: bool

    ghost predicate Valid() reads this {
      m.width("") == 0 && width <= MAX_PLAIN_WIDTH && |lines| <= MAX_LINES && Narrow(m, width, lines)
    }

    constructor (m_: Measure, width_: nat)
      requires m_.width("") == 0
      ensures Valid() && m == m_ && width == Min(width_, MAX_PLAIN_WIDTH) && lines == [] && !truncated
    {
      m, width, lines, truncated := m_, Min(width_, MAX_PLAIN_WIDTH), [], false;
    }

    method PushClean(piece: string)
      requires Valid() && |lines| < MAX_LINES
      modifies this`lines
      ensures Valid() && lines == old(lines) + [Truncated(m, piece, width)]
    {
      TruncatedFits(m, piece, width);
      lines := lines + [Truncated(m, piece, width)];
    }

    /** `push_line`: as many terminal lines as there is room for; anything dropped marks the output truncated. */
    method PushLine(line: string)
      requires Valid()
      modifies this
      ensures Valid()
      ensures var added := Physical(m, width, line);
              && lines == old(lines) + added[..Min(|added|, MAX_LINES - old(|lines|))]
              && (truncated <==> old(truncated) || old(|lines|) + |added| > MAX_LINES)
    {
      ghost var added := Physical(m, width, line);
      var clean := Sanitize(line);
      var pieces := Split(clean);
      var i := 0;
      while i < |pieces| && |lines| < MAX_LINES
        invariant 0 <= i <= |pieces| && Valid() && truncated == old(truncated)
        invariant lines == old(lines) + added[..i]
      {
        PushClean(pieces[i]);
        assert added[..i + 1] == added[..i] + [added[i]];
        i := i + 1;
      }
      if i < |pieces| { truncated := true; }
    }

    /** `finish`: a truncated output ends in the marker; it never has more or wider lines than allowed. */
    method Finish() returns (output: seq<string>)
      requires Valid()
      modifies this`lines
      ensures Valid() && output == lines
      ensures !truncated ==> lines == old(lines)
      ensures truncated && old(lines) != [] ==>
                lines == old(lines)[..old(|lines|) - 1] + [Truncated(m, OUTPUT_TRUNCATED, width)]
      ensures truncated && old(lines) == [] ==>
                lines == if width > 0 then [Truncated(m, OUTPUT_TRUNCATED, width)] else []
    {
      if truncated {
        TruncatedFits(m, OUTPUT_TRUNCATED, width);
        var marker := Truncate(m, OUTPUT_TRUNCATED, width);
        if lines != [] {
          lines := lines[|lines| - 1 := marker];
        } else if width > 0 {
          lines := [marker];
        }
      }
      output := lines;
    }
  }

  // ----- trees ---------------------------------------------------------------

  datatype TreeNode = TreeNode(name: string, children: seq<TreeNode>)

  datatype Pending = Pending(node: TreeNode, prefix: string, isLast: bool, isRoot: bool, depth: nat)

  function Heading(p: Pending): string {
    if p.isRoot then p.node.name else p.prefix + (if p.isLast then "`- " else "|- ") + p.node.name
  }

  function ChildPrefix(p: Pending): string {
    if p.isRoot then "" else p.prefix + if p.isLast then "   " else "|  "
  }

  function Child(p: Pending, children: seq<TreeNode>, i: nat): Pending
    requires i < |children|
  {
    Pending(children[i], ChildPrefix(p), i + 1 == |children|, false, p.depth + 1)
  }

  /** The recursive drawing: a node, then its children in order. */
  function Draw(p: Pending): seq<string>
    decreases p.node, |p.node.children| + 2
  {
    [Heading(p)] +
    if p.depth >= MAX_DEPTH then (if p.node.children == [] then [] else [p.prefix + "  " + OMITTED])
    else DrawFrom(p, 0)
  }

  function DrawFrom(p: Pending, i: nat): seq<string>
    requires i <= |p.node.children|
    decreases p.node, |p.node.children| + 1 - i
  {
    if i == |p.node.children| then []
    else
      assert p.node.children[i] < p.node;
      Draw(Child(p, p.node.children, i)) + DrawFrom(p, i + 1)
  }

  /** What is still to be drawn: the last entry is next. */
  function DrawStack(stack: seq<Pending>): seq<string> {
    if stack == [] then [] else Draw(stack[|stack| - 1]) + DrawStack(stack[..|stack| - 1])
  }

  lemma DrawStackPush(stack: seq<Pending>, p: Pending)
    ensures DrawStack(stack + [p]) == Draw(p) + DrawStack(stack)
  {
    assert (stack + [p])[..|stack|] == stack;
  }

  lemma PhysicalIsLong(m: Measure, width: nat, lines: seq<string>)
    ensures |PhysicalAll(m, width, lines)| >= |lines|
  {
    if lines != [] {
      PhysicalIsLong(m, width, lines[1..]);
    }
  }

  lemma {:induction false} EachEntryDraws(stack: seq<Pending>)
    ensures |DrawStack(stack)| >= |stack|
    decreases |stack|
  {
    if stack != [] {
      EachEntryDraws(stack[..|stack| - 1]);
    }
  }

  lemma {:induction false} EachChildDraws(p: Pending, i: nat)
    requires i <= |p.node.children|
    ensures |DrawFrom(p, i)| >= |p.node.children| - i
    decreases |p.node.children| - i
  {
    if i < |p.node.children| {
      EachChildDraws(p, i + 1);
    }
  }

  /** What has been written and what is still to be drawn make up the whole drawing. */
  ghost predicate Accounts(w: PlainWriter, rest: seq<string>, full: seq<string>)
    reads w
  {
    var whole := PhysicalAll(w.m, w.width, full);
    if w.truncated then |whole| > MAX_LINES else w.lines + PhysicalAll(w.m, w.width, rest) == whole
  }

  /** One logical line of the drawing. */
  method PushHeading(w: PlainWriter, line: string, ghost rest: seq<string>, ghost full: seq<string>)
    requires w.Valid() && Accounts(w, [line] + rest, full)
    modifies w
    ensures w.Valid() && Accounts(w, rest, full)
    ensures |w.lines| >= old(|w.lines|) && (old(|w.lines|) < MAX_LINES ==> |w.lines| > old(|w.lines|))
  {
    ghost var added := Physical(w.m, w.width, line);
    assert ([line] + rest)[1..] == rest;
    assert w.lines + (added + PhysicalAll(w.m, w.width, rest)) == (w.lines + added) + PhysicalAll(w.m, w.width, rest);
    w.PushLine(line);
    assert added[..|added|] == added;
  }

  /** The children of a node, the last one deepest in the stack. */
  method PushChildren(rest: seq<Pending>, p: Pending) returns (stack: seq<Pending>)
    ensures |stack| == |rest| + |p.node.children|
    ensures DrawStack(stack) == DrawFrom(p, 0) + DrawStack(rest)
  {
    stack := rest;
    var k := |p.node.children|;
    while k > 0
      invariant 0 <= k <= |p.node.children| && |stack| == |rest| + |p.node.children| - k
      invariant DrawStack(stack) == DrawFrom(p, k) + DrawStack(rest)
    {
      k := k - 1;
      var c := Child(p, p.node.children, k);
      DrawStackPush(stack, c);
      assert Draw(c) + (DrawFrom(p, k + 1) + DrawStack(rest)) == (Draw(c) + DrawFrom(p, k + 1)) + DrawStack(rest);
      stack := stack + [c];
    }
  }

  /** The children that still have a slot; the rest are dropped. */
  method PushVisible(rest: seq<Pending>, p: Pending, visible: nat) returns (stack: seq<Pending>)
    requires visible <= |p.node.children|
    ensures |stack| == |rest| + visible
  {
    stack := rest;
    var k := visible;
    while k > 0
      invariant 0 <= k <= visible && |stack| == |rest| + visible - k
    {
      k := k - 1;
      stack := stack + [Child(p, p.node.children[..visible], k)];
    }
  }

  /** What a node draws below its heading. */
  function Below(p: Pending): seq<string> {
    if p.depth < MAX_DEPTH then DrawFrom(p, 0)
    else if p.node.children == [] then []
    else [p.prefix + "  " + OMITTED]
  }

  lemma HeadingComesFirst(p: Pending)
    ensures Draw(p) == [Heading(p)] + Below(p)
  {
  }

  lemma HeadingBeforeRest(p: Pending, rest: seq<string>)
    ensures Draw(p) + rest == [Heading(p)] + (Below(p) + rest)
  {
    HeadingComesFirst(p);
  }

  /** One popped node: its heading, and its children where there is room for them. */
  method Visit(w: PlainWriter, p: Pending, rest: seq<Pending>, ghost full: seq<string>) returns (stack: seq<Pending>)
    requires w.Valid() && |w.lines| < MAX_LINES && |rest| < MAX_LINES
    requires Accounts(w, Draw(p) + DrawStack(rest), full)
    modifies w
    ensures w.Valid() && |w.lines| > old(|w.lines|) && |stack| <= MAX_LINES
    ensures Accounts(w, DrawStack(stack), full)
  {
    ghost var after := Below(p) + DrawStack(rest);
    HeadingBeforeRest(p, DrawStack(rest));
    PushHeading(w, Heading(p), after, full);
    if p.depth >= MAX_DEPTH {
      if p.node.children != [] { PushHeading(w, p.prefix + "  " + OMITTED, DrawStack(rest), full); }
      assert [] + DrawStack(rest) == DrawStack(rest);
      return rest;
    }
    var remaining := MAX_LINES - |w.lines|;
    var slots := if remaining < |rest| then 0 else remaining - |rest|;
    if |p.node.children| <= slots {
      stack := PushChildren(rest, p);
    } else {
      TooManyLines(w, p, rest, full);
      w.truncated := true;
      stack := PushVisible(rest, p, slots);
    }
  }

  lemma TooManyLines(w: PlainWriter, p: Pending, rest: seq<Pending>, full: seq<string>)
    requires Accounts(w, DrawFrom(p, 0) + DrawStack(rest), full)
    requires |w.lines| + |rest| + |p.node.children| > MAX_LINES
    ensures |PhysicalAll(w.m, w.width, full)| > MAX_LINES
  {
    EachChildDraws(p, 0);
    EachEntryDraws(rest);
    MoreThanFits(w, DrawFrom(p, 0) + DrawStack(rest), full);
  }

  lemma MoreThanFits(w: PlainWriter, rest: seq<string>, full: seq<string>)
    requires Accounts(w, rest, full) && |w.lines| + |rest| > MAX_LINES
    ensures |PhysicalAll(w.m, w.width, full)| > MAX_LINES
  {
    PhysicalIsLong(w.m, w.width, rest);
  }

  /**
   * `render_tree`: the recursive drawing, exactly, unless it does not fit; never
   * more pending nodes than lines allowed.
   */
  method RenderTree(m: Measure, width: nat, root: TreeNode) returns (w: PlainWriter, ghost most: nat)
    requires m.width("") == 0
    ensures w.Valid() && most <= MAX_LINES && w.m == m && w.width == Min(width, MAX_PLAIN_WIDTH)
    ensures var whole := PhysicalAll(m, w.width, Draw(Pending(root, "", true, true, 0)));
            && (w.truncated <==> |whole| > MAX_LINES)
            && (!w.truncated ==> w.lines == whole)
  {
    w := new PlainWriter(m, width);
    var top := Pending(root, "", true, true, 0);
    ghost var full := Draw(top);
    var stack := [top];
    DrawStackPush([], top);
    assert [] + [top] == [top] && DrawStack(stack) == full;
    most := 1;
    while stack != [] && |w.lines| < MAX_LINES
      invariant fresh(w) && w.Valid() && w.m == m && w.width == Min(width, MAX_PLAIN_WIDTH)
      invariant |stack| <= MAX_LINES && most <= MAX_LINES && |stack| <= most
      invariant Accounts(w, DrawStack(stack), full)
      decreases MAX_LINES - |w.lines|
    {
      stack := Visit(w, stack[|stack| - 1], stack[..|stack| - 1], full);
      most := if |stack| > most then |stack| else most;
    }
    if stack != [] {
      EachEntryDraws(stack);
      MoreThanFits(w, DrawStack(stack), full);
      w.truncated := true;
    }
  }
}
