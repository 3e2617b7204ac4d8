/**
 * The transcript window: an early-exit walk from the newest block, against the
 * whole transcript flattened and sliced; and the bounded, scrollable store of
 * blocks, for any way of rendering a block into lines.
 */
module Transcript {
  import opened Prelude

  const USIZE_MAX: nat := 0xFFFF_FFFF_FFFF_FFFF
  const MAX_PLAIN_WIDTH: nat := 4096

  datatype Line<B, T> = Line(text: T, block: B)

  /** How blocks become lines of text; `blank` is the empty text. */
  datatype Renderer<!B, !T> = Renderer(lines: (B, nat) -> seq<T>, blank: T)

  datatype View<B, T> = View(lines: seq<Line<B, T>>, examined: nat, offset: nat)

  function Less(a: nat, b: nat): nat { if a < b then 0 else a - b }

  function Plus(a: nat, b: nat): nat { Min(a + b, USIZE_MAX) }

  /** The lines of one block, at least one. */
  function Texts<B, T>(r: Renderer<B, T>, b: B, width: nat): (texts: seq<T>)
    ensures texts != []
  {
    var lines := r.lines(b, Min(width, MAX_PLAIN_WIDTH));
    if lines == [] then [r.blank] else lines
  }

  function BlockLines<B, T>(r: Renderer<B, T>, b: B, width: nat): (lines: seq<Line<B, T>>)
    ensures |lines| == |Texts(r, b, width)|
  {
    var texts := Texts(r, b, width);
    seq(|texts|, i requires 0 <= i < |texts| => Line(texts[i], b))
  }

  /** The whole transcript in display order; a blank line styled like the newer block separates two blocks. */
  function Flatten<B, T>(r: Renderer<B, T>, blocks: seq<B>, width: nat): seq<Line<B, T>> {
    if blocks == [] then []
    else
      var newest := blocks[|blocks| - 1];
      if |blocks| == 1 then BlockLines(r, newest, width)
      else Flatten(r, blocks[..|blocks| - 1], width) + [Line(r.blank, newest)] + BlockLines(r, newest, width)
  }

  function Reverse<A>(s: seq<A>): (t: seq<A>)
    ensures |t| == |s| && forall i :: 0 <= i < |s| ==> t[i] == s[|s| - 1 - i]
  {
    seq(|s|, i requires 0 <= i < |s| => s[|s| - 1 - i])
  }

  /** The simple form: the offset that still shows a full window, and the window there. */
  function ClampedOffset(total: nat, height: nat, offset: nat): nat {
    Min(offset, Less(total, height))
  }

  function Window<A>(all: seq<A>, height: nat, offset: nat): seq<A>
    requires offset <= |all|
  {
    var end := |all| - offset;
    all[Less(end, height)..end]
  }

  /**
   * The transcript may be cut between any two blocks: what lies above, one blank line styled like the newer block,
   * and what lies below.
   */
  lemma {:induction false} FlattenSplits<B, T>(r: Renderer<B, T>, blocks: seq<B>, width: nat, k: nat)
    requires 0 < k < |blocks|
    ensures Flatten(r, blocks, width) ==
            Flatten(r, blocks[..k], width) + [Line(r.blank, blocks[k])] + Flatten(r, blocks[k..], width)
    decreases |blocks|
  {
    var front, newest := blocks[..|blocks| - 1], blocks[|blocks| - 1];
    if k < |front| {
      FlattenSplits(r, front, width, k);
      assert front[..k] == blocks[..k] && front[k] == blocks[k] && front[k..] == blocks[k..][..|blocks[k..]| - 1];
      assert blocks[k..][|blocks[k..]| - 1] == newest;
      Gather(Flatten(r, blocks[..k], width), [Line(r.blank, blocks[k])], Flatten(r, front[k..], width),
             [Line(r.blank, newest)], BlockLines(r, newest, width));
    } else {
      assert blocks[k..] == [newest];
    }
  }

  lemma Gather<A>(a: seq<A>, b: seq<A>, c: seq<A>, d: seq<A>, e: seq<A>)
    ensures (a + b + c) + d + e == a + b + (c + d + e)
  {
  }

  /** Every block shows the lines that the renderer gives it, or one blank line when it gives none. */
  lemma BlocksShowTheirLines<B, T>(r: Renderer<B, T>, b: B, width: nat)
    ensures var texts, lines := r.lines(b, Min(width, 4096)), Flatten(r, [b], width);
      && |lines| == (if texts == [] then 1 else |texts|)
      && forall i :: 0 <= i < |lines| ==>
           lines[i].block == b && lines[i].text == if texts == [] then r.blank else texts[i]
  {
  }

  /** The window is as high as the transcript allows, and its last line is `offset` lines from the newest. */
  lemma WindowEndsAt<A>(all: seq<A>, height: nat, offset: nat, i: nat)
    requires offset <= Less(|all|, height)
    ensures |Window(all, height, offset)| == Min(height, |all|)
    ensures i < Min(height, |all|) ==> Window(all, height, offset)[|Window(all, height, offset)| - 1 - i]
                                       == all[|all| - 1 - offset - i]
  {
  }

  // ----- the walk ------------------------------------------------------------

  /** The same lines from the newest end. */
  function NewestFirst<B, T>(r: Renderer<B, T>, blocks: seq<B>, width: nat): seq<Line<B, T>> {
    if blocks == [] then []
    else
      var newest := blocks[|blocks| - 1];
      Reverse(BlockLines(r, newest, width)) +
      if |blocks| == 1 then [] else [Line(r.blank, newest)] + NewestFirst(r, blocks[..|blocks| - 1], width)
  }

  lemma ReverseOfConcat<A>(a: seq<A>, b: seq<A>)
    ensures Reverse(a + b) == Reverse(b) + Reverse(a)
  {
  }

  lemma {:induction false} NewestFirstIsReverse<B, T>(r: Renderer<B, T>, blocks: seq<B>, width: nat)
    ensures NewestFirst(r, blocks, width) == Reverse(Flatten(r, blocks, width))
    decreases |blocks|
  {
    if |blocks| > 1 {
      var front, newest := blocks[..|blocks| - 1], blocks[|blocks| - 1];
      NewestFirstIsReverse(r, front, width);
      var older, own := Flatten(r, front, width) + [Line(r.blank, newest)], BlockLines(r, newest, width);
      ReverseOfConcat(older, own);
      ReverseOfConcat(Flatten(r, front, width), [Line(r.blank, newest)]);
    }
  }

  /** Skipping, taking and reversing the newest lines is slicing the whole transcript. */
  lemma WindowFromNewest<A>(all: seq<A>, walked: seq<A>, height: nat, offset: nat)
    requires walked <= Reverse(all) && offset <= |walked|
    requires |walked| == |all| || offset + height <= |walked|
    ensures Reverse(walked[offset..Min(offset + height, |walked|)]) == Window(all, height, offset)
  {
    var part := walked[offset..Min(offset + height, |walked|)];
    assert forall i :: 0 <= i < |walked| ==> walked[i] == Reverse(all)[i] == all[|all| - 1 - i];
    assert |Window(all, height, offset)| == |part|;
    forall i | 0 <= i < |part| ensures Reverse(part)[i] == Window(all, height, offset)[i] {
    }
  }

  /** One block of the walk: its lines from the last one, then the separator, never beyond `want`. */
  method VisitBlock<B, T>(r: Renderer<B, T>, rest: seq<B>, width: nat, want: nat, walked: seq<Line<B, T>>)
    returns (walked': seq<Line<B, T>>)
    requires rest != [] && |walked| < want
    ensures |walked'| <= want && walked' <= walked + NewestFirst(r, rest, width)
    ensures |walked'| < want ==>
              walked' + NewestFirst(r, rest[..|rest| - 1], width) == walked + NewestFirst(r, rest, width)
  {
    var block := rest[|rest| - 1];
    ghost var own := Reverse(BlockLines(r, block, width));
    ghost var older := NewestFirst(r, rest[..|rest| - 1], width);
    var texts := Texts(r, block, width);
    walked' := walked;
    var i := 0;
    while i < |texts| && |walked'| < want
      invariant 0 <= i <= |texts| && |walked'| <= want
      invariant walked' == walked + own[..i]
    {
      walked' := walked' + [Line(texts[|texts| - 1 - i], block)];
      i := i + 1;
    }
    assert own[..|own|] == own;
    if |rest| > 1 && |walked'| < want {
      walked' := walked' + [Line(r.blank, block)];
      assert walked' + older == walked + (own + ([Line(r.blank, block)] + older));
    } else if |rest| == 1 {
      assert walked + own + older == walked + own;
    }
    assert own[..i] <= own;
  }

  /**
   * `materialize`: exactly the window of the flattened transcript, having visited no block once enough was
   * collected.
   */
  method Materialize<B, T>(r: Renderer<B, T>, blocks: seq<B>, width: nat, height: nat, offset: nat)
    returns (view: View<B, T>)
    requires |Flatten(r, blocks, width)| <= USIZE_MAX
    ensures width == 0 || height == 0 ==> view == View([], 0, 0)
    ensures width > 0 && height > 0 ==>
              var all := Flatten(r, blocks, width);
              && view.offset == ClampedOffset(|all|, height, offset)
              && view.lines == Window(all, height, view.offset)
    ensures view.examined <= |blocks|
    ensures view.examined > 0 ==>
              |NewestFirst(r, blocks, width)| - |NewestFirst(r, blocks[..|blocks| - (view.examined - 1)], width)|
              < Plus(offset, height)
  {
    if width == 0 || height == 0 { return View([], 0, 0); }
    var walked, examined := Walk(r, blocks, width, Plus(offset, height));
    NewestFirstIsReverse(r, blocks, width);
    var applied := Min(offset, Less(|walked|, height));
    var end := Min(applied + height, |walked|);
    WindowFromNewest(Flatten(r, blocks, width), walked, height, applied);
    view := View(Reverse(walked[applied..end]), examined, applied);
  }

  /** The blocks from the newest one, until `want` lines are collected. */
  method Walk<B, T>(r: Renderer<B, T>, blocks: seq<B>, width: nat, want: nat)
    returns (walked: seq<Line<B, T>>, examined: nat)
    ensures walked <= NewestFirst(r, blocks, width) && |walked| == Min(want, |NewestFirst(r, blocks, width)|)
    ensures examined <= |blocks|
    ensures examined > 0 ==>
              |NewestFirst(r, blocks, width)| - |NewestFirst(r, blocks[..|blocks| - (examined - 1)], width)| < want
  {
    ghost var all := NewestFirst(r, blocks, width);
    var rest := blocks;
    walked, examined := [], 0;
    while rest != [] && |walked| < want
      invariant examined <= |blocks| && rest == blocks[..|blocks| - examined]
      invariant |walked| <= want && walked <= all
      invariant |walked| < want ==> walked + NewestFirst(r, rest, width) == all
      invariant examined > 0 ==>
                  |all| - |NewestFirst(r, blocks[..|blocks| - (examined - 1)], width)| < want
      decreases |rest|
    {
      assert |all| - |NewestFirst(r, rest, width)| == |walked|;
      walked := VisitBlock(r, rest, width, want, walked);
      rest := rest[..|rest| - 1];
      examined := examined + 1;
    }
  }

  // ----- the store -----------------------------------------------------------

  /** The newest `capacity` blocks. */
  function Newest<B>(blocks: seq<B>, capacity: nat): (kept: seq<B>)
    ensures |kept| == Min(|blocks|, capacity)
    ensures forall i :: 0 <= i < |kept| ==> kept[i] == blocks[|blocks| - |kept| + i]
  {
    blocks[Less(|blocks|, capacity)..]
  }

  /** The offset after moving by a signed number of lines, in a transcript of `total` lines. */
  function Scrolled(total: nat, height: nat, offset: nat, older: int): nat {
    if older >= 0 then ClampedOffset(total, height, Plus(offset, older)) else Less(offset, -older)
  }

  /** No window can be parked before the oldest full one, unless nothing is visible at all. */
  predicate InRange(total: nat, width: nat, height: nat, offset: nat) {
    width == 0 || height == 0 || offset <= Less(total, height)
  }

  class Scrollback<B(==), T> {
    const r: Renderer<B, T>
    const capacity: nat
    var blocks: seq<B>
    var offset: nat

    ghost predicate Valid() reads this { |blocks| <= capacity && offset <= USIZE_MAX }

    constructor (r_: Renderer<B, T>, capacity_: nat)
      ensures Valid() && r == r_ && capacity == capacity_ && blocks == [] && offset == 0
    {
      r, capacity, blocks, offset := r_, capacity_, [], 0;
    }

    /** `replace`: the newest blocks, shown from the tail. */
    method Replace(incoming: seq<B>) returns (changed: bool)
      requires Valid()
      modifies this
      ensures Valid() && blocks == Newest(incoming, capacity) && offset == 0
      ensures changed <==> old(blocks) != blocks || old(offset) != 0
    {
      var kept := if capacity == 0 then [] else Newest(incoming, capacity);
      changed := blocks != kept || offset != 0;
      if changed {
        blocks := kept;
        offset := 0;
      }
    }

    /** `scroll_by`: a moved offset stays in range; scrolling by nothing brings it back into range. */
    method ScrollBy(older: int, width: nat, height: nat) returns (changed: bool)
      requires Valid() && |Flatten(r, blocks, width)| <= USIZE_MAX
      modifies this`offset
      ensures Valid() && (changed <==> offset != old(offset))
      ensures var total := |Flatten(r, blocks, width)|;
              && offset == (if width == 0 || height == 0 then old(offset)
                  else Scrolled(total, height, old(offset), older))
              && (older >= 0 || InRange(total, width, height, old(offset)) ==> InRange(total, width, height, offset))
    {
      if width == 0 || height == 0 { return false; }
      var candidate := if older >= 0 then Plus(offset, older) else Less(offset, -older);
      var next := candidate;
      if older >= 0 {
        var view := Materialize(r, blocks, width, height, candidate);
        next := view.offset;
      }
      if next == offset { return false; }
      offset := next;
      return true;
    }
  }
}
