/**
 * Text made safe and short for a terminal: control sequences removed by a
 * character state machine, and lines cut to a display width, for any width
 * function and any segmentation into graphemes.
 */
module PlainText {
  import opened Prelude

  const MAX_PLAIN_WIDTH: nat := 4096
  const MAX_LINE_SCALARS: nat := 16384
  const ZERO_WIDTH_ALLOWANCE: nat := 64

  // ----- control sequences ---------------------------------------------------

  datatype Scan = Plain | Escape | Csi | Quoted | QuotedEscape

  predicate IsControl(c: char) { c < ' ' || '\U{7F}' <= c <= '\U{9F}' }

  /** Text that holds no control character but the line feed. */
  predicate IsClean(s: string) { forall i :: 0 <= i < |s| ==> s[i] == '\n' || !IsControl(s[i]) }

  /** What one character of plain text becomes; `next` is the one after it. */
  function Emit(c: char, next: string): string {
    if c == '\r' then (if next != [] && next[0] == '\n' then "" else "\n")
    else if c == '\n' then "\n"
    else if c == '\t' then "    "
    else if IsControl(c) then ""
    else [c]
  }

  function Step(state: Scan, c: char): Scan {
    match state
    case Plain =>
      if c == '\U{1B}' then Escape
      else if c == '\U{9B}' then Csi
      else if c == '\U{9D}' || c == '\U{90}' || c == '\U{9E}' || c == '\U{9F}' then Quoted
      else Plain
    case Escape =>
      if c == '[' then Csi else if c == ']' || c == 'P' || c == '^' || c == '_' then Quoted else Plain
    case Csi => if '@' <= c <= '~' then Plain else Csi
    case Quoted => if c == '\U{07}' || c == '\U{9C}' then Plain else if c == '\U{1B}' then QuotedEscape else Quoted
    case QuotedEscape => if c == '\\' then Plain else Quoted
  }

  function Output(state: Scan, c: char, next: string): string {
    if state.Plain? then Emit(c, next) else ""
  }

  function Sanitized(state: Scan, text: string): string
    decreases |text|
  {
    if text == "" then "" else Output(state, text[0], text[1..]) + Sanitized(Step(state, text[0]), text[1..])
  }

  lemma CleanConcat(a: string, b: string)
    requires IsClean(a) && IsClean(b)
    ensures IsClean(a + b)
  {
  }

  /** Nothing but line feeds and printable characters survives. */
  lemma {:induction false} SanitizedIsClean(state: Scan, text: string)
    ensures IsClean(Sanitized(state, text))
    decreases |text|
  {
    if text != "" {
      SanitizedIsClean(Step(state, text[0]), text[1..]);
      CleanConcat(Output(state, text[0], text[1..]), Sanitized(Step(state, text[0]), text[1..]));
    }
  }

  lemma {:induction false} CleanIsUntouched(text: string)
    requires IsClean(text)
    ensures Sanitized(Plain, text) == text
    decreases |text|
  {
    if text != "" {
      assert text == [text[0]] + text[1..];
      CleanIsUntouched(text[1..]);
    }
  }

  /** Sanitizing twice is sanitizing once. */
  lemma SanitizeIsIdempotent(text: string)
    ensures Sanitized(Plain, Sanitized(Plain, text)) == Sanitized(Plain, text)
  {
    SanitizedIsClean(Plain, text);
    CleanIsUntouched(Sanitized(Plain, text));
  }

  /** `sanitize_terminal_text`. */
  method Sanitize(text: string) returns (output: string)
    ensures output == Sanitized(Plain, text)
  {
    var state, i := Plain, 0;
    output := "";
    assert text[0..] == text;
    while i < |text|
      invariant 0 <= i <= |text|
      invariant output + Sanitized(state, text[i..]) == Sanitized(Plain, text)
    {
      var piece: string;
      var next := text[i + 1..];
      assert text[i..][0] == text[i] && text[i..][1..] == next;
      Reassociate(output, Output(state, text[i], next), Sanitized(Step(state, text[i]), next));
      state, piece := Feed(state, text[i], next);
      output := output + piece;
      i := i + 1;
    }
  }

  lemma Reassociate(a: string, b: string, c: string)
    ensures a + (b + c) == (a + b) + c
  {
  }

  /** One turn of the state machine. */
  method Feed(state: Scan, c: char, next: string) returns (state': Scan, piece: string)
    ensures state' == Step(state, c) && piece == Output(state, c, next)
  {
    state', piece := state, "";
    match state {
      case Plain =>
        if c == '\U{1B}' { state' := Escape; }
        else if c == '\U{9B}' { state' := Csi; }
        else if c == '\U{9D}' || c == '\U{90}' || c == '\U{9E}' || c == '\U{9F}' { state' := Quoted; }
        else if c == '\r' { if next == "" || next[0] != '\n' { piece := "\n"; } }
        else if c == '\n' { piece := "\n"; }
        else if c == '\t' { piece := "    "; }
        else if !IsControl(c) { piece := [c]; }
      case Escape =>
        state' := if c == '[' then Csi else if c == ']' || c == 'P' || c == '^' || c == '_' then Quoted else Plain;
      case Csi =>
        if '@' <= c <= '~' { state' := Plain; }
      case Quoted =>
        if c == '\U{07}' || c == '\U{9C}' { state' := Plain; }
        else if c == '\U{1B}' { state' := QuotedEscape; }
      case QuotedEscape =>
        state' := if c == '\\' then Plain else Quoted;
    }
  }

  // ----- display width -------------------------------------------------------

  /** How text is measured and cut into graphemes. */
  datatype Measure = Measure(width: string -> nat, graphemes: string -> seq<string>, ellipsis: string)

  function Concat(parts: seq<string>): string {
    if parts == [] then "" else Concat(parts[..|parts| - 1]) + parts[|parts| - 1]
  }

  /** From the k-th grapheme on, how far the widths added one by one stay within the room. */
  function Fitting(m: Measure, parts: seq<string>, k: nat, used: nat, room: nat): (n: nat)
    requires k <= |parts|
    ensures k <= n <= |parts|
    decreases |parts| - k
  {
    if k == |parts| || used + m.width(parts[k]) > room then k
    else Fitting(m, parts, k + 1, used + m.width(parts[k]), room)
  }

  /** The largest number of leading graphemes, at most `n`, that fits together with the ellipsis. */
  function Shrunk(m: Measure, parts: seq<string>, n: nat, width: nat): string
    requires n <= |parts|
  {
    if m.width(Concat(parts[..n]) + m.ellipsis) <= width then Concat(parts[..n]) + m.ellipsis
    else if n == 0 then m.ellipsis
    else Shrunk(m, parts, n - 1, width)
  }

  function ScalarLimit(width: nat): nat { Min(width * 4 + ZERO_WIDTH_ALLOWANCE, MAX_LINE_SCALARS) }

  function Truncated(m: Measure, text: string, requested: nat): string {
    var width := Min(requested, MAX_PLAIN_WIDTH);
    if width == 0 then ""
    else
      var limit := ScalarLimit(width);
      if |text| <= limit && m.width(text) <= width then text
      else if m.width(m.ellipsis) > width then ""
      else
        var parts := m.graphemes(if |text| > limit then text[..limit] else text);
        Shrunk(m, parts, Fitting(m, parts, 0, 0, width - m.width(m.ellipsis)), width)
  }

  /** `k` is the most leading parts, up to `n`, that fit together with the ellipsis. */
  predicate Keeps(m: Measure, parts: seq<string>, n: nat, width: nat, k: nat)
    requires n <= |parts|
  {
    && k <= n && m.width(Concat(parts[..k]) + m.ellipsis) <= width
    && forall j :: k < j <= n ==> m.width(Concat(parts[..j]) + m.ellipsis) > width
  }

  lemma {:induction false} ShrunkFits(m: Measure, parts: seq<string>, n: nat, width: nat) returns (k: nat)
    requires n <= |parts| && m.width(m.ellipsis) <= width
    ensures Keeps(m, parts, n, width, k) && Shrunk(m, parts, n, width) == Concat(parts[..k]) + m.ellipsis
    decreases n
  {
    assert Concat(parts[..0]) + m.ellipsis == m.ellipsis;
    if m.width(Concat(parts[..n]) + m.ellipsis) > width && n > 0 {
      k := ShrunkFits(m, parts, n - 1, width);
    } else {
      k := n;
    }
  }

  /** A cut line is never wider than asked, and is the text itself or leading graphemes and the ellipsis. */
  lemma TruncatedFits(m: Measure, text: string, requested: nat)
    requires m.width("") == 0
    ensures m.width(Truncated(m, text, requested)) <= Min(requested, MAX_PLAIN_WIDTH)
    ensures m.width(text) <= requested <= MAX_PLAIN_WIDTH && 0 < requested && |text| <= ScalarLimit(requested)
            ==> Truncated(m, text, requested) == text
  {
    var width := Min(requested, MAX_PLAIN_WIDTH);
    var limit := ScalarLimit(width);
    if width > 0 && !(|text| <= limit && m.width(text) <= width) && m.width(m.ellipsis) <= width {
      var parts := m.graphemes(if |text| > limit then text[..limit] else text);
      var k := ShrunkFits(m, parts, Fitting(m, parts, 0, 0, width - m.width(m.ellipsis)), width);
    }
  }

  /** The widths of the first `n` parts together. */
  function WidthTo(m: Measure, parts: seq<string>, n: nat): nat
    requires n <= |parts|
  {
    if n == 0 then 0 else WidthTo(m, parts, n - 1) + m.width(parts[n - 1])
  }

  /** The first `n` parts fit into the room by their own widths, and no more of them do. */
  predicate Fills(m: Measure, parts: seq<string>, n: nat, room: nat) {
    n <= |parts| && WidthTo(m, parts, n) <= room && (n < |parts| ==> WidthTo(m, parts, n + 1) > room)
  }

  lemma {:induction false} FittingFills(m: Measure, parts: seq<string>, k: nat, used: nat, room: nat)
    requires k <= |parts| && used == WidthTo(m, parts, k) <= room
    ensures Fills(m, parts, Fitting(m, parts, k, used, room), room)
    decreases |parts| - k
  {
    if k < |parts| && used + m.width(parts[k]) <= room {
      FittingFills(m, parts, k + 1, used + m.width(parts[k]), room);
    }
  }

  /**
   * A line that is cut keeps as many leading graphemes as fit beside the ellipsis by their own widths, or as many
   * of these as fit when the whole is measured, whatever the measure; with no room even for the ellipsis nothing is
   * left. What is measured is at most four characters for each column and 64 more.
   */
  lemma CutKeepsWhatFits(m: Measure, text: string, requested: nat)
    ensures var width := Min(requested, 4096);
      var limit, ellipsis := Min(width * 4 + 64, 16384), m.width(m.ellipsis);
      if width == 0 then Truncated(m, text, requested) == ""
      else if |text| <= limit && m.width(text) <= width then Truncated(m, text, requested) == text
      else if ellipsis > width then Truncated(m, text, requested) == ""
      else
        var parts := m.graphemes(text[..Min(limit, |text|)]);
        exists n: nat, k: nat :: Fills(m, parts, n, width - ellipsis) && Keeps(m, parts, n, width, k)
                                 && Truncated(m, text, requested) == Concat(parts[..k]) + m.ellipsis
  {
    var width := Min(requested, MAX_PLAIN_WIDTH);
    var limit := ScalarLimit(width);
    if width > 0 && !(|text| <= limit && m.width(text) <= width) && m.width(m.ellipsis) <= width {
      var bounded := if |text| > limit then text[..limit] else text;
      assert bounded == text[..Min(limit, |text|)];
      var parts, room := m.graphemes(bounded), width - m.width(m.ellipsis);
      FittingFills(m, parts, 0, 0, room);
      var n := Fitting(m, parts, 0, 0, room);
      var k := ShrunkFits(m, parts, n, width);
      assert Truncated(m, text, requested) == Concat(parts[..k]) + m.ellipsis;
    }
  }

  /** `truncate_display_width`. */
  method Truncate(m: Measure, text: string, requested: nat) returns (rendered: string)
    ensures rendered == Truncated(m, text, requested)
  {
    var width := Min(requested, MAX_PLAIN_WIDTH);
    if width == 0 { return ""; }
    var limit := ScalarLimit(width);
    var bounded := if |text| > limit then text[..limit] else text;
    if |text| <= limit && m.width(text) <= width { return text; }
    if m.width(m.ellipsis) > width { return ""; }
    var parts := m.graphemes(bounded);
    var kept := Gather(m, parts, width - m.width(m.ellipsis));
    rendered := Shorten(m, parts, kept, width);
  }

  /** The greedy loop over graphemes. */
  method Gather(m: Measure, parts: seq<string>, room: nat) returns (kept: nat)
    ensures kept == Fitting(m, parts, 0, 0, room)
  {
    var used: nat := 0;
    kept := 0;
    while kept < |parts| && used + m.width(parts[kept]) <= room
      invariant 0 <= kept <= |parts|
      invariant Fitting(m, parts, kept, used, room) == Fitting(m, parts, 0, 0, room)
    {
      used := used + m.width(parts[kept]);
      kept := kept + 1;
    }
  }

  /** The loop that gives graphemes back until the whole line fits. */
  method Shorten(m: Measure, parts: seq<string>, kept: nat, width: nat) returns (rendered: string)
    requires kept <= |parts|
    ensures rendered == Shrunk(m, parts, kept, width)
  {
    var n := kept;
    rendered := Concat(parts[..n]) + m.ellipsis;
    while m.width(rendered) > width
      invariant 0 <= n <= kept && rendered == Concat(parts[..n]) + m.ellipsis
      invariant Shrunk(m, parts, kept, width) == Shrunk(m, parts, n, width)
      decreases n
    {
      if n == 0 { return m.ellipsis; }
      n := n - 1;
      rendered := Concat(parts[..n]) + m.ellipsis;
    }
  }
}
