/**
 * The grammar of terminal text: what is shown, what breaks a line, and which
 * control sequences there are, from where to where. Every text is a list of such
 * pieces and an unfinished rest, and sanitizing it keeps exactly what they show.
 */
module PlainGrammar {
  import opened Prelude

  import opened PlainText

  datatype Piece =
    | Shown(c: char)
    | Feed
    | ReturnFeed
    | Return                                             // a carriage return that no line feed follows
    | Tab
    | Dropped(c: char)                                   // any other control character by itself
    | Styling(intro: Control, body: string, final: char)
    | Quotation(intro: Control, body: string, end: Control)
    | Pair(c: char)                                      // an escape and one character

  /** A control by itself, or one written as an escape and a character. */
  datatype Control = One(c: char) | Escaped(c: char)

  function Text(x: Control): (text: string)
    ensures |text| == if x.One? then 1 else 2
  {
    if x.One? then [x.c] else ['\U{1B}', x.c]
  }

  predicate StartsStyling(x: Control) { if x.One? then x.c == '\U{9B}' else x.c == '[' }

  predicate StartsQuotation(x: Control) {
    if x.One? then x.c == '\U{9D}' || x.c == '\U{90}' || x.c == '\U{9E}' || x.c == '\U{9F}'
    else x.c == ']' || x.c == 'P' || x.c == '^' || x.c == '_'
  }

  predicate EndsQuotation(x: Control) {
    if x.One? then x.c == '\U{07}' || x.c == '\U{9C}' else x.c == '\\'
  }

  predicate IsFinal(c: char) { '@' <= c <= '~' }

  predicate NoFinal(body: string) { forall i :: 0 <= i < |body| ==> !IsFinal(body[i]) }

  /** No end of a quotation lies inside; an escape takes the character after it along. */
  predicate NoEnd(body: string)
    decreases |body|
  {
    body == ""
    || (body[0] != '\U{07}' && body[0] != '\U{9C}' && body[0] != '\U{1B}' && NoEnd(body[1..]))
    || (|body| > 1 && body[0] == '\U{1B}' && body[1] != '\\' && NoEnd(body[2..]))
  }

  predicate IsPiece(p: Piece) {
    match p
    case Shown(c) => !IsControl(c)
    case Dropped(c) =>
      && IsControl(c) && c != '\r' && c != '\n' && c != '\t' && c != '\U{1B}'
      && !StartsStyling(One(c)) && !StartsQuotation(One(c))
    case Styling(intro, body, final) => StartsStyling(intro) && NoFinal(body) && IsFinal(final)
    case Quotation(intro, body, end) => StartsQuotation(intro) && NoEnd(body) && EndsQuotation(end)
    case Pair(c) => !StartsStyling(Escaped(c)) && !StartsQuotation(Escaped(c))
    case _ => true
  }

  function Written(p: Piece): string {
    match p
    case Shown(c) => [c]
    case Feed => "\n"
    case ReturnFeed => "\r\n"
    case Return => "\r"
    case Tab => "\t"
    case Dropped(c) => [c]
    case Styling(intro, body, final) => Text(intro) + body + [final]
    case Quotation(intro, body, end) => Text(intro) + body + Text(end)
    case Pair(c) => ['\U{1B}', c]
  }

  /** What a piece shows: a tab is four spaces, every line break one line feed, and a control sequence nothing. */
  function Shows(p: Piece): string {
    match p
    case Shown(c) => [c]
    case Feed => "\n"
    case ReturnFeed => "\n"
    case Return => "\n"
    case Tab => "    "
    case _ => ""
  }

  /** A text that begins a control sequence and does not end it. */
  ghost predicate IsUnfinished(text: string) {
    || text == "" || text == ['\U{1B}']
    || (exists x :: StartsStyling(x) && Text(x) <= text && NoFinal(text[|Text(x)|..]))
    || (exists x :: StartsQuotation(x) && Text(x) <= text && StaysOpen(text[|Text(x)|..]))
  }

  /** A quotation that has no end yet, possibly stopping right after an escape. */
  predicate StaysOpen(body: string) {
    NoEnd(body) || (body != "" && body[|body| - 1] == '\U{1B}' && NoEnd(body[..|body| - 1]))
  }

  /** The pieces and the rest make up the text; a carriage return stands alone only where no line feed follows. */
  ghost predicate Reads(text: string, pieces: seq<Piece>, rest: string)
    decreases |pieces|
  {
    if pieces == [] then text == rest && IsUnfinished(rest)
    else
      var p := pieces[0];
      var w := Written(p);
      && IsPiece(p) && w <= text && Reads(text[|w|..], pieces[1..], rest)
      && (p.Return? ==> text[|w|..] == "" || text[|w|] != '\n')
  }

  function ShowsAll(pieces: seq<Piece>): string {
    if pieces == [] then "" else Shows(pieces[0]) + ShowsAll(pieces[1..])
  }

  // ----- the machine runs through a piece ------------------------------------

  /** One character, in any state. */
  lemma OneStep(state: Scan, c: char, rest: string)
    ensures Sanitized(state, [c] + rest) == Output(state, c, rest) + Sanitized(Step(state, c), rest)
  {
    assert ([c] + rest)[1..] == rest;
  }

  lemma {:induction false} ThroughStyling(body: string, rest: string)
    requires NoFinal(body)
    ensures Sanitized(Csi, body + rest) == Sanitized(Csi, rest)
    decreases |body|
  {
    if body == "" {
      assert body + rest == rest;
    } else {
      assert body + rest == [body[0]] + (body[1..] + rest);
      OneStep(Csi, body[0], body[1..] + rest);
      ThroughStyling(body[1..], rest);
    }
  }

  lemma {:induction false} ThroughQuotation(body: string, rest: string)
    requires NoEnd(body)
    ensures Sanitized(Quoted, body + rest) == Sanitized(Quoted, rest)
    decreases |body|
  {
    if body == "" {
      assert body + rest == rest;
    } else {
      assert body + rest == [body[0]] + (body[1..] + rest);
      OneStep(Quoted, body[0], body[1..] + rest);
      if body[0] == '\U{1B}' {
        assert body[1..] + rest == [body[1]] + (body[2..] + rest);
        OneStep(QuotedEscape, body[1], body[2..] + rest);
        ThroughQuotation(body[2..], rest);
      } else {
        ThroughQuotation(body[1..], rest);
      }
    }
  }

  lemma ThroughEnd(x: Control, rest: string)
    requires EndsQuotation(x)
    ensures Sanitized(Quoted, Text(x) + rest) == Sanitized(Plain, rest)
  {
    if x.One? {
      OneStep(Quoted, x.c, rest);
    } else {
      assert Text(x) + rest == ['\U{1B}'] + ([x.c] + rest);
      OneStep(Quoted, '\U{1B}', [x.c] + rest);
      OneStep(QuotedEscape, x.c, rest);
    }
  }

  lemma ThroughIntro(x: Control, rest: string)
    requires StartsStyling(x) || StartsQuotation(x)
    ensures Sanitized(Plain, Text(x) + rest) == Sanitized(if StartsStyling(x) then Csi else Quoted, rest)
  {
    if x.One? {
      OneStep(Plain, x.c, rest);
    } else {
      assert Text(x) + rest == ['\U{1B}'] + ([x.c] + rest);
      OneStep(Plain, '\U{1B}', [x.c] + rest);
      OneStep(Escape, x.c, rest);
    }
  }

  lemma ThroughSequence(p: Piece, rest: string)
    requires IsPiece(p) && (p.Styling? || p.Quotation?)
    ensures Sanitized(Plain, Written(p) + rest) == Sanitized(Plain, rest)
  {
    match p
    case Styling(intro, body, final) =>
      Regroup(Text(intro), body, [final], rest);
      ThroughIntro(intro, body + ([final] + rest));
      ThroughStyling(body, [final] + rest);
      ThroughFinal(final, rest);
    case Quotation(intro, body, end) =>
      Regroup(Text(intro), body, Text(end), rest);
      ThroughIntro(intro, body + (Text(end) + rest));
      ThroughQuotation(body, Text(end) + rest);
      ThroughEnd(end, rest);
  }

  lemma Regroup(a: string, b: string, c: string, rest: string)
    ensures (a + b + c) + rest == a + (b + (c + rest))
  {
  }

  lemma ThroughFinal(final: char, rest: string)
    requires IsFinal(final)
    ensures Sanitized(Csi, [final] + rest) == Sanitized(Plain, rest)
  {
    OneStep(Csi, final, rest);
  }

  lemma ThroughPair(c: char, rest: string)
    requires IsPiece(Pair(c))
    ensures Sanitized(Plain, Written(Pair(c)) + rest) == Sanitized(Plain, rest)
  {
    assert Written(Pair(c)) + rest == ['\U{1B}'] + ([c] + rest);
    OneStep(Plain, '\U{1B}', [c] + rest);
    OneStep(Escape, c, rest);
  }

  lemma ThroughReturnFeed(rest: string)
    ensures Sanitized(Plain, Written(ReturnFeed) + rest) == Shows(ReturnFeed) + Sanitized(Plain, rest)
  {
    assert Written(ReturnFeed) + rest == ['\r'] + (['\n'] + rest);
    OneStep(Plain, '\r', ['\n'] + rest);
    OneStep(Plain, '\n', rest);
  }

  predicate IsOne(p: Piece) { p.Shown? || p.Feed? || p.Return? || p.Tab? || p.Dropped? }

  lemma OneShows(p: Piece, rest: string)
    requires IsPiece(p) && IsOne(p) && (p.Return? ==> rest == "" || rest[0] != '\n')
    ensures |Written(p)| == 1 && Step(Plain, Written(p)[0]) == Plain && Output(Plain, Written(p)[0], rest) == Shows(p)
  {
  }

  lemma ThroughOne(p: Piece, rest: string)
    requires IsPiece(p) && IsOne(p) && (p.Return? ==> rest == "" || rest[0] != '\n')
    ensures Sanitized(Plain, Written(p) + rest) == Shows(p) + Sanitized(Plain, rest)
  {
    OneShows(p, rest);
    assert Written(p) == [Written(p)[0]];
    OneStep(Plain, Written(p)[0], rest);
  }

  lemma ThroughPiece(p: Piece, rest: string)
    requires IsPiece(p) && (p.Return? ==> rest == "" || rest[0] != '\n')
    ensures Sanitized(Plain, Written(p) + rest) == Shows(p) + Sanitized(Plain, rest)
  {
    if IsOne(p) {
      ThroughOne(p, rest);
    } else if p.Pair? {
      ThroughPair(p.c, rest);
    } else if p.ReturnFeed? {
      ThroughReturnFeed(rest);
    } else {
      ThroughSequence(p, rest);
    }
  }

  lemma UnfinishedShowsNothing(text: string)
    requires IsUnfinished(text)
    ensures Sanitized(Plain, text) == ""
  {
    if text == ['\U{1B}'] {
      EscapeShowsNothing();
    } else if text != "" {
      if x :| StartsStyling(x) && Text(x) <= text && NoFinal(text[|Text(x)|..]) {
        StylingShowsNothing(x, text[|Text(x)|..]);
        assert text == Text(x) + text[|Text(x)|..];
      } else {
        var x :| StartsQuotation(x) && Text(x) <= text && StaysOpen(text[|Text(x)|..]);
        OpenShowsNothing(x, text[|Text(x)|..]);
        assert text == Text(x) + text[|Text(x)|..];
      }
    }
  }

  lemma EscapeShowsNothing()
    ensures Sanitized(Plain, ['\U{1B}']) == ""
  {
    OneStep(Plain, '\U{1B}', "");
    assert ['\U{1B}'] + "" == ['\U{1B}'];
  }

  lemma StylingShowsNothing(x: Control, body: string)
    requires StartsStyling(x) && NoFinal(body)
    ensures Sanitized(Plain, Text(x) + body) == ""
  {
    ThroughIntro(x, body);
    ThroughStyling(body, "");
    assert body + "" == body;
  }

  lemma OpenShowsNothing(x: Control, body: string)
    requires StartsQuotation(x) && StaysOpen(body)
    ensures Sanitized(Plain, Text(x) + body) == ""
  {
    ThroughIntro(x, body);
    QuotationShowsNothing(body);
  }

  lemma QuotationShowsNothing(body: string)
    requires StaysOpen(body)
    ensures Sanitized(Quoted, body) == ""
  {
    if NoEnd(body) {
      ThroughQuotation(body, "");
      assert body + "" == body;
    } else {
      var front := body[..|body| - 1];
      assert body == front + ['\U{1B}'];
      ThroughQuotation(front, ['\U{1B}']);
      OneStep(Quoted, '\U{1B}', "");
      assert ['\U{1B}'] + "" == ['\U{1B}'];
    }
  }

  /** Sanitizing a text keeps exactly what its pieces show. */
  lemma {:induction false} SanitizedShowsThePieces(text: string, pieces: seq<Piece>, rest: string)
    requires Reads(text, pieces, rest)
    ensures Sanitized(Plain, text) == ShowsAll(pieces)
    decreases |pieces|
  {
    if pieces == [] {
      UnfinishedShowsNothing(rest);
    } else {
      var w := Written(pieces[0]);
      var later := text[|w|..];
      assert text == w + later;
      SanitizedShowsThePieces(later, pieces[1..], rest);
      ThroughPiece(pieces[0], later);
    }
  }

  // ----- every text is such a list -------------------------------------------

  lemma FindFinal(body: string) returns (n: nat)
    ensures n <= |body| && NoFinal(body[..n]) && (n < |body| ==> IsFinal(body[n]))
  {
    n := 0;
    while n < |body| && !IsFinal(body[n])
      invariant n <= |body| && NoFinal(body[..n])
    {
      n := n + 1;
    }
  }

  /** The first end of a quotation, or the quotation stays open. */
  lemma FindEnd(body: string) returns (end: Option<(nat, Control)>)
    ensures end.None? ==> StaysOpen(body)
    ensures end.Some? ==>
      && end.value.0 <= |body| && NoEnd(body[..end.value.0])
      && EndsQuotation(end.value.1) && Text(end.value.1) <= body[end.value.0..]
    decreases |body|
  {
    if body == "" { return None; }
    if body[0] == '\U{07}' || body[0] == '\U{9C}' { return Some((0, One(body[0]))); }
    if body[0] != '\U{1B}' {
      end := FindEnd(body[1..]);
      end := Extended(body, 1, end);
    } else if |body| == 1 {
      return None;
    } else if body[1] == '\\' {
      return Some((0, Escaped('\\')));
    } else {
      end := FindEnd(body[2..]);
      end := Extended(body, 2, end);
    }
  }

  /** An end found further on is an end of the whole, if what precedes it holds none. */
  lemma Extended(body: string, k: nat, later: Option<(nat, Control)>) returns (end: Option<(nat, Control)>)
    requires 0 < k <= |body|
    requires (k == 1 && body[0] != '\U{07}' && body[0] != '\U{9C}' && body[0] != '\U{1B}')
             || (k == 2 && body[0] == '\U{1B}' && body[1] != '\\')
    requires later.None? ==> StaysOpen(body[k..])
    requires later.Some? ==>
      && later.value.0 <= |body| - k && NoEnd(body[k..][..later.value.0])
      && EndsQuotation(later.value.1) && Text(later.value.1) <= body[k..][later.value.0..]
    ensures end.None? ==> StaysOpen(body)
    ensures end.Some? ==>
      && end.value.0 <= |body| && NoEnd(body[..end.value.0])
      && EndsQuotation(end.value.1) && Text(end.value.1) <= body[end.value.0..]
  {
    if later.Some? {
      var n := later.value.0;
      assert body[..k + n][k..] == body[k..][..n] && body[k..][n..] == body[k + n..];
      return Some((k + n, later.value.1));
    }
    if !NoEnd(body[k..]) {
      var front := body[..|body| - 1];
      assert front[k..] == body[k..][..|body[k..]| - 1];
    }
    return None;
  }

  /** The first piece of a text, unless it begins a sequence that it does not end. */
  lemma FirstPiece(text: string) returns (p: Option<Piece>)
    requires text != ""
    ensures p.None? ==> IsUnfinished(text)
    ensures p.Some? ==> IsPiece(p.value) && Written(p.value) <= text
    ensures p.Some? && p.value.Return? ==> |text| == 1 || text[1] != '\n'
  {
    var c := text[0];
    if c == '\U{1B}' {
      if |text| == 1 { return None; }
      var x := Escaped(text[1]);
      if StartsStyling(x) || StartsQuotation(x) { p := FirstSequence(text, x); } else { return Some(Pair(text[1])); }
    } else if StartsStyling(One(c)) || StartsQuotation(One(c)) {
      p := FirstSequence(text, One(c));
    } else if c == '\r' {
      return Some(if |text| > 1 && text[1] == '\n' then ReturnFeed else Return);
    } else if c == '\n' {
      return Some(Feed);
    } else if c == '\t' {
      return Some(Tab);
    } else {
      return Some(if IsControl(c) then Dropped(c) else Shown(c));
    }
  }

  lemma FirstSequence(text: string, x: Control) returns (p: Option<Piece>)
    requires Text(x) <= text && (StartsStyling(x) || StartsQuotation(x))
    ensures p.None? ==> IsUnfinished(text)
    ensures p.Some? ==> IsPiece(p.value) && Written(p.value) <= text && !p.value.Return?
  {
    if StartsStyling(x) { p := FirstStyling(text, x); } else { p := FirstQuotation(text, x); }
  }

  lemma FirstStyling(text: string, x: Control) returns (p: Option<Piece>)
    requires Text(x) <= text && StartsStyling(x)
    ensures p.None? ==> IsUnfinished(text)
    ensures p.Some? ==> IsPiece(p.value) && Written(p.value) <= text && p.value.Styling?
  {
    var body := text[|Text(x)|..];
    var n := FindFinal(body);
    if n == |body| {
      assert body[..n] == body;
      return None;
    }
    BeginsWith(text, Text(x), body[..n], [body[n]]);
    return Some(Styling(x, body[..n], body[n]));
  }

  lemma FirstQuotation(text: string, x: Control) returns (p: Option<Piece>)
    requires Text(x) <= text && StartsQuotation(x)
    ensures p.None? ==> IsUnfinished(text)
    ensures p.Some? ==> IsPiece(p.value) && Written(p.value) <= text && p.value.Quotation?
  {
    var body := text[|Text(x)|..];
    var end := FindEnd(body);
    if end.None? { return None; }
    var n, e := end.value.0, end.value.1;
    BeginsWith(text, Text(x), body[..n], Text(e));
    return Some(Quotation(x, body[..n], e));
  }

  lemma BeginsWith(text: string, a: string, b: string, c: string)
    requires a <= text && b <= text[|a|..] && c <= text[|a|..][|b|..]
    ensures a + b + c <= text
  {
  }

  /** Every text is a list of pieces and an unfinished rest, so the law above is about all of them. */
  lemma {:induction false} EveryTextReads(text: string) returns (pieces: seq<Piece>, rest: string)
    ensures Reads(text, pieces, rest)
    decreases |text|
  {
    if text == "" { return [], ""; }
    var p := FirstPiece(text);
    if p.None? { return [], text; }
    var w := Written(p.value);
    pieces, rest := EveryTextReads(text[|w|..]);
    pieces := [p.value] + pieces;
  }
}
