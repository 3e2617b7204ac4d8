/**
 * The terminal application's pure transition: what one action makes of the
 * state and which effects it asks for. The layout is any function of the
 * viewport, of whether a prompt shows, and of the input; the text editor's
 * answers come with the actions.
 */
module Reducer {
  import opened Prelude
  import opened Transcript

  const MIN_COLUMNS: nat := 24
  const INPUT_ROWS: nat := 3
  const STATUS_ROWS: nat := 1
  const BORDER_ROWS: nat := 2
  const MIN_FIXED_ROWS: nat := 2
  const MAX_OPTIONS: nat := 9

  datatype Viewport = Viewport(width: nat, height: nat)

  datatype Choice = Choice(id: string, caption: string)

  datatype Prompt = Prompt(requestId: string, title: string, body: seq<string>, options: seq<Choice>)

  datatype Response = Selected(optionId: string) | Cancelled

  datatype Invalidation = Content | Layout | Theme

  datatype Effect =
    | Redraw(what: Invalidation)
    | SubmitInput(text: string)
    | RequestQuit
    | InteractionResolved(requestId: string, response: Response)

  datatype Action<B> =
    | Edit(result: Option<string>)        // insert, newline, backspace or replace: the new text if it changed
    | Paste(result: Option<string>)
    | InsertControl
    | Submit
    | ReplaceBlocks(blocks: seq<B>)
    | SetStatus(status: string)
    | PresentInteraction(prompt: Prompt)
    | SelectInteractionOption(key: char)
    | CancelInteraction
    | ScrollBy(older: int)
    | Resize(viewport: Viewport)
    | SelectTheme(selection: nat)
    | DetectBackground(background: nat)
    | ToggleHelp
    | Quit

  const AUTO_THEME: nat := 0

  /** What the model takes from outside: the renderer, the layout, and which input counts as blank. */
  datatype Shell<!B, !T> = Shell(
    renderer: Renderer<B, T>, layout: (Viewport, bool, string) -> Viewport, blank: string -> bool)

  datatype State<B> = State(
    text: string, interaction: Option<Prompt>, viewport: Viewport,
    blocks: seq<B>, capacity: nat, offset: nat,
    status: string, theme: nat, background: nat, help: bool)

  datatype Transition<B> = Transition(state: State<B>, effects: seq<Effect>)

  // ----- prompts -------------------------------------------------------------

  function BodyHeight(v: Viewport): nat {
    var status := if v.height > 0 then STATUS_ROWS else 0;
    var input := if v.height >= 4 then Min(INPUT_ROWS, Less(v.height, status + 1)) else Less(v.height, status);
    Less(v.height, status + input)
  }

  predicate IsReadable(v: Viewport, options: nat) {
    options > 0 && v.width >= MIN_COLUMNS && Less(BodyHeight(v), BORDER_ROWS) >= MIN_FIXED_ROWS + options
  }

  predicate Presentable(p: Prompt, v: Viewport) { IsReadable(v, |p.options|) }

  function OptionKey(i: nat): Option<char> {
    if i < MAX_OPTIONS then Some('1' + i as char) else None
  }

  /** `option_for_key`: the first option whose key it is. */
  function OptionForKey(options: seq<Choice>, key: char, from: nat): Option<Choice>
    decreases |options| - from
  {
    if from >= |options| then None
    else if OptionKey(from) == Some(key) then Some(options[from])
    else OptionForKey(options, key, from + 1)
  }

  function CancelOf(id: string): Effect { InteractionResolved(id, Cancelled) }

  function Present<B>(s: State<B>, p: Prompt): Transition<B> {
    if !Presentable(p, s.viewport) then
      if s.interaction.Some?
          && (s.interaction.value.requestId == p.requestId || !Presentable(s.interaction.value, s.viewport))
      then Transition(s.(interaction := None),
                      [CancelOf(p.requestId)]
                      + (if s.interaction.value.requestId == p.requestId then []
                          else [CancelOf(s.interaction.value.requestId)])
                      + [Redraw(Layout)])
      else Transition(s, [CancelOf(p.requestId)])
    else if s.interaction.Some? && s.interaction.value.requestId != p.requestId then
      Transition(s, [CancelOf(p.requestId)])
    else if s.interaction != Some(p) then
      Transition(s.(interaction := Some(p)), [Redraw(if s.interaction.Some? then Content else Layout)])
    else Transition(s, [])
  }

  function Resolve<B>(s: State<B>, e: Effect): Transition<B> {
    Transition(s.(interaction := None), [e, Redraw(Layout)])
  }

  function Select<B>(s: State<B>, key: char): Transition<B> {
    match s.interaction
    case None => Transition(s, [])
    case Some(p) =>
      if !Presentable(p, s.viewport) then Resolve(s, CancelOf(p.requestId))
      else
        match OptionForKey(p.options, key, 0)
        case None => Transition(s, [])
        case Some(o) => Resolve(s, InteractionResolved(p.requestId, Selected(o.id)))
  }

  function CancelPrompt<B>(s: State<B>): Transition<B> {
    if s.interaction.None? then Transition(s, []) else Resolve(s, CancelOf(s.interaction.value.requestId))
  }

  function ResizeTo<B>(s: State<B>, v: Viewport): Transition<B> {
    var changed := s.viewport != v;
    var next := s.(viewport := v);
    var redraw := if changed then [Redraw(Layout)] else [];
    if next.interaction.Some? && !Presentable(next.interaction.value, v) then
      Transition(next.(interaction := None),
                 redraw + [CancelOf(next.interaction.value.requestId)] + if changed then [] else [Redraw(Layout)])
    else Transition(next, redraw)
  }

  function QuitNow<B>(s: State<B>): Transition<B> {
    var cancelled := CancelPrompt(s);
    cancelled.(effects := cancelled.effects + [RequestQuit])
  }

  // ----- the transition ------------------------------------------------------

  function TranscriptArea<B, T>(x: Shell<B, T>, s: State<B>): Viewport {
    x.layout(s.viewport, s.interaction.Some?, s.text)
  }

  function Lines<B, T>(x: Shell<B, T>, s: State<B>, v: Viewport): nat {
    |Flatten(x.renderer, s.blocks, v.width)|
  }

  function ScrollIn<B, T>(x: Shell<B, T>, s: State<B>, v: Viewport, older: int): State<B> {
    if v.width == 0 || v.height == 0 then s
    else s.(offset := Scrolled(Lines(x, s, v), v.height, s.offset, older))
  }

  function Changed<B(==)>(s: State<B>, next: State<B>, what: Invalidation): Transition<B> {
    Transition(next, if next == s then [] else [Redraw(what)])
  }

  function Act<B(==), T>(x: Shell<B, T>, s: State<B>, a: Action<B>): Transition<B> {
    match a
    case Edit(result) =>
      if result.None? then Transition(s, [])
      else Transition(s.(text := result.value), [Redraw(Content)])
    case Paste(result) =>
      if s.interaction.Some? || result.None? then Transition(s, [])
      else Transition(s.(text := result.value), [Redraw(Content)])
    case InsertControl => Transition(s, [])
    case Submit =>
      if x.blank(s.text) then Transition(s, [])
      else Transition(s.(text := ""), [SubmitInput(s.text), Redraw(Content)])
    case ReplaceBlocks(blocks) => Changed(s, s.(blocks := Newest(blocks, s.capacity), offset := 0), Content)
    case SetStatus(status) => Changed(s, s.(status := status), Content)
    case PresentInteraction(p) => Present(s, p)
    case SelectInteractionOption(key) => Select(s, key)
    case CancelInteraction => CancelPrompt(s)
    case ScrollBy(older) => Changed(s, ScrollIn(x, s, TranscriptArea(x, s), older), Content)
    case Resize(v) => ResizeTo(s, v)
    case SelectTheme(selection) => Changed(s, s.(theme := selection), Theme)
    case DetectBackground(b) => Changed(s, s.(background := b), if s.theme == AUTO_THEME then Theme else Content)
    case ToggleHelp => Transition(s.(help := !s.help), [Redraw(Content)])
    case Quit => QuitNow(s)
  }

  predicate RedrawPending(effects: seq<Effect>) { exists e :: e in effects && e.Redraw? }

  /** `reduce`: the action, and then the offset brought back into range when the transcript area changed. */
  function Reduce<B(==), T>(x: Shell<B, T>, s: State<B>, a: Action<B>): Transition<B> {
    var t := Act(x, s, a);
    var area := TranscriptArea(x, t.state);
    if area == TranscriptArea(x, s) then t
    else
      var clamped := ScrollIn(x, t.state, area, 0);
      Transition(clamped,
                 if clamped != t.state && !RedrawPending(t.effects) then t.effects + [Redraw(Content)]
                 else t.effects)
  }

  // ----- what every reachable state satisfies --------------------------------

  ghost predicate Good<B, T>(x: Shell<B, T>, s: State<B>) {
    && (s.interaction.Some? ==> Presentable(s.interaction.value, s.viewport))
    && |s.blocks| <= s.capacity
    && var area := TranscriptArea(x, s); InRange(Lines(x, s, area), area.width, area.height, s.offset)
  }

  function Fresh<B>(viewport: Viewport, capacity: nat): State<B> {
    State("", None, viewport, [], capacity, 0, "", AUTO_THEME, 0, false)
  }

  lemma ScrollKeepsInRange<B, T>(x: Shell<B, T>, s: State<B>, v: Viewport, older: int)
    requires older >= 0 || InRange(Lines(x, s, v), v.width, v.height, s.offset)
    ensures var t := ScrollIn(x, s, v, older);
            InRange(Lines(x, t, v), v.width, v.height, t.offset) && t == s.(offset := t.offset)
  {
  }

  lemma ActKeeps<B, T>(x: Shell<B, T>, s: State<B>, a: Action<B>)
    requires Good(x, s)
    ensures var t := Act(x, s, a).state;
            && (t.interaction.Some? ==> Presentable(t.interaction.value, t.viewport))
            && |t.blocks| <= t.capacity == s.capacity
            && (TranscriptArea(x, t) == TranscriptArea(x, s) ==> Good(x, t))
  {
    var area := TranscriptArea(x, s);
    match a
    case ScrollBy(older) => ScrollKeepsInRange(x, s, area, older);
    case _ =>
  }

  /** The prompt fits, the store is bounded and the offset is in range after every action. */
  lemma ReduceKeeps<B, T>(x: Shell<B, T>, s: State<B>, a: Action<B>)
    requires Good(x, s)
    ensures Good(x, Reduce(x, s, a).state) && Reduce(x, s, a).state.capacity == s.capacity
  {
    ActKeeps(x, s, a);
    var t := Act(x, s, a).state;
    ScrollKeepsInRange(x, t, TranscriptArea(x, t), 0);
  }

  // ----- every presented request is resolved exactly once --------------------

  function Resolutions(effects: seq<Effect>, id: string): nat {
    if effects == [] then 0
    else
      var here := if effects[0].InteractionResolved? && effects[0].requestId == id then 1 else 0;
      here + Resolutions(effects[1..], id)
  }

  function Active<B>(s: State<B>, id: string): nat {
    if s.interaction.Some? && s.interaction.value.requestId == id then 1 else 0
  }

  /** A request starts when it is presented while it is not the active one. */
  function Starts<B>(s: State<B>, a: Action<B>, id: string): nat {
    if a.PresentInteraction? && a.prompt.requestId == id && Active(s, id) == 0 then 1 else 0
  }

  lemma {:induction false} ResolutionsOfConcat(a: seq<Effect>, b: seq<Effect>, id: string)
    ensures Resolutions(a + b, id) == Resolutions(a, id) + Resolutions(b, id)
  {
    if a == [] {
      assert a + b == b;
    } else {
      assert (a + b)[1..] == a[1..] + b;
      ResolutionsOfConcat(a[1..], b, id);
    }
  }

  lemma ResolutionsOfOne(e: Effect, id: string)
    ensures Resolutions([e], id) == if e.InteractionResolved? && e.requestId == id then 1 else 0
  {
    assert [e][1..] == [];
  }

  lemma ResolutionsOfTwo(e: Effect, f: Effect, id: string)
    ensures Resolutions([e, f], id) == Resolutions([e], id) + Resolutions([f], id)
  {
    assert [e, f] == [e] + [f];
    ResolutionsOfConcat([e], [f], id);
  }

  lemma PresentAccounts<B>(s: State<B>, p: Prompt, id: string)
    requires s.interaction.Some? ==> Presentable(s.interaction.value, s.viewport)
    ensures Resolutions(Present(s, p).effects, id) + Active(Present(s, p).state, id)
            == Starts(s, PresentInteraction(p), id) + Active(s, id)
  {
    ResolutionsOfOne(CancelOf(p.requestId), id);
    ResolutionsOfOne(Redraw(Layout), id);
    ResolutionsOfOne(Redraw(Content), id);
    ResolutionsOfTwo(CancelOf(p.requestId), Redraw(Layout), id);
    assert [CancelOf(p.requestId)] + [] + [Redraw(Layout)] == [CancelOf(p.requestId), Redraw(Layout)];
  }

  lemma ResolveAccounts<B>(s: State<B>, response: Response, id: string)
    requires s.interaction.Some?
    ensures var t := Resolve(s, InteractionResolved(s.interaction.value.requestId, response));
            Resolutions(t.effects, id) + Active(t.state, id) == Active(s, id)
  {
    var e := InteractionResolved(s.interaction.value.requestId, response);
    ResolutionsOfTwo(e, Redraw(Layout), id);
    ResolutionsOfOne(e, id);
    ResolutionsOfOne(Redraw(Layout), id);
  }

  lemma SelectAccounts<B>(s: State<B>, key: char, id: string)
    ensures Resolutions(Select(s, key).effects, id) + Active(Select(s, key).state, id) == Active(s, id)
  {
    if s.interaction.Some? {
      ResolveAccounts(s, Cancelled, id);
      var chosen := OptionForKey(s.interaction.value.options, key, 0);
      if chosen.Some? { ResolveAccounts(s, Selected(chosen.value.id), id); }
    }
  }

  lemma ResizeAccounts<B>(s: State<B>, v: Viewport, id: string)
    ensures Resolutions(ResizeTo(s, v).effects, id) + Active(ResizeTo(s, v).state, id) == Active(s, id)
  {
    ResolutionsOfOne(Redraw(Layout), id);
    if s.interaction.Some? {
      var e := CancelOf(s.interaction.value.requestId);
      ResolutionsOfOne(e, id);
      ResolutionsOfTwo(Redraw(Layout), e, id);
      ResolutionsOfTwo(e, Redraw(Layout), id);
      assert [Redraw(Layout)] + [e] + [] == [Redraw(Layout), e];
      assert [] + [e] + [Redraw(Layout)] == [e, Redraw(Layout)];
    }
  }

  lemma QuitAccounts<B>(s: State<B>, id: string)
    ensures Resolutions(QuitNow(s).effects, id) + Active(QuitNow(s).state, id) == Active(s, id)
  {
    if s.interaction.Some? { ResolveAccounts(s, Cancelled, id); }
    ResolutionsOfConcat(CancelPrompt(s).effects, [RequestQuit], id);
    ResolutionsOfOne(RequestQuit, id);
  }

  lemma ActAccounts<B, T>(x: Shell<B, T>, s: State<B>, a: Action<B>, id: string)
    requires s.interaction.Some? ==> Presentable(s.interaction.value, s.viewport)
    ensures Resolutions(Act(x, s, a).effects, id) + Active(Act(x, s, a).state, id) == Starts(s, a, id) + Active(s, id)
  {
    match a
    case PresentInteraction(p) => PresentAccounts(s, p, id);
    case SelectInteractionOption(key) => SelectAccounts(s, key, id);
    case CancelInteraction => if s.interaction.Some? { ResolveAccounts(s, Cancelled, id); }
    case Resize(v) => ResizeAccounts(s, v, id);
    case Quit => QuitAccounts(s, id);
    case Submit =>
      ResolutionsOfTwo(SubmitInput(s.text), Redraw(Content), id);
      ResolutionsOfOne(SubmitInput(s.text), id);
      ResolutionsOfOne(Redraw(Content), id);
    case _ =>
      ResolutionsOfOne(Redraw(Content), id);
      ResolutionsOfOne(Redraw(Theme), id);
  }

  lemma ReduceAccounts<B, T>(x: Shell<B, T>, s: State<B>, a: Action<B>, id: string)
    requires Good(x, s)
    ensures Resolutions(Reduce(x, s, a).effects, id) + Active(Reduce(x, s, a).state, id)
            == Starts(s, a, id) + Active(s, id)
  {
    ActAccounts(x, s, a, id);
    ResolutionsOfConcat(Act(x, s, a).effects, [Redraw(Content)], id);
    ResolutionsOfOne(Redraw(Content), id);
  }

  // ----- runs ----------------------------------------------------------------

  function After<B(==), T>(x: Shell<B, T>, s: State<B>, actions: seq<Action<B>>): State<B>
    decreases |actions|
  {
    if actions == [] then s else After(x, Reduce(x, s, actions[0]).state, actions[1..])
  }

  function Emitted<B(==), T>(x: Shell<B, T>, s: State<B>, actions: seq<Action<B>>): seq<Effect>
    decreases |actions|
  {
    if actions == [] then []
    else Reduce(x, s, actions[0]).effects + Emitted(x, Reduce(x, s, actions[0]).state, actions[1..])
  }

  function Presentations<B(==), T>(x: Shell<B, T>, s: State<B>, actions: seq<Action<B>>, id: string): nat
    decreases |actions|
  {
    if actions == [] then 0
    else Starts(s, actions[0], id) + Presentations(x, Reduce(x, s, actions[0]).state, actions[1..], id)
  }

  lemma {:induction false} RunKeeps<B, T>(x: Shell<B, T>, s: State<B>, actions: seq<Action<B>>)
    requires Good(x, s)
    ensures Good(x, After(x, s, actions))
    decreases |actions|
  {
    if actions != [] {
      ReduceKeeps(x, s, actions[0]);
      RunKeeps(x, Reduce(x, s, actions[0]).state, actions[1..]);
    }
  }

  /** Over any run, a request is resolved once for each time it started, less one while it is still active. */
  lemma {:induction false} EveryRequestIsResolvedOnce<B, T>(
    x: Shell<B, T>, s: State<B>, actions: seq<Action<B>>, id: string)
    requires Good(x, s)
    ensures Resolutions(Emitted(x, s, actions), id) + Active(After(x, s, actions), id)
            == Presentations(x, s, actions, id) + Active(s, id)
    decreases |actions|
  {
    if actions != [] {
      var t := Reduce(x, s, actions[0]);
      ReduceAccounts(x, s, actions[0], id);
      ReduceKeeps(x, s, actions[0]);
      EveryRequestIsResolvedOnce(x, t.state, actions[1..], id);
      ResolutionsOfConcat(t.effects, Emitted(x, t.state, actions[1..]), id);
    }
  }

  /**
   * From the fresh state: the prompt always fits, the store is bounded, and the window is never parked out of
   * range.
   */
  lemma ReachableIsGood<B, T>(x: Shell<B, T>, viewport: Viewport, capacity: nat, actions: seq<Action<B>>)
    ensures var s := After(x, Fresh(viewport, capacity), actions);
            && (s.interaction.Some? ==> Presentable(s.interaction.value, s.viewport))
            && |s.blocks| <= s.capacity
            && var area := TranscriptArea(x, s);
               (area.width > 0 && area.height > 0 ==> s.offset <= Less(Lines(x, s, area), area.height))
  {
    RunKeeps(x, Fresh(viewport, capacity), actions);
  }

  /** An answer is always one of the options of the active, readable prompt, under the key it shows. */
  lemma AnswersComeFromThePrompt<B, T>(x: Shell<B, T>, s: State<B>, a: Action<B>, id: string, option: string)
    requires InteractionResolved(id, Selected(option)) in Reduce(x, s, a).effects
    ensures s.interaction.Some? && s.interaction.value.requestId == id && a.SelectInteractionOption?
    ensures Presentable(s.interaction.value, s.viewport)
    ensures exists i: nat :: i < |s.interaction.value.options| && s.interaction.value.options[i].id == option
                             && OptionKey(i) == Some(a.key)
  {
    OptionFound(s.interaction.value.options, a.key, 0);
  }

  lemma OptionFound(options: seq<Choice>, key: char, from: nat)
    ensures OptionForKey(options, key, from).Some? ==>
              exists i: nat :: from <= i < |options| && options[i] == OptionForKey(options, key, from).value
                               && OptionKey(i) == Some(key)
    decreases |options| - from
  {
    if from < |options| && OptionKey(from) != Some(key) { OptionFound(options, key, from + 1); }
  }

  // ----- the options of a prompt ---------------------------------------------

  ghost predicate HasId(options: seq<Choice>, id: string) { exists o :: o in options && o.id == id }

  /** The first visible option of each identifier. */
  ghost predicate IsFirst(options: seq<Choice>, visible: string -> bool, k: nat)
    requires k < |options|
  {
    && visible(options[k].caption)
    && forall j :: 0 <= j < k && options[j].id == options[k].id ==> !visible(options[j].caption)
  }

  /** The choice `packed` is the first visible one with its id, at place `at` before `end`. */
  ghost predicate PackedFrom(options: seq<Choice>, visible: string -> bool, packed: Choice, at: nat, end: nat) {
    at < end <= |options| && packed == options[at] && IsFirst(options, visible, at)
  }

  /**
   * `pack_options`: at most nine, in order, each the first visible one of its
   * identifier; nothing visible is dropped unless nine others came before.
   */
  method PackOptions(options: seq<Choice>, visible: string -> bool) returns (packed: seq<Choice>, ghost from: seq<nat>)
    ensures |packed| == |from| <= MAX_OPTIONS
    ensures forall i, j :: 0 <= i < j < |from| ==> from[i] < from[j]
    ensures forall i :: 0 <= i < |from| ==> PackedFrom(options, visible, packed[i], from[i], |options|)
    ensures forall i, j :: 0 <= i < j < |packed| ==> packed[i].id != packed[j].id
    ensures |packed| < MAX_OPTIONS ==>
            forall k :: 0 <= k < |options| && visible(options[k].caption) ==> HasId(packed, options[k].id)
  {
    packed, from := [], [];
    var k := 0;
    while k < |options| && |packed| < MAX_OPTIONS
      invariant 0 <= k <= |options| && |packed| == |from| <= MAX_OPTIONS
      invariant forall i :: 0 <= i < |from| ==> PackedFrom(options, visible, packed[i], from[i], k)
      invariant forall i, j :: 0 <= i < j < |from| ==> from[i] < from[j]
      invariant forall i, j :: 0 <= i < j < |packed| ==> packed[i].id != packed[j].id
      invariant forall j :: 0 <= j < k && visible(options[j].caption) ==> HasId(packed, options[j].id)
    {
      var known := Knows(packed, options[k].id);
      if visible(options[k].caption) && !known {
        ghost var before := packed;
        packed, from := packed + [options[k]], from + [k];
        assert packed[|packed| - 1] in packed;
        forall id | HasId(before, id) ensures HasId(packed, id) {
          var o :| o in before && o.id == id;
          assert o in packed;
        }
      }
      k := k + 1;
    }
  }

  method Knows(options: seq<Choice>, id: string) returns (known: bool)
    ensures known <==> HasId(options, id)
  {
    for i := 0 to |options|
      invariant forall j :: 0 <= j < i ==> options[j].id != id
    {
      if options[i].id == id {
        assert options[i] in options;
        return true;
      }
    }
    return false;
  }
}
