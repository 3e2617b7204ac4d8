/**
 * What each action of the terminal application does: what is submitted, which
 * prompt is answered how, what moves the window, and that every change is drawn.
 */
module ReducerLaws {
  import opened Prelude

  import opened Reducer
  import opened Transcript

  // ----- the prompt ----------------------------------------------------------

  /** Bringing the window back into range touches nothing else. */
  lemma OnlyTheWindowFollows<B, T>(x: Shell<B, T>, s: State<B>, a: Action<B>)
    ensures Reduce(x, s, a).state == Act(x, s, a).state.(offset := Reduce(x, s, a).state.offset)
    ensures Act(x, s, a).effects <= Reduce(x, s, a).effects
    ensures forall e :: e in Reduce(x, s, a).effects ==> e in Act(x, s, a).effects || e == Redraw(Content)
  {
  }

  /** A prompt fits a viewport of 24 columns that has eight rows besides one for each option. */
  lemma FitsWithEightMoreRows(p: Prompt, v: Viewport)
    ensures Presentable(p, v) <==> |p.options| > 0 && v.width >= 24 && v.height >= |p.options| + 8
  {
  }

  predicate Shows<B>(s: State<B>, p: Prompt) { s.interaction == Some(p) }

  predicate Resolves(effects: seq<Effect>, id: string, r: Response) { InteractionResolved(id, r) in effects }

  /**
   * The active prompt stays: only a readable prompt of the same request replaces it, and any other request is
   * cancelled at once. With no prompt active, a readable one becomes active and nothing is resolved.
   */
  lemma ActivePromptStays<B, T>(x: Shell<B, T>, s: State<B>, p: Prompt)
    requires Good(x, s)
    ensures var t := Reduce(x, s, PresentInteraction(p));
      var mine := s.interaction.None? || s.interaction.value.requestId == p.requestId;
      && (Presentable(p, s.viewport) && mine ==>
            Shows(t.state, p) && forall id, r :: !Resolves(t.effects, id, r))
      && (!mine ==> t.state.interaction == s.interaction && Resolves(t.effects, p.requestId, Cancelled))
      && (!Presentable(p, s.viewport) && mine ==>
            t.state.interaction.None? && Resolves(t.effects, p.requestId, Cancelled))
  {
  }

  const KEYS: string := "123456789"

  lemma KeyOfOption(options: seq<Choice>, i: nat, from: nat)
    requires from <= i < |options| && i < 9
    ensures OptionForKey(options, KEYS[i], from) == Some(options[i])
    decreases i - from
  {
    if from < i { KeyOfOption(options, i, from + 1); }
  }

  /** Pressing the key of an option answers the active prompt with exactly that option, and removes the prompt. */
  lemma KeyAnswers<B, T>(x: Shell<B, T>, s: State<B>, p: Prompt, i: nat)
    requires Good(x, s) && Shows(s, p) && i < |p.options| && i < 9
    ensures var t := Reduce(x, s, SelectInteractionOption(KEYS[i]));
      && Resolves(t.effects, p.requestId, Selected(p.options[i].id)) && t.state.interaction.None?
  {
    KeyOfOption(p.options, i, 0);
  }

  lemma NoOption(options: seq<Choice>, key: char, from: nat)
    requires forall i: nat :: i < |options| && i < 9 ==> key != KEYS[i]
    ensures OptionForKey(options, key, from).None?
    decreases |options| - from
  {
    if from < |options| {
      if from < 9 { assert key != KEYS[from]; }
      NoOption(options, key, from + 1);
    }
  }

  /** No other key does anything. */
  lemma OtherKeysAreIgnored<B, T>(x: Shell<B, T>, s: State<B>, key: char)
    requires Good(x, s)
    requires s.interaction.Some? ==> forall i: nat :: i < |s.interaction.value.options| && i < 9 ==> key != KEYS[i]
    ensures Reduce(x, s, SelectInteractionOption(key)) == Transition(s, [])
  {
    if s.interaction.Some? { NoOption(s.interaction.value.options, key, 0); }
  }

  /** Cancelling, quitting and a resize that leaves no room all cancel the active prompt and remove it. */
  lemma PromptIsCancelled<B, T>(x: Shell<B, T>, s: State<B>, p: Prompt, a: Action<B>)
    requires Good(x, s) && Shows(s, p)
    requires a.CancelInteraction? || a.Quit? || (a.Resize? && !Presentable(p, a.viewport))
    ensures Resolves(Reduce(x, s, a).effects, p.requestId, Cancelled) && Reduce(x, s, a).state.interaction.None?
  {
  }

  /** The action may take the active prompt away: an answer, a cancellation, its own request again, or no room. */
  predicate MayEnd<B>(p: Prompt, a: Action<B>) {
    match a
    case PresentInteraction(q) => q.requestId == p.requestId
    case SelectInteractionOption(key) => exists i: nat :: i < |p.options| && i < 9 && key == KEYS[i]
    case CancelInteraction => true
    case Quit => true
    case Resize(v) => !Presentable(p, v)
    case _ => false
  }

  /** Through every other action the prompt stays as it is, and nothing is said of its request. */
  lemma PromptStaysOtherwise<B, T>(x: Shell<B, T>, s: State<B>, p: Prompt, a: Action<B>)
    requires Good(x, s) && Shows(s, p) && !MayEnd(p, a)
    ensures var t := Reduce(x, s, a);
      Shows(t.state, p) && forall r :: !Resolves(t.effects, p.requestId, r)
  {
    OnlyTheWindowFollows(x, s, a);
    if a.SelectInteractionOption? { OtherKeysAreIgnored(x, s, a.key); }
  }

  // ----- input and the other fields ------------------------------------------

  lemma ActSubmits<B, T>(x: Shell<B, T>, s: State<B>, a: Action<B>, text: string)
    ensures SubmitInput(text) in Act(x, s, a).effects <==> a.Submit? && !x.blank(s.text) && text == s.text
    ensures a.Submit? && !x.blank(s.text) ==>
              && Act(x, s, a).state.text == "" && |Act(x, s, a).effects| > 0
              && Act(x, s, a).effects[0] == SubmitInput(s.text)
  {
    if a.Submit? && !x.blank(s.text) && text == s.text { assert Act(x, s, a).effects[0] == SubmitInput(text); }
  }

  /** What is submitted is the text as it stands, exactly when it is submitted and not blank; then it is gone. */
  lemma SubmitsTheText<B, T>(x: Shell<B, T>, s: State<B>, a: Action<B>, text: string)
    ensures SubmitInput(text) in Reduce(x, s, a).effects <==> a.Submit? && !x.blank(s.text) && text == s.text
    ensures SubmitInput(text) in Reduce(x, s, a).effects ==> Reduce(x, s, a).state.text == ""
  {
    ActSubmits(x, s, a, text);
    OnlyTheWindowFollows(x, s, a);
    assert Act(x, s, a).effects <= Reduce(x, s, a).effects;
    if a.Submit? && !x.blank(s.text) && text == s.text {
      assert Reduce(x, s, a).effects[0] == Act(x, s, a).effects[0];
    }
  }

  /** The new text that the editor answered with, if the action may change it. */
  function Typed<B>(s: State<B>, a: Action<B>): Option<string> {
    if a.Edit? then a.result else if a.Paste? && s.interaction.None? then a.result else None
  }

  /** The text is what the editor made of it, or what was there; a paste does not reach it behind a prompt. */
  lemma TextIsWhatWasTyped<B, T>(x: Shell<B, T>, s: State<B>, a: Action<B>)
    requires !a.Submit?
    ensures Reduce(x, s, a).state.text == if Typed(s, a).Some? then Typed(s, a).value else s.text
  {
  }

  lemma OwnActs<B, T>(x: Shell<B, T>, s: State<B>, a: Action<B>)
    ensures var t := Act(x, s, a).state;
      && t.viewport == (if a.Resize? then a.viewport else s.viewport)
      && t.status == (if a.SetStatus? then a.status else s.status)
      && t.theme == (if a.SelectTheme? then a.selection else s.theme)
      && t.background == (if a.DetectBackground? then a.background else s.background)
      && (t.help == s.help <==> !a.ToggleHelp?)
      && t.blocks == (if a.ReplaceBlocks? then Newest(a.blocks, s.capacity) else s.blocks)
  {
  }

  /** Each of the other fields changes only by its own action, and then to what the action says. */
  lemma OwnActionsOnly<B, T>(x: Shell<B, T>, s: State<B>, a: Action<B>)
    ensures var t := Reduce(x, s, a).state;
      && t.viewport == (if a.Resize? then a.viewport else s.viewport)
      && t.status == (if a.SetStatus? then a.status else s.status)
      && t.theme == (if a.SelectTheme? then a.selection else s.theme)
      && t.background == (if a.DetectBackground? then a.background else s.background)
      && (t.help == s.help <==> !a.ToggleHelp?)
      && t.blocks == (if a.ReplaceBlocks? then Newest(a.blocks, s.capacity) else s.blocks)
  {
    OnlyTheWindowFollows(x, s, a);
    OwnActs(x, s, a);
  }

  /** The application is asked to quit exactly by the action that says so. */
  lemma QuitsOnRequest<B, T>(x: Shell<B, T>, s: State<B>, a: Action<B>)
    ensures RequestQuit in Reduce(x, s, a).effects <==> a.Quit?
  {
    OnlyTheWindowFollows(x, s, a);
    if a.Quit? {
      var effects := Act(x, s, a).effects;
      assert effects[|effects| - 1] == RequestQuit;
      assert Reduce(x, s, a).effects[|effects| - 1] == RequestQuit;
    }
  }

  // ----- drawing -------------------------------------------------------------

  predicate Draws(effects: seq<Effect>, what: Invalidation) { Redraw(what) in effects }

  lemma CancelDraws<B>(s: State<B>)
    ensures s.interaction.Some? ==> Redraw(Layout) in CancelPrompt(s).effects
    ensures s.interaction.Some? ==> Redraw(Layout) in QuitNow(s).effects
  {
    if s.interaction.Some? {
      assert CancelPrompt(s).effects[1] == Redraw(Layout) && QuitNow(s).effects[1] == Redraw(Layout);
    }
  }

  lemma SelectDraws<B>(s: State<B>, key: char)
    ensures Select(s, key).state != s ==> Redraw(Layout) in Select(s, key).effects
  {
    if Select(s, key).state != s { assert Select(s, key).effects[1] == Redraw(Layout); }
  }

  lemma PresentDraws<B>(s: State<B>, p: Prompt)
    requires s.interaction.Some? ==> Presentable(s.interaction.value, s.viewport)
    ensures Present(s, p).state != s ==> RedrawPending(Present(s, p).effects)
    ensures s.interaction.Some? != Present(s, p).state.interaction.Some? ==> Redraw(Layout) in Present(s, p).effects
  {
    var effects := Present(s, p).effects;
    if Present(s, p).state != s { assert effects[|effects| - 1].Redraw?; }
  }

  lemma ActDraws<B, T>(x: Shell<B, T>, s: State<B>, a: Action<B>)
    requires Good(x, s)
    ensures Act(x, s, a).state != s ==> RedrawPending(Act(x, s, a).effects)
    ensures s.interaction.Some? != Act(x, s, a).state.interaction.Some? ==> Draws(Act(x, s, a).effects, Layout)
    ensures s.viewport != Act(x, s, a).state.viewport ==> Draws(Act(x, s, a).effects, Layout)
    ensures s.theme != Act(x, s, a).state.theme ==> Draws(Act(x, s, a).effects, Theme)
  {
    var effects := Act(x, s, a).effects;
    match a
    case SelectInteractionOption(key) => SelectDraws(s, key);
    case CancelInteraction => CancelDraws(s);
    case Quit => CancelDraws(s);
    case Submit => assert !x.blank(s.text) ==> effects[1] == Redraw(Content);
    case Edit(result) => assert result.Some? ==> effects[0] == Redraw(Content);
    case Paste(result) => assert s.interaction.None? && result.Some? ==> effects[0] == Redraw(Content);
    case ToggleHelp => assert effects[0] == Redraw(Content);
    case PresentInteraction(p) => PresentDraws(s, p);
    case Resize(v) => assert s.viewport != v ==> effects[0] == Redraw(Layout);
    case InsertControl =>
    case _ => assert Act(x, s, a).state != s ==> effects[0].Redraw?;
  }

  /**
   * Every change of the state asks for a redraw: of the whole layout when the viewport changes or a prompt comes
   * or goes, and of the theme when that is selected.
   */
  lemma ChangesAreDrawn<B, T>(x: Shell<B, T>, s: State<B>, a: Action<B>)
    requires Good(x, s)
    ensures var t := Reduce(x, s, a);
      && (t.state != s ==> RedrawPending(t.effects))
      && (s.viewport != t.state.viewport || s.interaction.Some? != t.state.interaction.Some? ==>
            Draws(t.effects, Layout))
      && (s.theme != t.state.theme ==> Draws(t.effects, Theme))
  {
    ActDraws(x, s, a);
    var t, act := Reduce(x, s, a), Act(x, s, a);
    forall e | e in act.effects ensures e in t.effects {}
    if t.state != s { assert act.state != s; }
  }

  // ----- the window ----------------------------------------------------------

  function Clamp(n: int, most: nat): nat {
    if n < 0 then 0 else if n > most then most else n
  }

  lemma ScrollClamps(total: nat, height: nat, offset: nat, older: int)
    requires offset <= Less(total, height) && total <= USIZE_MAX
    ensures Scrolled(total, height, offset, older) == Clamp(offset + older, Less(total, height))
  {
  }

  /** Scrolling moves the window by what was asked, as far as the transcript goes. */
  lemma ScrollMoves<B, T>(x: Shell<B, T>, s: State<B>, older: int)
    requires Good(x, s)
    requires var area := TranscriptArea(x, s); area.width > 0 && area.height > 0 && Lines(x, s, area) <= USIZE_MAX
    ensures var area := TranscriptArea(x, s);
      Reduce(x, s, ScrollBy(older)).state.offset == Clamp(s.offset + older, Less(Lines(x, s, area), area.height))
  {
    ScrollClamps(Lines(x, s, TranscriptArea(x, s)), TranscriptArea(x, s).height, s.offset, older);
  }

  lemma ActLeavesWindow<B, T>(x: Shell<B, T>, s: State<B>, a: Action<B>)
    requires !a.ScrollBy?
    ensures Act(x, s, a).state.offset == if a.ReplaceBlocks? then 0 else s.offset
  {
  }

  lemma AreaIgnoresWindow<B, T>(x: Shell<B, T>, t: State<B>, offset: nat)
    ensures TranscriptArea(x, t.(offset := offset)) == TranscriptArea(x, t)
  {
  }

  lemma ClampedWindow<B, T>(x: Shell<B, T>, t: State<B>, area: Viewport)
    requires t.offset <= USIZE_MAX
    ensures ScrollIn(x, t, area, 0).offset ==
            if area.width == 0 || area.height == 0 then t.offset
            else Min(t.offset, Less(Lines(x, t, area), area.height))
  {
  }

  /** New blocks show from the tail, and anything else but scrolling moves the window only to keep it in range. */
  lemma WindowStays<B, T>(x: Shell<B, T>, s: State<B>, a: Action<B>)
    requires Good(x, s) && !a.ScrollBy? && s.offset <= USIZE_MAX
    ensures var t := Reduce(x, s, a).state;
      var area := TranscriptArea(x, t);
      if a.ReplaceBlocks? then t.offset == 0
      else if area == TranscriptArea(x, s) || area.width == 0 || area.height == 0 then t.offset == s.offset
      else t.offset == Min(s.offset, Less(Lines(x, t, area), area.height))
  {
    var t := Act(x, s, a).state;
    var area := TranscriptArea(x, t);
    ActLeavesWindow(x, s, a);
    ClampedWindow(x, t, area);
    AreaIgnoresWindow(x, t, Reduce(x, s, a).state.offset);
    OnlyTheWindowFollows(x, s, a);
    assert Reduce(x, s, a).state == if area == TranscriptArea(x, s) then t else ScrollIn(x, t, area, 0);
  }
}
