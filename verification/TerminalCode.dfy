/**
 * The code of one guard: fields updated in place, one method for each critical
 * section. The methods answer to the section functions of the protocol.
 */
module TerminalCode {
  import opened Prelude
  import opened TerminalProtocol

  const RESTORE_STAGES: seq<Stage> := [BracketedPaste, HideCursor, AlternateScreen, RawMode]

  /** What is left to undo, what is still on, and the leave calls made. */
  datatype Undo = Undo(entered: set<Stage>, modes: set<Stage>, leaves: seq<Stage>)

  function LeaveOne(u: Undo, g: Stage, n: Native): Undo {
    if g !in u.entered then u
    else Undo(if g in n.leaveOk then u.entered - {g} else u.entered,
              if g in n.leaveOk || g in n.leaveApplied then u.modes - {g} else u.modes,
              u.leaves + [g])
  }

  function LeaveAll(u: Undo, order: seq<Stage>, n: Native): Undo
    decreases |order|
  {
    if order == [] then u else LeaveAll(LeaveOne(u, order[0], n), order[1..], n)
  }

  /** The stages of `order` that are in `entered`, in that order. */
  function Among(order: seq<Stage>, entered: set<Stage>): seq<Stage> {
    if order == [] then []
    else (if order[0] in entered then [order[0]] else []) + Among(order[1..], entered)
  }

  function Members(order: seq<Stage>): set<Stage> {
    set g | g in order
  }

  lemma AmongIgnores(order: seq<Stage>, entered: set<Stage>, g: Stage)
    requires g !in order
    ensures Among(order, entered - {g}) == Among(order, entered)
  {
    if order != [] { AmongIgnores(order[1..], entered, g); }
  }

  lemma {:induction false} LeaveAllEntered(u: Undo, order: seq<Stage>, n: Native)
    ensures LeaveAll(u, order, n).entered == u.entered - Members(order) * n.leaveOk
    decreases |order|
  {
    if order != [] {
      MembersFromFront(order);
      LeaveAllEntered(LeaveOne(u, order[0], n), order[1..], n);
    }
  }

  lemma {:induction false} LeaveAllModes(u: Undo, order: seq<Stage>, n: Native)
    requires forall i, j :: 0 <= i < j < |order| ==> order[i] != order[j]
    ensures LeaveAll(u, order, n).modes == u.modes - u.entered * Members(order) * (n.leaveOk + n.leaveApplied)
    decreases |order|
  {
    if order != [] {
      MembersFromFront(order);
      LeaveAllModes(LeaveOne(u, order[0], n), order[1..], n);
    }
  }

  lemma MembersFromFront(order: seq<Stage>)
    requires order != []
    ensures Members(order) == {order[0]} + Members(order[1..])
  {
    assert order == [order[0]] + order[1..];
  }

  lemma {:induction false} LeaveAllOrder(u: Undo, order: seq<Stage>, n: Native)
    requires forall i, j :: 0 <= i < j < |order| ==> order[i] != order[j]
    ensures LeaveAll(u, order, n).leaves == u.leaves + Among(order, u.entered)
    decreases |order|
  {
    if order != [] {
      LeaveAllOrder(LeaveOne(u, order[0], n), order[1..], n);
      AmongIgnores(order[1..], u.entered, order[0]);
    }
  }

  /** Leaving stage by stage clears exactly the stages whose leave succeeded, in the order given. */
  lemma LeaveAllIs(u: Undo, order: seq<Stage>, n: Native)
    requires forall i, j :: 0 <= i < j < |order| ==> order[i] != order[j]
    ensures LeaveAll(u, order, n).entered == u.entered - Members(order) * n.leaveOk
    ensures LeaveAll(u, order, n).modes == u.modes - u.entered * Members(order) * (n.leaveOk + n.leaveApplied)
    ensures LeaveAll(u, order, n).leaves == u.leaves + Among(order, u.entered)
  {
    LeaveAllEntered(u, order, n);
    LeaveAllModes(u, order, n);
    LeaveAllOrder(u, order, n);
  }

  lemma LeaveAllStages(u: Undo, n: Native)
    ensures LeaveAll(u, RESTORE_STAGES, n)
         == Undo(u.entered - n.leaveOk, u.modes - u.entered * (n.leaveOk + n.leaveApplied),
                 u.leaves + Among(RESTORE_STAGES, u.entered))
  {
    LeaveAllIs(u, RESTORE_STAGES, n);
    forall g: Stage ensures g in Members(RESTORE_STAGES) {
      match g
      case BracketedPaste => assert RESTORE_STAGES[0] == g;
      case HideCursor => assert RESTORE_STAGES[1] == g;
      case AlternateScreen => assert RESTORE_STAGES[2] == g;
      case RawMode => assert RESTORE_STAGES[3] == g;
    }
    assert u.entered - Members(RESTORE_STAGES) * n.leaveOk == u.entered - n.leaveOk;
    assert u.entered * Members(RESTORE_STAGES) == u.entered;
  }

  function Reversed(s: seq<Stage>): seq<Stage> {
    if s == [] then [] else Reversed(s[1..]) + [s[0]]
  }

  lemma {:induction false} AmongConcat(a: seq<Stage>, b: seq<Stage>, entered: set<Stage>)
    ensures Among(a + b, entered) == Among(a, entered) + Among(b, entered)
    decreases |a|
  {
    if a == [] {
      assert a + b == b;
    } else {
      assert (a + b)[0] == a[0] && (a + b)[1..] == a[1..] + b;
      AmongConcat(a[1..], b, entered);
    }
  }

  lemma {:induction false} ReversedConcat(a: seq<Stage>, b: seq<Stage>)
    ensures Reversed(a + b) == Reversed(b) + Reversed(a)
    decreases |a|
  {
    if a == [] {
      assert a + b == b;
    } else {
      assert (a + b)[0] == a[0] && (a + b)[1..] == a[1..] + b;
      ReversedConcat(a[1..], b);
    }
  }

  lemma {:induction false} AmongReversed(order: seq<Stage>, entered: set<Stage>)
    ensures Among(Reversed(order), entered) == Reversed(Among(order, entered))
    decreases |order|
  {
    if order != [] {
      var one := if order[0] in entered then [order[0]] else [];
      AmongReversed(order[1..], entered);
      AmongConcat(Reversed(order[1..]), [order[0]], entered);
      assert Among([order[0]], entered) == one by { assert [order[0]][1..] == []; }
      ReversedConcat(one, Among(order[1..], entered));
      assert Reversed(one) == one by { assert [order[0]][1..] == []; }
    }
  }

  /** Raw mode is the first entered and the last left, and so on: leaves mirror entries, whatever was entered. */
  lemma LeavesMirrorEntries(entered: set<Stage>)
    ensures Among(RESTORE_STAGES, entered) == Reversed(Among(ENTER_STAGES, entered))
    ensures ENTER_STAGES == [RawMode, AlternateScreen, HideCursor, BracketedPaste]
  {
    var s := ENTER_STAGES;
    assert s[1..] == [AlternateScreen, HideCursor, BracketedPaste] && s[2..] == [HideCursor, BracketedPaste];
    assert s[1..][1..] == s[2..] && s[2..][1..] == [BracketedPaste] && [BracketedPaste][1..] == [];
    assert Reversed(s[2..]) == [BracketedPaste, HideCursor];
    assert Reversed(s[1..]) == [BracketedPaste, HideCursor, AlternateScreen];
    assert Reversed(s) == RESTORE_STAGES;
    AmongReversed(s, entered);
  }

  /** The native terminal, with a log of the leave calls it received. */
  class Terminal {
    var modes: set<Stage>
    var page: nat
    ghost var leaves: seq<Stage>

    function Now(): World reads this { World(modes, page) }

    constructor (page: nat)
      ensures Now() == World({}, page) && leaves == []
    {
      this.modes, this.page, this.leaves := {}, page, [];
    }

    method Enter(g: Stage, n: Native) returns (ok: bool)
      modifies this
      ensures ok == n.enterOk && page == old(page) && leaves == old(leaves)
      ensures modes == if n.enterOk || n.enterApplied then old(modes) + {g} else old(modes)
    {
      ok := n.enterOk;
      if n.enterOk || n.enterApplied { modes := modes + {g}; }
    }

    method Leave(g: Stage, n: Native) returns (ok: bool)
      modifies this
      ensures ok == (g in n.leaveOk) && page == old(page) && leaves == old(leaves) + [g]
      ensures modes == old(modes) - {g} * (n.leaveOk + n.leaveApplied)
    {
      ok := g in n.leaveOk;
      if g in n.leaveOk || g in n.leaveApplied { modes := modes - {g}; }
      leaves := leaves + [g];
    }

    /** The call succeeds, fails without effect, or panics. */
    method SetPage(p: nat, n: Native) returns (ok: bool, panicked: bool)
      modifies this
      ensures modes == old(modes) && leaves == old(leaves)
      ensures ok == n.setPage.SetOk? && panicked == n.setPage.SetPanicked?
      ensures page == if n.setPage.SetOk? || (n.setPage.SetPanicked? && n.setPage.applied) then p else old(page)
    {
      ok, panicked := n.setPage.SetOk?, n.setPage.SetPanicked?;
      if ok || (panicked && n.setPage.applied) { page := p; }
    }
  }

  class GuardInner {
    const terminal: Terminal
    const switchable: bool
    var raw: bool
    var alternate: bool
    var cursorHidden: bool
    var bracketedPaste: bool
    var restoreStarted: bool
    var restoreCount: nat
    var cancelled: bool
    var acquired: bool
    var unicode: bool
    var restoreTo: Option<nat>

    function Entered(): set<Stage> reads this {
      (if raw then {RawMode} else {}) + (if alternate then {AlternateScreen} else {})
      + (if cursorHidden then {HideCursor} else {}) + (if bracketedPaste then {BracketedPaste} else {})
    }

    function Model(): Inner reads this {
      Inner(Entered(), cancelled, restoreStarted, restoreCount, Lease(switchable, acquired, unicode, restoreTo))
    }

    constructor (terminal: Terminal, switchable: bool)
      ensures this.terminal == terminal && Model() == NewInner(switchable)
    {
      this.terminal, this.switchable := terminal, switchable;
      raw, alternate, cursorHidden, bracketedPaste := false, false, false, false;
      restoreStarted, restoreCount, cancelled := false, 0, false;
      acquired, unicode, restoreTo := !switchable, !switchable, None;
    }

    method SetEntered(g: Stage, on: bool)
      modifies this`raw, this`alternate, this`cursorHidden, this`bracketedPaste
      ensures Entered() == if on then old(Entered()) + {g} else old(Entered()) - {g}
    {
      match g
      case RawMode => raw := on;
      case AlternateScreen => alternate := on;
      case HideCursor => cursorHidden := on;
      case BracketedPaste => bracketedPaste := on;
    }

    /** The body of `enter_stage` that runs under the terminal-state lock. */
    method EnterStage(g: Stage, n: Native) returns (ok: bool)
      modifies this, terminal
      ensures (Model(), terminal.Now(), ok) == EnterStageSection(old(Model()), old(terminal.Now()), g, n)
    {
      if cancelled { return false; }
      SetEntered(g, true);
      ok := terminal.Enter(g, n);
    }

    ghost function Undoing(): Undo reads this, terminal {
      Undo(Entered(), terminal.modes, terminal.leaves)
    }

    /** One turn of the loop in `restore`. */
    method LeaveStage(g: Stage, n: Native)
      modifies this`raw, this`alternate, this`cursorHidden, this`bracketedPaste, terminal
      ensures Undoing() == LeaveOne(old(Undoing()), g, n) && terminal.page == old(terminal.page)
    {
      if g in Entered() {
        var left := terminal.Leave(g, n);
        if left { SetEntered(g, false); }
      }
    }

    /** The terminal half of `restore`: leaves are attempted in reverse order of entry. */
    method RestoreModes(n: Native) returns (restored: bool)
      modifies this, terminal
      ensures (Model(), terminal.Now(), restored) == RestoreModesSection(old(Model()), old(terminal.Now()), n)
      ensures terminal.leaves == old(terminal.leaves) + Among(RESTORE_STAGES, old(Entered()))
    {
      if Entered() != {} && !restoreStarted {
        restoreStarted := true;
        restoreCount := restoreCount + 1;
      }
      ghost var start := Undoing();
      var k := 0;
      while k < |RESTORE_STAGES|
        modifies this`raw, this`alternate, this`cursorHidden, this`bracketedPaste, terminal
        invariant 0 <= k <= |RESTORE_STAGES|
        invariant terminal.page == old(terminal.page)
        invariant LeaveAll(Undoing(), RESTORE_STAGES[k..], n) == LeaveAll(start, RESTORE_STAGES, n)
      {
        LeaveStage(RESTORE_STAGES[k], n);
        k := k + 1;
      }
      LeaveAllStages(start, n);
      restored := Entered() == {};
    }

    /** `Utf8OutputLease::acquire`. */
    method Acquire(n: Native) returns (panicked: bool)
      modifies this, terminal
      ensures (Model().lease, terminal.Now(), panicked) == AcquireSection(old(Model().lease), old(terminal.Now()), n)
      ensures Model() == old(Model()).(lease := Model().lease) && terminal.leaves == old(terminal.leaves)
    {
      if acquired { return false; }
      if !switchable || !n.glyphs || !n.pageKnown {
        acquired := true;
        return false;
      }
      if terminal.page == CP_UTF8 {
        unicode, acquired := true, true;
        return false;
      }
      restoreTo := Some(terminal.page);
      var ok, unwound := terminal.SetPage(CP_UTF8, n);
      if unwound { return true; }
      if ok { unicode := true; } else { restoreTo := None; }
      acquired := true;
      return false;
    }

    /** `Utf8OutputLease::restore`. */
    method RestoreOutput(n: Native) returns (r: OutputResult)
      modifies this, terminal
      ensures (Model().lease, terminal.Now(), r) == RestoreOutputSection(old(Model().lease), old(terminal.Now()), n)
      ensures Model() == old(Model()).(lease := Model().lease) && terminal.leaves == old(terminal.leaves)
    {
      if restoreTo.None? { return OutputClear; }
      if !switchable { return OutputOwed; }
      var ok, panicked := terminal.SetPage(restoreTo.value, n);
      if panicked { return OutputPanicked; }
      if !ok { return OutputOwed; }
      restoreTo := None;
      return OutputClear;
    }
  }
}
