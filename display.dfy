/** The game screen: eight grid cells, each showing a symbol and possibly
    lit ("active"), the level counter, the level total and the status line.

    A beat's visual update shows the level's grid on beat 0, switches the
    status to the action prompt on beat 8, and lights cell `beat - 8` during
    the action half (beats 8-15), clearing every other cell. */
module Display {
  import opened Settings
  import opened Levels

  /** Number of grid cells on the screen. */
  const CellCount: nat := 8

  /** What a cell shows: nothing yet, a symbol, or the text of a missing
      grid entry (`undefined`). */
  datatype Glyph = Empty | Shown(symbol: Symbol) | Missing

  /** The status line: the preparation prompt, the action prompt, the
      completion message, or whatever the page showed before the first beat. */
  datatype Status = Waiting | Preparing | Action | Complete

  datatype Screen = Screen(
    cells: seq<Glyph>,
    active: seq<bool>,
    levelText: Option<int>,
    totalText: Option<int>,
    status: Status)

  /** `renderGrid(icons)`: cell `k` shows `icons[k]`. */
  function Render(icons: seq<Symbol>): (cells: seq<Glyph>)
    ensures |cells| == CellCount
  {
    seq(CellCount, k requires 0 <= k < CellCount => if k < |icons| then Shown(icons[k]) else Missing)
  }

  /** The active flags after a beat: only cell `beat - 8`, in the action half. */
  function Lit(beat: int): (active: seq<bool>)
    ensures |active| == CellCount
  {
    seq(CellCount, k requires 0 <= k < CellCount => 8 <= beat < 16 && k == beat - 8)
  }

  /** Number of lit cells. */
  function CountTrue(s: seq<bool>): nat {
    if s == [] then 0 else CountTrue(s[..|s| - 1]) + (if s[|s| - 1] then 1 else 0)
  }

  /** A sequence true at exactly position `k` (or nowhere, when `k` is out of
      range) has one true entry (or none). */
  lemma {:induction false} CountSingle(s: seq<bool>, k: int)
    requires forall i :: 0 <= i < |s| ==> (s[i] <==> i == k)
    ensures CountTrue(s) == if 0 <= k < |s| then 1 else 0
  {
    if s != [] {
      var t := s[..|s| - 1];
      assert forall i :: 0 <= i < |t| ==> t[i] == s[i];
      CountSingle(t, k);
    }
  }

  /** Exactly one cell is lit during the action half, at index `beat - 8`,
      so beat 8 lights the first cell and beat 15 the last; none is lit
      during the preparation half. */
  lemma LitCells(beat: int)
    ensures CountTrue(Lit(beat)) == if 8 <= beat < 16 then 1 else 0
    ensures 8 <= beat < 16 ==> Lit(beat)[beat - 8]
  {
    CountSingle(Lit(beat), if 8 <= beat < 16 then beat - 8 else -1);
  }

  /** `handleVisuals` once past its state and level guards: beat 0 writes the
      counters and the prompt, then renders the level's grid, which fails
      (the update stops there) when no level `level` exists; beat 8 writes the
      action prompt; every beat then sets the lit cells. */
  function BeatScreen(s: Screen, levels: seq<LevelPlan>, total: int, level: int, beat: int): (r: Screen)
    ensures beat == 0 ==> r.levelText == Some(level) && r.totalText == Some(total) && r.status == Preparing
    ensures beat != 0 ==> r.levelText == s.levelText && r.totalText == s.totalText
    ensures beat != 0 && beat != 8 ==> r.status == s.status
    ensures beat == 8 ==> r.status == Action
    ensures beat == 0 && 1 <= level <= |levels| ==> r.cells == Render(levels[level - 1].grid)
    ensures beat != 0 || !(1 <= level <= |levels|) ==> r.cells == s.cells
    ensures beat == 0 && !(1 <= level <= |levels|) ==> r.active == s.active
    ensures beat != 0 || 1 <= level <= |levels| ==> r.active == Lit(beat)
  {
    if beat == 0 then
      var prepared := s.(levelText := Some(level), totalText := Some(total), status := Preparing);
      if 1 <= level <= |levels| then prepared.(cells := Render(levels[level - 1].grid), active := Lit(beat))
      else prepared
    else
      var prompted := if beat == 8 then s.(status := Action) else s;
      prompted.(active := Lit(beat))
  }

  /** A cell rendered from a grid of 8 or more shows that grid's entry. */
  lemma RenderShowsGrid(icons: seq<Symbol>, k: nat)
    requires |icons| >= CellCount && k < CellCount
    ensures Render(icons)[k] == Shown(icons[k]) && icons[k] in icons
  {
  }

  /** The DOM elements the game writes to. */
  class Panel {
    const cells: array<Glyph>
    const active: array<bool>
    var levelText: Option<int>
    var totalText: Option<int>
    var status: Status

    ghost predicate Valid()
      reads this
    {
      cells.Length == CellCount && active.Length == CellCount
    }

    function View(): Screen
      reads this, cells, active
    {
      Screen(cells[..], active[..], levelText, totalText, status)
    }

    constructor ()
      ensures Valid()
      ensures View() == Screen(seq(CellCount, _ => Empty), seq(CellCount, _ => false), None, None, Waiting)
    {
      cells := new Glyph[CellCount](_ => Empty);
      active := new bool[CellCount](_ => false);
      levelText, totalText, status := None, None, Waiting;
    }

    /** `renderGrid`: writes every cell from `icons`. */
    method RenderGrid(icons: seq<Symbol>)
      requires Valid()
      modifies cells
      ensures cells[..] == Render(icons)
    {
      for k := 0 to CellCount
        invariant cells[..k] == Render(icons)[..k]
      {
        cells[k] := if k < |icons| then Shown(icons[k]) else Missing;
        assert cells[..k + 1] == cells[..k] + [cells[k]];
      }
      assert cells[..] == cells[..CellCount];
    }

    /** Clears every active flag, then lights cell `beat - 8` in the action half. */
    method Light(beat: int)
      requires Valid()
      modifies active
      ensures active[..] == Lit(beat)
    {
      for k := 0 to CellCount
        invariant forall i :: 0 <= i < k ==> !active[i]
      {
        active[k] := false;
      }
      if 8 <= beat < 16 {
        active[beat - 8] := true;
      }
      assert forall i :: 0 <= i < CellCount ==> active[i] == Lit(beat)[i];
    }

    /** The body of `handleVisuals` past its guards. */
    method ShowBeat(levels: seq<LevelPlan>, total: int, level: int, beat: int)
      requires Valid()
      modifies this, cells, active
      ensures Valid()
      ensures View() == BeatScreen(old(View()), levels, total, level, beat)
    {
      if beat == 0 {
        levelText, totalText, status := Some(level), Some(total), Preparing;
        if !(1 <= level <= |levels|) {
          return;
        }
        RenderGrid(levels[level - 1].grid);
      }
      if beat == 8 {
        status := Action;
      }
      Light(beat);
    }

    /** The status line of `finishGame`. */
    method ShowComplete()
      modifies this
      ensures status == Complete
      ensures levelText == old(levelText) && totalText == old(totalText)
      ensures View() == old(View()).(status := Complete)
    {
      status := Complete;
    }
  }
}
