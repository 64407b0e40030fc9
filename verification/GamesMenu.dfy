// The games menu (src/apps/games_app.c): six stored rows, some hidden by a feature
// gate, walked as a circular list of the visible ones.

module GamesMenu {
  import opened Timebase
  import opened CircularMenu

  const GAMES: nat := 6

  // Which stored rows are shown. The first always is.
  type Gate = g: seq<bool> | |g| == GAMES && g[0] witness seq(GAMES, _ => true)

  // The gate the phone has: the fourth and fifth rows come and go together.
  function ExtraRows(extra: bool): Gate {
    [true, true, true, extra, extra, true]
  }

  // How many of the first n rows are visible.
  function VisibleBelow(gate: Gate, n: nat): (v: nat)
    requires n <= GAMES
    ensures v <= n
  {
    if n == 0 then 0 else VisibleBelow(gate, n - 1) + if gate[n - 1] then 1 else 0
  }

  function VisibleCount(gate: Gate): nat {
    VisibleBelow(gate, GAMES)
  }

  lemma GatedCounts(extra: bool)
    ensures VisibleCount(ExtraRows(extra)) == if extra then 6 else 4
  {
    var gate := ExtraRows(extra);
    assert VisibleBelow(gate, 1) == 1;
    assert VisibleBelow(gate, 2) == 2;
    assert VisibleBelow(gate, 3) == 3;
    assert VisibleBelow(gate, 4) == if extra then 4 else 3;
    assert VisibleBelow(gate, 5) == if extra then 5 else 3;
  }

  predicate IsRawAt(gate: Gate, visible: nat, raw: nat) {
    raw < GAMES && gate[raw] && VisibleBelow(gate, raw) == visible
  }

  // The stored row shown as the visible-th, 0 when there is none.
  function RawAt(gate: Gate, visible: nat): (raw: nat)
    ensures raw < GAMES && gate[raw]
  {
    RawFrom(gate, visible, 0)
  }

  function RawFrom(gate: Gate, visible: nat, from: nat): (raw: nat)
    requires from <= GAMES
    ensures raw < GAMES && gate[raw]
    ensures raw != 0 ==> raw >= from && VisibleBelow(gate, raw) == visible
    decreases GAMES - from
  {
    if from == GAMES then 0
    else if gate[from] && VisibleBelow(gate, from) == visible then from
    else RawFrom(gate, visible, from + 1)
  }

  lemma {:induction false} VisibleGrows(gate: Gate, a: nat, b: nat)
    requires a <= b <= GAMES
    ensures VisibleBelow(gate, a) <= VisibleBelow(gate, b)
    ensures a < b && gate[a] ==> VisibleBelow(gate, a) < VisibleBelow(gate, b)
    decreases b
  {
    if a < b {
      VisibleGrows(gate, a, b - 1);
    }
  }

  lemma {:induction false} RawFound(gate: Gate, visible: nat, from: nat, raw: nat)
    requires from <= raw && IsRawAt(gate, visible, raw)
    ensures RawFrom(gate, visible, from) == raw
    decreases raw - from
  {
    if from < raw {
      if gate[from] {
        VisibleGrows(gate, from, raw);
      }
      RawFound(gate, visible, from + 1, raw);
    }
  }

  // Stored and visible positions are inverse on the visible rows.
  lemma VisibleThenRaw(gate: Gate, raw: nat)
    requires raw < GAMES && gate[raw]
    ensures VisibleBelow(gate, raw) < VisibleCount(gate)
    ensures RawAt(gate, VisibleBelow(gate, raw)) == raw
  {
    VisibleGrows(gate, raw, GAMES);
    RawFound(gate, VisibleBelow(gate, raw), 0, raw);
  }

  lemma {:induction false} RawExists(gate: Gate, visible: nat, n: nat) returns (raw: nat)
    requires n <= GAMES && visible < VisibleBelow(gate, n)
    ensures IsRawAt(gate, visible, raw)
  {
    if gate[n - 1] && VisibleBelow(gate, n - 1) == visible {
      raw := n - 1;
    } else {
      raw := RawExists(gate, visible, n - 1);
    }
  }

  lemma RawThenVisible(gate: Gate, visible: nat)
    requires visible < VisibleCount(gate)
    ensures VisibleBelow(gate, RawAt(gate, visible)) == visible
  {
    var raw := RawExists(gate, visible, GAMES);
    RawFound(gate, visible, 0, raw);
  }

  method CountVisible(gate: Gate) returns (count: u8)
    ensures count == VisibleCount(gate)
  {
    count := 0;
    for i := 0 to GAMES
      invariant count == VisibleBelow(gate, i)
    {
      if gate[i] {
        count := count + 1;
      }
    }
  }

  method RawAtVisible(gate: Gate, visible: u8) returns (raw: u8)
    ensures raw == RawAt(gate, visible)
  {
    var seen := 0;
    for i := 0 to GAMES
      invariant seen == VisibleBelow(gate, i) && seen <= i
      invariant RawAt(gate, visible) == RawFrom(gate, visible, i)
    {
      if !gate[i] {
        continue;
      }
      if seen == visible {
        return i;
      }
      seen := seen + 1;
    }
    raw := 0;
  }

  method VisibleIndex(gate: Gate, raw: u8) returns (visible: u8)
    ensures visible == VisibleBelow(gate, if raw < GAMES then raw else GAMES)
  {
    visible := 0;
    var i := 0;
    while i < raw && i < GAMES
      invariant i <= raw && i <= GAMES && visible == VisibleBelow(gate, i)
    {
      if gate[i] {
        visible := visible + 1;
      }
      i := i + 1;
    }
  }

  function Normalized(gate: Gate, raw: nat): (r: nat)
    ensures r < GAMES && gate[r]
    ensures raw < GAMES && gate[raw] ==> r == raw
  {
    if raw >= GAMES || !gate[raw] then 0 else raw
  }

  // The selection an UP or DOWN press makes.
  function Pressed(gate: Gate, up: bool, raw: nat): (r: nat)
    ensures r < GAMES && gate[r]
  {
    VisibleThenRaw(gate, Normalized(gate, raw));
    RawAt(gate, Moved(VisibleCount(gate), up, VisibleBelow(gate, Normalized(gate, raw))))
  }

  // The selection is a visible row and its window shows it.
  predicate OnScreen(gate: Gate, selected: nat, viewStart: nat) {
    selected < GAMES && gate[selected] && Shown(VisibleCount(gate), VisibleBelow(gate, selected), viewStart)
  }

  class Menu {
    var selected: u8
    const list: List

    constructor ()
      ensures selected == 0 && fresh(list)
    {
      selected := 0;
      list := new List(0, 0);
    }

    method Open(gate: Gate, raw: u8)
      modifies this, list
      ensures selected == Normalized(gate, raw)
      ensures OnScreen(gate, selected, list.viewStart)
    {
      selected := Normalized(gate, raw);
      list.viewStart := VisibleIndex(gate, selected);
      VisibleThenRaw(gate, selected);
    }

    // The gate may have changed since the selection was stored.
    method Press(gate: Gate, up: bool)
      modifies this, list
      ensures selected == Pressed(gate, up, old(selected))
      ensures OnScreen(gate, selected, list.viewStart)
    {
      var count := CountVisible(gate);
      var at := VisibleIndex(gate, Normalized(gate, selected));
      VisibleThenRaw(gate, Normalized(gate, selected));
      list.selected := at;
      list.Step(count, if up then -1 else 1);
      RawThenVisible(gate, list.selected);
      selected := RawAtVisible(gate, list.selected);
    }
  }

  // --- Walking the whole menu ---

  // The selection after n presses of DOWN.
  function Down(gate: Gate, raw: nat, n: nat): nat {
    if n == 0 then raw else Pressed(gate, false, Down(gate, raw, n - 1))
  }

  // n places further round the list.
  function Ahead(count: nat, k: nat, n: nat): (r: nat)
    requires k < count && n <= count
    ensures r < count
  {
    if k + n < count then k + n else k + n - count
  }

  lemma PressPosition(gate: Gate, raw: nat)
    requires raw < GAMES && gate[raw]
    ensures VisibleBelow(gate, raw) < VisibleCount(gate)
    ensures VisibleBelow(gate, Pressed(gate, false, raw)) == Next(VisibleCount(gate), VisibleBelow(gate, raw))
  {
    VisibleThenRaw(gate, raw);
    RawThenVisible(gate, Next(VisibleCount(gate), VisibleBelow(gate, raw)));
  }

  lemma PressAhead(gate: Gate, k: nat, n: nat, at: nat)
    requires at < GAMES && gate[at] && k < VisibleCount(gate) && 0 < n <= VisibleCount(gate)
    requires VisibleBelow(gate, at) == Ahead(VisibleCount(gate), k, n - 1)
    ensures VisibleBelow(gate, Pressed(gate, false, at)) == Ahead(VisibleCount(gate), k, n)
  {
    PressPosition(gate, at);
  }

  lemma {:induction false} DownPosition(gate: Gate, raw: nat, n: nat)
    requires raw < GAMES && gate[raw] && n <= VisibleCount(gate)
    ensures var r, k := Down(gate, raw, n), VisibleBelow(gate, raw);
      && r < GAMES && gate[r] && k < VisibleCount(gate)
      && VisibleBelow(gate, r) == Ahead(VisibleCount(gate), k, n)
  {
    if n == 0 {
      VisibleThenRaw(gate, raw);
    } else {
      DownPosition(gate, raw, n - 1);
      PressAhead(gate, VisibleBelow(gate, raw), n, Down(gate, raw, n - 1));
    }
  }

  // As many presses as there are visible games come back to the start, ...
  lemma FullTurn(gate: Gate, raw: nat)
    requires raw < GAMES && gate[raw]
    ensures Down(gate, raw, VisibleCount(gate)) == raw
  {
    DownPosition(gate, raw, VisibleCount(gate));
    VisibleThenRaw(gate, raw);
    VisibleThenRaw(gate, Down(gate, raw, VisibleCount(gate)));
  }

  // ... no game being met twice on the way, ...
  lemma NoneTwice(gate: Gate, raw: nat, i: nat, j: nat)
    requires raw < GAMES && gate[raw] && i < j < VisibleCount(gate)
    ensures Down(gate, raw, i) != Down(gate, raw, j)
  {
    VisibleThenRaw(gate, raw);
    DownPosition(gate, raw, i);
    DownPosition(gate, raw, j);
  }

  // ... and every visible one being met.
  lemma EachMet(gate: Gate, raw: nat, game: nat) returns (n: nat)
    requires raw < GAMES && gate[raw] && game < GAMES && gate[game]
    ensures n < VisibleCount(gate) && Down(gate, raw, n) == game
  {
    var k, g := VisibleBelow(gate, raw), VisibleBelow(gate, game);
    VisibleThenRaw(gate, raw);
    VisibleThenRaw(gate, game);
    n := if g >= k then g - k else g + VisibleCount(gate) - k;
    DownPosition(gate, raw, n);
    VisibleThenRaw(gate, Down(gate, raw, n));
  }
}
