// A circular list shown three rows at a time (include/ui/ui.h) over a menu some of
// whose rows are hidden (src/apps/games_app.c).

module CircularMenu {
  import opened Timebase

  const VIEW_ROWS: nat := 3

  // How far below the top of the window the selection is.
  function Row(count: nat, selected: nat, view: nat): nat
    requires selected < count && view < count
  {
    if selected >= view then selected - view else selected + count - view
  }

  predicate Shown(count: nat, selected: nat, view: nat) {
    selected < count && view < count && Row(count, selected, view) < VIEW_ROWS
  }

  function Next(count: nat, k: nat): nat
    requires k < count
  {
    if k == count - 1 then 0 else k + 1
  }

  function Previous(count: nat, k: nat): nat
    requires k < count
  {
    if k == 0 then count - 1 else k - 1
  }

  // What a step makes of any stored selection: stale ones start from the top.
  function Moved(count: nat, up: bool, selected: nat): nat
    requires count > 0
  {
    var s := if selected >= count then 0 else selected;
    if up then Previous(count, s) else Next(count, s)
  }

  // The window follows only at its edge, and only when the list does not fit it.
  function Window(count: nat, up: bool, selected: nat, view: nat): nat
    requires count > 0
  {
    var s := if selected >= count then 0 else selected;
    var v := if view >= count || Row(count, s, view) >= VIEW_ROWS then s else view;
    var row := Row(count, s, v);
    if up then (if count > VIEW_ROWS && row == 0 then Previous(count, v) else v)
    else (if count > VIEW_ROWS && row == VIEW_ROWS - 1 then Next(count, v) else v)
  }

  lemma NextIsMod(count: nat, k: nat)
    requires k < count
    ensures Next(count, k) == (k + 1) % count
  {}

  lemma RowIsMod(count: nat, selected: nat, view: nat)
    requires selected < count && view < count
    ensures (selected + count - view) % count == Row(count, selected, view)
  {
    if selected >= view {
      assert (selected - view + count) % count == selected - view;
    }
  }

  lemma PreviousNext(count: nat, k: nat)
    requires k < count
    ensures Previous(count, Next(count, k)) == k && Next(count, Previous(count, k)) == k
  {}

  // From any stored selection and window, one step shows the selection.
  lemma StepShows(count: nat, up: bool, selected: nat, view: nat)
    requires count > 0
    ensures Shown(count, Moved(count, up, selected), Window(count, up, selected, view))
  {
    var s := if selected >= count then 0 else selected;
    var v := if view >= count || Row(count, s, view) >= VIEW_ROWS then s else view;
  }

  // A selection already in the window moves inside it whenever it can, and otherwise
  // stays on the row at the edge.
  lemma StepIsLazy(count: nat, up: bool, selected: nat, view: nat)
    requires count > VIEW_ROWS && Shown(count, selected, view)
    ensures var row, w := Row(count, selected, view), Window(count, up, selected, view);
      && (row == (if up then 0 else VIEW_ROWS - 1) <==> w != view)
      && Row(count, Moved(count, up, selected), w) ==
           if up then (if row == 0 then 0 else row - 1) else if row == 2 then 2 else row + 1
  {
  }

  // A step up undoes a step down.
  lemma UpUndoesDown(count: nat, selected: nat)
    requires selected < count
    ensures Moved(count, true, Moved(count, false, selected)) == selected
  {
    PreviousNext(count, selected);
  }

  class List {
    var selected: u8
    var viewStart: u8

    constructor (selected: u8, viewStart: u8)
      ensures this.selected == selected && this.viewStart == viewStart
    {
      this.selected, this.viewStart := selected, viewStart;
    }

    // ui_circular_list_step_3rows; direction is negative for up.
    method Step(count: u8, direction: int)
      modifies this
      ensures count == 0 || direction == 0 ==> selected == old(selected) && viewStart == old(viewStart)
      ensures count > 0 && direction != 0 ==>
        && selected == Moved(count, direction < 0, old(selected))
        && viewStart == Window(count, direction < 0, old(selected), old(viewStart))
        && Shown(count, selected, viewStart)
    {
      if count == 0 || direction == 0 {
        return;
      }
      StepShows(count, direction < 0, selected, viewStart);
      if selected >= count {
        selected := 0;
      }
      if viewStart >= count {
        viewStart := selected;
      }
      RowIsMod(count, selected, viewStart);
      var row := (selected + count - viewStart) % count;
      if row >= VIEW_ROWS {
        viewStart := selected;
        row := 0;
      }
      if direction < 0 {
        selected := if selected == 0 then count - 1 else selected - 1;
        if count > VIEW_ROWS && row == 0 {
          viewStart := if viewStart == 0 then count - 1 else viewStart - 1;
        }
        return;
      }
      NextIsMod(count, selected);
      NextIsMod(count, viewStart);
      selected := (selected + 1) % count;
      if count > VIEW_ROWS && row == 2 {
        viewStart := (viewStart + 1) % count;
      }
    }
  }
}
