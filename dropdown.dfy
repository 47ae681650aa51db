/**
 * The instrument dropdown of components/dropdown.go: a selector box that a
 * press toggles open and closed, and, while open, one option row per option
 * below it. Pressing a row selects it and closes the list; the change handler
 * runs only when the selection actually changes.
 */
module DropdownWidget {
  import opened Wrappers
  import opened Geometry

  /** Height of the selector box and of every option row. */
  const RowHeight: real := 26.0

  /** Option row `i`: directly below the selector, at its x and width, 26 high. */
  function OptionRect(r: Rect, i: nat): Rect
  {
    Rect(r.x, r.y + r.height + (i as real) * RowHeight, r.width, RowHeight)
  }

  /** Option rows never overlap, so a point lies in at most one of them. */
  lemma {:induction false} OptionRowsDisjoint(r: Rect, i: nat, j: nat, p: Vec2)
    requires Contains(OptionRect(r, i), p) && Contains(OptionRect(r, j), p)
    ensures i == j
  {
  }

  /** The first of the option rows `from`..`n`-1 under `p`, if any. */
  function FirstRowAt(r: Rect, n: nat, p: Vec2, from: nat): (hit: Option<nat>)
    ensures hit.Some? ==> from <= hit.value < n && Contains(OptionRect(r, hit.value), p)
    ensures hit.None? ==> forall i: nat :: from <= i < n ==> !Contains(OptionRect(r, i), p)
    decreases n - from
  {
    if from >= n then None
    else if Contains(OptionRect(r, from), p) then Some(from)
    else FirstRowAt(r, n, p, from + 1)
  }

  /** The option row of an `n`-option list under `p`, if any. */
  function RowAt(r: Rect, n: nat, p: Vec2): Option<nat>
  {
    FirstRowAt(r, n, p, 0)
  }

  /** `RowAt` finds row `i` exactly when `i` is an option whose row holds the point. */
  lemma RowAtIff(r: Rect, n: nat, p: Vec2, i: nat)
    ensures RowAt(r, n, p) == Some(i) <==> i < n && Contains(OptionRect(r, i), p)
  {
    var hit := RowAt(r, n, p);
    if i < n && Contains(OptionRect(r, i), p) {
      assert hit.Some?;
      OptionRowsDisjoint(r, hit.value, i, p);
    }
  }

  /** The dropdown's state after a frame, and the index passed to the change handler, if it runs. */
  datatype Transition = Transition(selected: int, isOpen: bool, changed: Option<int>)

  /** One frame of `Dropdown.Update` on the selected index and the open flag. */
  function Next(selected: int, isOpen: bool, r: Rect, n: nat, p: Pointer): Transition
  {
    if Contains(r, p.pos) && p.pressed then
      Transition(selected, !isOpen, None)
    else if isOpen then
      var hit := if p.pressed then RowAt(r, n, p.pos) else None;
      match hit
      case Some(i) => Transition(i, false, if selected != i then Some(i) else None)
      case None => Transition(selected, isOpen && !p.pressed, None)
    else
      Transition(selected, isOpen, None)
  }

  /** A press on the selector toggles the list, either way, and selects nothing. */
  lemma SelectorPressToggles(selected: int, isOpen: bool, r: Rect, n: nat, p: Pointer)
    requires Contains(r, p.pos) && p.pressed
    ensures Next(selected, isOpen, r, n, p) == Transition(selected, !isOpen, None)
  {
  }

  /** While open, a press on option row `i` (off the selector) selects `i` and closes the list. */
  lemma {:induction false} OptionPressSelects(selected: int, r: Rect, n: nat, p: Pointer, i: nat)
    requires !Contains(r, p.pos) && p.pressed
    requires i < n && Contains(OptionRect(r, i), p.pos)
    ensures Next(selected, true, r, n, p).selected == i
    ensures !Next(selected, true, r, n, p).isOpen
  {
    RowAtIff(r, n, p.pos, i);
  }

  /** The handler runs, with the new index, exactly when the selection changes. */
  lemma ChangeFiresIffSelectionChanges(selected: int, isOpen: bool, r: Rect, n: nat, p: Pointer)
    ensures var t := Next(selected, isOpen, r, n, p);
      && (t.changed.Some? <==> t.selected != selected)
      && (t.changed.Some? ==> t.changed.value == t.selected)
  {
  }

  /** Any press while open that misses the selector leaves the list closed, whatever it hit. */
  lemma PressElsewhereCloses(selected: int, r: Rect, n: nat, p: Pointer)
    requires !Contains(r, p.pos) && p.pressed
    ensures !Next(selected, true, r, n, p).isOpen
  {
  }

  /** A frame without a press changes nothing and runs no handler. */
  lemma NoPressNoChange(selected: int, isOpen: bool, r: Rect, n: nat, p: Pointer)
    requires !p.pressed
    ensures Next(selected, isOpen, r, n, p) == Transition(selected, isOpen, None)
  {
  }

  /** Only option indices are ever selected, so a valid selection stays valid. */
  lemma SelectionStaysValid(selected: int, isOpen: bool, r: Rect, n: nat, p: Pointer)
    requires 0 <= selected < n
    ensures 0 <= Next(selected, isOpen, r, n, p).selected < n
  {
  }

  /** The dropdown widget (components/dropdown.go `Dropdown`). */
  class Dropdown {
    var rect: Rect
    var options: seq<string>
    var selectedIndex: int
    var isOpen: bool
    var labelText: string
    /** Whether an `OnChangeHandler` is installed (the handler itself is the caller's code). */
    var hasHandler: bool

    /** The selected index points at an option. */
    ghost predicate Valid()
      reads this
    {
      0 <= selectedIndex < |options|
    }

    /** A closed dropdown with the first option selected and a 26-high selector box. */
    constructor NewDropdown(x: real, y: real, width: real, options: seq<string>, labelText: string)
      ensures rect == Rect(x, y, width, RowHeight)
      ensures this.options == options && this.labelText == labelText
      ensures selectedIndex == 0 && !isOpen && !hasHandler
      ensures options != [] ==> Valid()
    {
      rect := Rect(x, y, width, RowHeight);
      this.options := options;
      selectedIndex := 0;
      isOpen := false;
      this.labelText := labelText;
      hasHandler := false;
    }

    /** Installs the change handler, or removes it when `installed` is false (a nil handler). */
    method SetOnChangeHandler(installed: bool)
      modifies this`hasHandler
      ensures hasHandler == installed
    {
      hasHandler := installed;
    }

    /** The selected option; an out-of-range index would make the source panic. */
    function GetSelectedOption(): (s: string)
      reads this
      requires Valid()
      ensures s in options
    {
      options[selectedIndex]
    }

    /**
     * Processes one frame of pointer input. Returns the index the change
     * handler is called with, when there is a handler and it is called.
     */
    method Update(p: Pointer) returns (fired: Option<int>)
      modifies this`selectedIndex, this`isOpen
      ensures var t := Next(old(selectedIndex), old(isOpen), rect, |options|, p);
        selectedIndex == t.selected && isOpen == t.isOpen &&
        fired == (if hasHandler then t.changed else None)
      ensures old(Valid()) ==> Valid()
    {
      fired := None;
      if Contains(rect, p.pos) && p.pressed {
        isOpen := !isOpen;
      } else if isOpen {
        var i := 0;
        while i < |options|
          invariant 0 <= i <= |options|
          invariant p.pressed ==> FirstRowAt(rect, |options|, p.pos, 0) == FirstRowAt(rect, |options|, p.pos, i)
          invariant selectedIndex == old(selectedIndex) && isOpen && fired == None
        {
          var optionRect := OptionRect(rect, i);
          if Contains(optionRect, p.pos) && p.pressed {
            if selectedIndex != i {
              selectedIndex := i;
              if hasHandler {
                fired := Some(i);
              }
            }
            isOpen := false;
            break;
          }
          i := i + 1;
        }
        if p.pressed {
          isOpen := false;
        }
      }
    }
  }
}
