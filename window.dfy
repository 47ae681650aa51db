/**
 * The floating-panel kernel of models/window.go: one pointer sample per frame
 * moves focus, starts, continues or ends a resize, starts, continues or ends
 * a header drag, and scrolls.
 *
 * The frame's effect on one panel is specified by the pure function `Step`,
 * built from one function per phase in the order the source runs them;
 * `Window.Update` is the in-place version and is proved to agree with it.
 */
module Windows {
  import opened Wrappers
  import opened Geometry
  import opened Models

  /** Height of the header strip that starts a drag. */
  const HeaderHeight: real := 30.0
  /** Smallest width and height a resize leaves. */
  const MinSize: real := 100.0
  /** Scroll distance per wheel unit. */
  const WheelStep: real := 20.0

  /** The pointer cursor the kernel asks the windowing library for. */
  datatype Cursor = DefaultCursor | ResizeNWSE | ResizeEW | ResizeNS

  function HeaderRect(r: Rect): Rect
  {
    Rect(r.x, r.y, r.width, HeaderHeight)
  }

  /** The `hs`-square at the bottom-right corner (resize direction 1). */
  function CornerHandle(r: Rect, hs: real): Rect
  {
    Rect(r.x + r.width - hs, r.y + r.height - hs, hs, hs)
  }

  /** The strip astride the right edge, below the header and above the corner (direction 2). */
  function RightEdgeHandle(r: Rect, hs: real): Rect
  {
    Rect(r.x + r.width - hs / 2.0, r.y + HeaderHeight, hs, r.height - HeaderHeight - hs)
  }

  /** The strip astride the bottom edge, left of the corner (direction 3). */
  function BottomEdgeHandle(r: Rect, hs: real): Rect
  {
    Rect(r.x, r.y + r.height - hs / 2.0, r.width - hs, hs)
  }

  /** The resize direction of the handle under `p`, 0 for none; earlier handles win. */
  function HandleAt(r: Rect, hs: real, p: Vec2): int
  {
    if Contains(CornerHandle(r, hs), p) then 1
    else if Contains(RightEdgeHandle(r, hs), p) then 2
    else if Contains(BottomEdgeHandle(r, hs), p) then 3
    else 0
  }

  function CursorFor(dir: int): Cursor
  {
    if dir == 1 then ResizeNWSE
    else if dir == 2 then ResizeEW
    else if dir == 3 then ResizeNS
    else DefaultCursor
  }

  /**
   * One frame of an active resize: the dragged edges follow the pointer, and
   * the size is then clamped to the minimum.
   */
  function Resize(r: Rect, dir: int, p: Vec2): (r': Rect)
    ensures r'.x == r.x && r'.y == r.y
    ensures r'.width >= MinSize && r'.height >= MinSize
    ensures (dir == 1 || dir == 2) && p.x - r.x >= MinSize ==> r'.x + r'.width == p.x
    ensures (dir == 1 || dir == 2) && p.x - r.x < MinSize ==> r'.width == MinSize
    ensures (dir == 1 || dir == 3) && p.y - r.y >= MinSize ==> r'.y + r'.height == p.y
    ensures (dir == 1 || dir == 3) && p.y - r.y < MinSize ==> r'.height == MinSize
    ensures dir != 1 && dir != 2 ==> r'.width == Max(r.width, MinSize)
    ensures dir != 1 && dir != 3 ==> r'.height == Max(r.height, MinSize)
  {
    var moved :=
      if dir == 1 then r.(width := p.x - r.x, height := p.y - r.y)
      else if dir == 2 then r.(width := p.x - r.x)
      else if dir == 3 then r.(height := p.y - r.y)
      else r;
    var clampedWidth := if moved.width < MinSize then moved.(width := MinSize) else moved;
    if clampedWidth.height < MinSize then clampedWidth.(height := MinSize) else clampedWidth
  }

  /** Position and drag state: the part of a panel that the old kernel in main.go also has. */
  datatype Grab = Grab(rect: Rect, isDragging: bool, dragOffset: Vec2)

  datatype DragOutcome = DragOutcome(grab: Grab, focus: bool)

  /**
   * The drag part of a frame: a press inside `header` grabs the panel at the
   * pointer; while the button is held the grabbed point follows the pointer;
   * a frame without the button ends the drag.
   */
  function DragPhase(g: Grab, header: Rect, p: Pointer): (o: DragOutcome)
    ensures o.focus <==> Contains(header, p.pos) && p.pressed
    ensures o.focus ==> o.grab.dragOffset == Vec2(p.pos.x - g.rect.x, p.pos.y - g.rect.y)
    ensures !o.focus ==> o.grab.dragOffset == g.dragOffset
    ensures o.grab.isDragging <==> (g.isDragging || o.focus) && p.down
    ensures o.grab.isDragging ==>
      o.grab.rect.x + o.grab.dragOffset.x == p.pos.x && o.grab.rect.y + o.grab.dragOffset.y == p.pos.y
    ensures !o.grab.isDragging ==> o.grab.rect == g.rect
    ensures o.grab.rect.width == g.rect.width && o.grab.rect.height == g.rect.height
  {
    var started := Contains(header, p.pos) && p.pressed;
    var grabbed :=
      if started then g.(isDragging := true, dragOffset := Vec2(p.pos.x - g.rect.x, p.pos.y - g.rect.y))
      else g;
    var moved :=
      if !grabbed.isDragging then grabbed
      else if p.down then
        grabbed.(rect := grabbed.rect.(x := p.pos.x - grabbed.dragOffset.x, y := p.pos.y - grabbed.dragOffset.y))
      else grabbed.(isDragging := false);
    DragOutcome(moved, started)
  }

  /**
   * The wheel part of a frame: with the pointer inside `r` and a non-zero
   * wheel, the scroll position moves by 20 per unit against the wheel and is
   * clamped first at 0 and then at `maxScroll`; otherwise it is left as is,
   * not even re-clamped.
   */
  function ScrollPhase(scroll: real, maxScroll: real, r: Rect, p: Pointer): (s: real)
    ensures !(Contains(r, p.pos) && p.wheel != 0.0) ==> s == scroll
    ensures Contains(r, p.pos) && p.wheel != 0.0 && 0.0 <= maxScroll ==> 0.0 <= s <= maxScroll
    ensures Contains(r, p.pos) && p.wheel != 0.0 && 0.0 <= scroll - p.wheel * WheelStep <= maxScroll
            ==> s == scroll - p.wheel * WheelStep
    ensures Contains(r, p.pos) && p.wheel != 0.0 && scroll - p.wheel * WheelStep < 0.0 <= maxScroll ==> s == 0.0
    ensures Contains(r, p.pos) && p.wheel != 0.0 && scroll - p.wheel * WheelStep > maxScroll ==> s == maxScroll
    ensures Contains(r, p.pos) && p.wheel != 0.0 && maxScroll < 0.0 ==> s == maxScroll
  {
    if Contains(r, p.pos) && p.wheel != 0.0 then
      var moved := scroll - p.wheel * WheelStep;
      var atLeastZero := if moved < 0.0 then 0.0 else moved;
      if atLeastZero > maxScroll then maxScroll else atLeastZero
    else scroll
  }

  /** The per-frame state of a panel that `Update` changes, apart from focus. */
  datatype Motion = Motion(grab: Grab, isResizing: bool, resizeDir: int, scroll: real)

  datatype ResizeOutcome = ResizeOutcome(motion: Motion, focus: bool, cursor: Option<Cursor>)

  /**
   * The resize part of a frame: continue or end an active resize, or, when
   * neither resizing nor dragging, hit-test the handles (choosing the cursor)
   * and begin a resize on a press.
   */
  function ResizePhase(m: Motion, hs: real, p: Pointer): ResizeOutcome
  {
    if m.isResizing then
      if p.down then
        ResizeOutcome(m.(grab := m.grab.(rect := Resize(m.grab.rect, m.resizeDir, p.pos))), false, None)
      else
        ResizeOutcome(m.(isResizing := false, resizeDir := 0), false, None)
    else if !m.grab.isDragging then
      var dir := HandleAt(m.grab.rect, hs, p.pos);
      if dir != 0 && p.pressed then
        ResizeOutcome(m.(isResizing := true, resizeDir := dir), true, Some(CursorFor(dir)))
      else
        ResizeOutcome(m, false, Some(CursorFor(dir)))
    else
      ResizeOutcome(m, false, None)
  }

  /** The effect of one frame on one panel: its new motion state, whether it takes focus, and the cursor it sets, if any. */
  datatype Outcome = Outcome(motion: Motion, focus: bool, cursor: Option<Cursor>)

  /**
   * One frame of `Update`: header and handles are computed from the rectangle
   * at the start of the frame; the wheel test uses the rectangle after this
   * frame's resize and drag.
   */
  function Step(m: Motion, hs: real, maxScroll: real, p: Pointer): Outcome
  {
    var start := m.grab.rect;
    var clicked := Contains(start, p.pos) && p.pressed;
    var rs := ResizePhase(m, hs, p);
    var dr := DragPhase(rs.motion.grab, HeaderRect(start), p);
    var s := ScrollPhase(rs.motion.scroll, maxScroll, dr.grab.rect, p);
    Outcome(Motion(dr.grab, rs.motion.isResizing, rs.motion.resizeDir, s), clicked || rs.focus || dr.focus, rs.cursor)
  }

  /** The frames a panel goes through, one pointer sample each, with a fixed `maxScroll`. */
  function Run(m: Motion, hs: real, maxScroll: real, ps: seq<Pointer>): Motion
    decreases |ps|
  {
    if ps == [] then m else Run(Step(m, hs, maxScroll, ps[0]).motion, hs, maxScroll, ps[1..])
  }

  predicate MinSized(r: Rect)
  {
    r.width >= MinSize && r.height >= MinSize
  }

  /**
   * The mode invariant: never dragging and resizing at once, and a resize
   * direction 1..3 exactly while resizing (0 otherwise).
   */
  predicate Coherent(m: Motion)
  {
    && !(m.grab.isDragging && m.isResizing)
    && (m.isResizing ==> 1 <= m.resizeDir <= 3)
    && (!m.isResizing ==> m.resizeDir == 0)
  }

  /** Handles small enough that none of them reaches into the header of a panel of minimum size. */
  predicate HandleFits(hs: real)
  {
    0.0 <= hs <= MinSize - HeaderHeight
  }

  // ----- Properties of one frame -----

  /** A press inside the panel always gives it focus. */
  lemma PressInsideFocuses(m: Motion, hs: real, maxScroll: real, p: Pointer)
    requires Contains(m.grab.rect, p.pos) && p.pressed
    ensures Step(m, hs, maxScroll, p).focus
  {
  }

  /** Focus is only ever taken on a press. */
  lemma FocusNeedsPress(m: Motion, hs: real, maxScroll: real, p: Pointer)
    requires Step(m, hs, maxScroll, p).focus
    ensures p.pressed
  {
  }

  /** While a resize is held, the panel ends the frame at least 100 by 100, wherever the pointer is. */
  lemma {:induction false} HeldResizeKeepsMinimum(m: Motion, hs: real, maxScroll: real, p: Pointer)
    requires m.isResizing && p.down
    ensures MinSized(Step(m, hs, maxScroll, p).motion.grab.rect)
  {
    var rs := ResizePhase(m, hs, p);
    assert MinSized(rs.motion.grab.rect);
  }

  /** Size changes only in a frame that continues a resize; dragging never changes it. */
  lemma SizeChangesOnlyWhileResizing(m: Motion, hs: real, maxScroll: real, p: Pointer)
    requires !(m.isResizing && p.down)
    ensures Step(m, hs, maxScroll, p).motion.grab.rect.width == m.grab.rect.width
    ensures Step(m, hs, maxScroll, p).motion.grab.rect.height == m.grab.rect.height
  {
  }

  /** A panel of at least minimum size keeps it. */
  lemma StepKeepsMinimum(m: Motion, hs: real, maxScroll: real, p: Pointer)
    requires MinSized(m.grab.rect)
    ensures MinSized(Step(m, hs, maxScroll, p).motion.grab.rect)
  {
    if m.isResizing && p.down {
      HeldResizeKeepsMinimum(m, hs, maxScroll, p);
    } else {
      SizeChangesOnlyWhileResizing(m, hs, maxScroll, p);
    }
  }

  /** Resizing never moves the panel: the origin changes only by dragging. */
  lemma ResizeKeepsOrigin(m: Motion, hs: real, maxScroll: real, p: Pointer)
    requires !Step(m, hs, maxScroll, p).motion.grab.isDragging
    ensures Step(m, hs, maxScroll, p).motion.grab.rect.x == m.grab.rect.x
    ensures Step(m, hs, maxScroll, p).motion.grab.rect.y == m.grab.rect.y
  {
  }

  /** Releasing the button during a resize ends it and resets the direction. */
  lemma ReleaseEndsResize(m: Motion, hs: real, maxScroll: real, p: Pointer)
    requires m.isResizing && !p.down
    ensures !Step(m, hs, maxScroll, p).motion.isResizing
    ensures Step(m, hs, maxScroll, p).motion.resizeDir == 0
  {
  }

  /**
   * A press with neither resize nor drag active begins a resize on the handle
   * under the pointer, corner first, then right edge, then bottom edge, and
   * takes focus; off the handles it begins none.
   */
  lemma PressOnHandleBeginsResize(m: Motion, hs: real, maxScroll: real, p: Pointer)
    requires !m.isResizing && !m.grab.isDragging && p.pressed
    ensures var o := Step(m, hs, maxScroll, p);
      && (Contains(CornerHandle(m.grab.rect, hs), p.pos) ==> o.motion.isResizing && o.motion.resizeDir == 1 && o.focus)
      && (!Contains(CornerHandle(m.grab.rect, hs), p.pos) && Contains(RightEdgeHandle(m.grab.rect, hs), p.pos)
          ==> o.motion.isResizing && o.motion.resizeDir == 2 && o.focus)
      && (!Contains(CornerHandle(m.grab.rect, hs), p.pos) && !Contains(RightEdgeHandle(m.grab.rect, hs), p.pos)
          && Contains(BottomEdgeHandle(m.grab.rect, hs), p.pos)
          ==> o.motion.isResizing && o.motion.resizeDir == 3 && o.focus)
      && (!Contains(CornerHandle(m.grab.rect, hs), p.pos) && !Contains(RightEdgeHandle(m.grab.rect, hs), p.pos)
          && !Contains(BottomEdgeHandle(m.grab.rect, hs), p.pos)
          ==> !o.motion.isResizing && o.cursor == Some(DefaultCursor))
  {
  }

  /** A drag in progress keeps a resize from beginning, and no cursor is set. */
  lemma NoResizeWhileDragging(m: Motion, hs: real, maxScroll: real, p: Pointer)
    requires m.grab.isDragging && !m.isResizing
    ensures !Step(m, hs, maxScroll, p).motion.isResizing
    ensures Step(m, hs, maxScroll, p).cursor == None
  {
  }

  /**
   * A press in the header grabs the panel: it drags, remembers the pointer's
   * offset from the origin, takes focus, and does not move in this frame.
   */
  lemma {:induction false} PressInHeaderGrabs(m: Motion, hs: real, maxScroll: real, p: Pointer)
    requires WellFormed(p) && p.pressed && Contains(HeaderRect(m.grab.rect), p.pos)
    ensures var o := Step(m, hs, maxScroll, p);
      && o.motion.grab.isDragging && o.focus
      && o.motion.grab.dragOffset == Vec2(p.pos.x - m.grab.rect.x, p.pos.y - m.grab.rect.y)
      && o.motion.grab.rect.x == m.grab.rect.x && o.motion.grab.rect.y == m.grab.rect.y
  {
    var rs := ResizePhase(m, hs, p);
    assert rs.motion.grab.rect.x == m.grab.rect.x && rs.motion.grab.rect.y == m.grab.rect.y;
  }

  /** While a drag holds, the grabbed point stays under the pointer. */
  lemma DragKeepsGrabPoint(m: Motion, hs: real, maxScroll: real, p: Pointer)
    requires Step(m, hs, maxScroll, p).motion.grab.isDragging
    ensures p.down
    ensures var g := Step(m, hs, maxScroll, p).motion.grab;
      g.rect.x + g.dragOffset.x == p.pos.x && g.rect.y + g.dragOffset.y == p.pos.y
  {
  }

  /** A frame without the button ends every drag and every resize. */
  lemma ReleaseIdles(m: Motion, hs: real, maxScroll: real, p: Pointer)
    requires WellFormed(p) && !p.down
    ensures !Step(m, hs, maxScroll, p).motion.isResizing
    ensures !Step(m, hs, maxScroll, p).motion.grab.isDragging
  {
  }

  /**
   * The wheel moves the scroll position only with the pointer inside the
   * panel (as placed after this frame's drag), and then keeps it in
   * [0, maxScroll].
   */
  lemma ScrollStaysClamped(m: Motion, hs: real, maxScroll: real, p: Pointer)
    requires 0.0 <= maxScroll
    ensures var o := Step(m, hs, maxScroll, p);
      && (Contains(o.motion.grab.rect, p.pos) && p.wheel != 0.0 ==> 0.0 <= o.motion.scroll <= maxScroll)
      && (!(Contains(o.motion.grab.rect, p.pos) && p.wheel != 0.0) ==> o.motion.scroll == m.scroll)
  {
  }

  /** No handle reaches into the header while the panel is at least minimum size. */
  lemma {:induction false} HandlesMissHeader(r: Rect, hs: real, p: Vec2)
    requires MinSized(r) && HandleFits(hs)
    requires HandleAt(r, hs, p) != 0
    ensures !Contains(HeaderRect(r), p)
  {
    if Contains(CornerHandle(r, hs), p) {
      assert p.y >= r.y + r.height - hs;
    } else if Contains(RightEdgeHandle(r, hs), p) {
      assert p.y >= r.y + HeaderHeight;
    } else {
      assert p.y >= r.y + r.height - hs / 2.0;
    }
  }

  /**
   * One frame keeps the modes coherent, provided the button is not pressed
   * anew during a resize (it is held throughout one).
   */
  lemma {:induction false} StepKeepsCoherent(m: Motion, hs: real, maxScroll: real, p: Pointer)
    requires Coherent(m) && MinSized(m.grab.rect) && HandleFits(hs)
    requires WellFormed(p) && (p.pressed ==> !m.isResizing)
    ensures Coherent(Step(m, hs, maxScroll, p).motion)
  {
    var start := m.grab.rect;
    var rs := ResizePhase(m, hs, p);
    var dr := DragPhase(rs.motion.grab, HeaderRect(start), p);
    if !m.isResizing && !m.grab.isDragging && rs.motion.isResizing {
      assert HandleAt(start, hs, p.pos) != 0;
      HandlesMissHeader(start, hs, p.pos);
      assert !dr.focus;
    }
  }

  /**
   * Without its size premises `StepKeepsCoherent` fails: when a handle
   * reaches into the header, one press begins a resize and a drag together.
   * A 100 by 100 panel with 80-pixel handles, or a 200 by 40 panel with
   * 20-pixel handles, each pressed on the corner handle inside the header.
   */
  lemma HandleInHeaderResizesAndDrags()
    ensures var o := Step(Motion(Grab(Rect(0.0, 0.0, 100.0, 100.0), false, Vec2(0.0, 0.0)), false, 0, 0.0),
                          80.0, 0.0, Pointer(Vec2(50.0, 25.0), true, true, 0.0)).motion;
      o.isResizing && o.grab.isDragging
    ensures var o := Step(Motion(Grab(Rect(0.0, 0.0, 200.0, 40.0), false, Vec2(0.0, 0.0)), false, 0, 0.0),
                          20.0, 0.0, Pointer(Vec2(190.0, 25.0), true, true, 0.0)).motion;
      o.isResizing && o.grab.isDragging
  {
  }

  // ----- Properties of a run of frames -----

  /** A run of real pointer samples, in order. */
  predicate Plausible(ps: seq<Pointer>)
  {
    && (forall k :: 0 <= k < |ps| ==> WellFormed(ps[k]))
    && (forall k :: 0 < k < |ps| ==> Follows(ps[k - 1], ps[k]))
  }

  /**
   * Over any run of plausible frames, a panel that starts coherent, at least
   * 100 by 100 and with its scroll position in [0, maxScroll] stays so:
   * drag and resize are never active together, the minimum size holds, and
   * the scroll position stays within its clamp.
   */
  lemma {:induction false} RunKeepsInvariants(m: Motion, hs: real, maxScroll: real, ps: seq<Pointer>)
    requires Coherent(m) && MinSized(m.grab.rect) && HandleFits(hs)
    requires 0.0 <= m.scroll <= maxScroll
    requires Plausible(ps)
    requires |ps| > 0 && ps[0].pressed ==> !m.isResizing
    ensures Coherent(Run(m, hs, maxScroll, ps))
    ensures MinSized(Run(m, hs, maxScroll, ps).grab.rect)
    ensures 0.0 <= Run(m, hs, maxScroll, ps).scroll <= maxScroll
    decreases |ps|
  {
    if ps != [] {
      var next := Step(m, hs, maxScroll, ps[0]).motion;
      StepKeepsCoherent(m, hs, maxScroll, ps[0]);
      StepKeepsMinimum(m, hs, maxScroll, ps[0]);
      ScrollStaysClamped(m, hs, maxScroll, ps[0]);
      var rest := ps[1..];
      assert Plausible(rest) by {
        forall k | 0 < k < |rest|
          ensures Follows(rest[k - 1], rest[k])
        {
          assert rest[k - 1] == ps[k] && rest[k] == ps[k + 1];
        }
      }
      if |rest| > 0 && rest[0].pressed {
        assert Follows(ps[0], ps[1]);
        ReleaseIdles(m, hs, maxScroll, ps[0]);
      }
      RunKeepsInvariants(next, hs, maxScroll, rest);
    }
  }

  // ----- The in-place panel -----

  /** A floating panel (models/window.go `Window`). */
  class Window {
    var title: string
    var rect: Rect
    var isDragging: bool
    var dragOffset: Vec2
    /** The `Data` field, shared with whoever publishes into it. */
    const slot: Slot
    var isActive: bool
    var scrollPosition: real
    var maxScroll: real
    var isResizing: bool
    var resizeDir: int
    var resizeHandleSize: real
    var padding: real

    /** A panel as the source's struct literals build one: every flag and offset at its zero value. */
    constructor (title: string, rect: Rect, resizeHandleSize: real, padding: real, slot: Slot)
      ensures this.title == title && this.rect == rect && this.slot == slot
      ensures this.resizeHandleSize == resizeHandleSize && this.padding == padding
      ensures !isDragging && !isResizing && !isActive && resizeDir == 0
      ensures scrollPosition == 0.0 && maxScroll == 0.0 && dragOffset == Vec2(0.0, 0.0)
    {
      this.title := title;
      this.rect := rect;
      this.slot := slot;
      this.resizeHandleSize := resizeHandleSize;
      this.padding := padding;
      isDragging, isResizing, isActive, resizeDir := false, false, false, 0;
      scrollPosition, maxScroll, dragOffset := 0.0, 0.0, Vec2(0.0, 0.0);
    }

    function State(): Motion
      reads this
    {
      Motion(Grab(rect, isDragging, dragOffset), isResizing, resizeDir, scrollPosition)
    }

    /** Clears the focus flag of every panel in `windows`, then sets this one's. */
    method TakeFocus(windows: array<Window>)
      modifies this`isActive, (set i | 0 <= i < windows.Length :: windows[i])`isActive
      ensures isActive
      ensures forall i :: 0 <= i < windows.Length ==> windows[i].isActive == (windows[i] == this)
    {
      var k := 0;
      while k < windows.Length
        invariant 0 <= k <= windows.Length
        invariant forall i :: 0 <= i < k ==> !windows[i].isActive
      {
        windows[k].isActive := false;
        k := k + 1;
      }
      isActive := true;
    }

    /** This panel has focus and no other panel of `windows` has. */
    ghost predicate SoleFocus(windows: array<Window>)
      reads this, windows, set i | 0 <= i < windows.Length :: windows[i]
    {
      isActive && forall i :: 0 <= i < windows.Length ==> windows[i].isActive == (windows[i] == this)
    }

    /** The focus flags of this panel and of `windows` are what they were. */
    twostate predicate FocusUnchanged(windows: array<Window>)
      reads this, windows, set i | 0 <= i < windows.Length :: windows[i]
    {
      isActive == old(isActive) &&
      forall i :: 0 <= i < windows.Length ==> windows[i].isActive == old(windows[i].isActive)
    }

    /**
     * Processes one frame of pointer input for this panel. `windows` is the
     * list whose focus flags a click clears; the returned cursor is the one
     * the source sets, if it sets one.
     */
    method Update(windows: array<Window>, p: Pointer) returns (cursor: Option<Cursor>)
      modifies this, (set i | 0 <= i < windows.Length :: windows[i])`isActive
      ensures State() == Step(old(State()), resizeHandleSize, maxScroll, p).motion
      ensures cursor == Step(old(State()), resizeHandleSize, maxScroll, p).cursor
      ensures title == old(title) && maxScroll == old(maxScroll)
      ensures resizeHandleSize == old(resizeHandleSize) && padding == old(padding)
      ensures Step(old(State()), resizeHandleSize, maxScroll, p).focus ==> SoleFocus(windows)
      ensures !Step(old(State()), resizeHandleSize, maxScroll, p).focus ==> FocusUnchanged(windows)
      ensures old(AtMostOneActive(windows)) ==> AtMostOneActive(windows)
    {
      ghost var before := State();
      var headerRect := HeaderRect(rect);
      var clicked := false;
      if Contains(rect, p.pos) && p.pressed {
        TakeFocus(windows);
        clicked := true;
      }
      ghost var afterClick := State();
      var resized;
      cursor, resized := UpdateResize(windows, p);
      ghost var afterResize := State();
      var grabbed := UpdateDrag(windows, headerRect, p);
      UpdateScroll(p);
      assert afterClick == before;
      assert afterResize == ResizePhase(before, resizeHandleSize, p).motion;
    }

    /**
     * The resize part of `Update`: continue or end an active resize, or
     * hit-test the handles when not dragging; `focused` tells whether it took
     * focus.
     */
    method UpdateResize(windows: array<Window>, p: Pointer) returns (cursor: Option<Cursor>, focused: bool)
      modifies this`rect, this`isResizing, this`resizeDir, this`isActive
      modifies (set i | 0 <= i < windows.Length :: windows[i])`isActive
      ensures var o := ResizePhase(old(State()), resizeHandleSize, p);
        State() == o.motion && cursor == o.cursor && focused == o.focus
      ensures focused ==> SoleFocus(windows)
      ensures !focused ==> FocusUnchanged(windows)
    {
      var mouse := p.pos;
      var bottomRightRect := CornerHandle(rect, resizeHandleSize);
      var rightEdgeRect := RightEdgeHandle(rect, resizeHandleSize);
      var bottomEdgeRect := BottomEdgeHandle(rect, resizeHandleSize);
      cursor, focused := None, false;
      if isResizing {
        if p.down {
          if resizeDir == 1 {
            rect := rect.(width := mouse.x - rect.x, height := mouse.y - rect.y);
          } else if resizeDir == 2 {
            rect := rect.(width := mouse.x - rect.x);
          } else if resizeDir == 3 {
            rect := rect.(height := mouse.y - rect.y);
          }
          if rect.width < MinSize {
            rect := rect.(width := MinSize);
          }
          if rect.height < MinSize {
            rect := rect.(height := MinSize);
          }
        } else {
          isResizing := false;
          resizeDir := 0;
        }
      } else if !isDragging {
        if Contains(bottomRightRect, mouse) {
          cursor := Some(ResizeNWSE);
          if p.pressed {
            isResizing := true;
            resizeDir := 1;
            TakeFocus(windows);
            focused := true;
          }
        } else if Contains(rightEdgeRect, mouse) {
          cursor := Some(ResizeEW);
          if p.pressed {
            isResizing := true;
            resizeDir := 2;
            TakeFocus(windows);
            focused := true;
          }
        } else if Contains(bottomEdgeRect, mouse) {
          cursor := Some(ResizeNS);
          if p.pressed {
            isResizing := true;
            resizeDir := 3;
            TakeFocus(windows);
            focused := true;
          }
        } else {
          cursor := Some(DefaultCursor);
        }
      }
    }

    /**
     * The drag part of `Update`, with the header computed at the start of the
     * frame; `focused` tells whether it took focus.
     */
    method UpdateDrag(windows: array<Window>, headerRect: Rect, p: Pointer) returns (focused: bool)
      modifies this`rect, this`isDragging, this`dragOffset, this`isActive
      modifies (set i | 0 <= i < windows.Length :: windows[i])`isActive
      ensures var o := DragPhase(old(Grab(rect, isDragging, dragOffset)), headerRect, p);
        Grab(rect, isDragging, dragOffset) == o.grab && focused == o.focus
      ensures focused ==> SoleFocus(windows)
      ensures !focused ==> FocusUnchanged(windows)
    {
      var mouse := p.pos;
      focused := false;
      if Contains(headerRect, mouse) {
        if p.pressed {
          isDragging := true;
          dragOffset := Vec2(mouse.x - rect.x, mouse.y - rect.y);
          TakeFocus(windows);
          focused := true;
        }
      }
      if isDragging {
        if p.down {
          rect := rect.(x := mouse.x - dragOffset.x, y := mouse.y - dragOffset.y);
        } else {
          isDragging := false;
        }
      }
    }

    /** The wheel part of `Update`, tested against the rectangle as it now is. */
    method UpdateScroll(p: Pointer)
      modifies this`scrollPosition
      ensures scrollPosition == ScrollPhase(old(scrollPosition), maxScroll, rect, p)
    {
      if Contains(rect, p.pos) {
        var wheel := p.wheel;
        if wheel != 0.0 {
          scrollPosition := scrollPosition - wheel * WheelStep;
          if scrollPosition < 0.0 {
            scrollPosition := 0.0;
          }
          if scrollPosition > maxScroll {
            scrollPosition := maxScroll;
          }
        }
      }
    }
  }

  /** At most one panel of the list has focus (a panel may be listed twice). */
  ghost predicate AtMostOneActive(windows: array<Window>)
    reads windows, set i | 0 <= i < windows.Length :: windows[i]
  {
    forall i, j :: 0 <= i < windows.Length && 0 <= j < windows.Length && windows[i].isActive && windows[j].isActive
      ==> windows[i] == windows[j]
  }
}
