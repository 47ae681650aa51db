/**
 * The first version of the terminal, in main.go: a window that can only be
 * focused and dragged by its header, and an order-book renderer with a
 * 12-level cap, a price header above the book and a spread taken from the
 * exchange's best prices. Its Deribit client is the same code as
 * client/deribit.go and is modelled by `Client.DeribitClient`.
 */
module LegacyMain {
  import opened Wrappers
  import opened Geometry
  import opened Models
  import opened Windows
  import opened OrderBookView

  /** Most levels shown per side by the first renderer. */
  const LegacyCap: nat := 12

  /**
   * One frame of the first window's `Update`: a press inside takes focus, a
   * press on the header also grabs, and a held grab moves the window.
   */
  function LegacyStep(g: Grab, p: Pointer): DragOutcome
  {
    var clicked := Contains(g.rect, p.pos) && p.pressed;
    var d := DragPhase(g, HeaderRect(g.rect), p);
    DragOutcome(d.grab, clicked || d.focus)
  }

  /** The first window takes focus exactly on a press inside it or on its header. */
  lemma LegacyFocus(g: Grab, p: Pointer)
    ensures LegacyStep(g, p).focus <==>
      p.pressed && (Contains(g.rect, p.pos) || Contains(HeaderRect(g.rect), p.pos))
  {
  }

  /**
   * The first window never changes size; while the grab is held the grab
   * point stays under the pointer, and releasing ends the grab.
   */
  lemma LegacyDrag(g: Grab, p: Pointer)
    ensures var o := LegacyStep(g, p).grab;
      && o.rect.width == g.rect.width && o.rect.height == g.rect.height
      && (o.isDragging ==> o.rect.x + o.dragOffset.x == p.pos.x && o.rect.y + o.dragOffset.y == p.pos.y)
      && (!p.down ==> !o.isDragging)
  {
  }

  /**
   * The resizable panel of models/window.go extends the first window: when
   * it is not resizing and the frame does not press on a resize handle, it
   * moves, grabs and takes focus exactly as the first window does, and stays
   * out of resize mode.
   */
  lemma {:induction false} PanelExtendsLegacy(m: Motion, hs: real, maxScroll: real, p: Pointer)
    requires !m.isResizing
    requires !p.pressed || HandleAt(m.grab.rect, hs, p.pos) == 0
    ensures var o := Step(m, hs, maxScroll, p);
      && o.motion.grab == LegacyStep(m.grab, p).grab
      && o.focus == LegacyStep(m.grab, p).focus
      && !o.motion.isResizing
  {
    assert ResizePhase(m, hs, p).motion == m;
    assert !ResizePhase(m, hs, p).focus;
  }

  /** The first version's window (main.go `Window`); its content callback and drawing are not modelled. */
  class LegacyWindow {
    var title: string
    var rect: Rect
    var isDragging: bool
    var dragOffset: Vec2
    /** The `data` field, shared with the client that publishes into it. */
    const slot: Slot
    var isActive: bool

    /** An inactive, idle window at (x, y) of the given size. */
    constructor NewWindow(title: string, x: real, y: real, width: real, height: real, slot: Slot)
      ensures this.title == title && rect == Rect(x, y, width, height) && this.slot == slot
      ensures !isActive && !isDragging && dragOffset == Vec2(0.0, 0.0)
    {
      this.title := title;
      rect := Rect(x, y, width, height);
      this.slot := slot;
      isActive := false;
      isDragging := false;
      dragOffset := Vec2(0.0, 0.0);
    }

    function Grabbed(): Grab
      reads this
    {
      Grab(rect, isDragging, dragOffset)
    }

    /** Clears the focus flag of every window in `windows`, then sets this one's. */
    method TakeFocus(windows: array<LegacyWindow>)
      modifies this`isActive, (set i | 0 <= i < windows.Length :: windows[i])`isActive
      ensures isActive
      ensures forall i :: 0 <= i < windows.Length ==> windows[i].isActive == (windows[i] == this)
    {
      var k := 0;
      while k < windows.Length
        invariant 0 <= k <= windows.Length
        invariant forall i :: 0 <= i < k ==> !windows[i].isActive
      {
        windows[k].isActive := false;
        k := k + 1;
      }
      isActive := true;
    }

    /**
     * Processes one frame of pointer input. On focus, this is the only
     * active window of `windows` (and itself); otherwise no focus flag
     * changes.
     */
    method Update(windows: array<LegacyWindow>, p: Pointer)
      modifies this`rect, this`isDragging, this`dragOffset, this`isActive
      modifies (set i | 0 <= i < windows.Length :: windows[i])`isActive
      ensures Grabbed() == LegacyStep(old(Grabbed()), p).grab
      ensures LegacyStep(old(Grabbed()), p).focus ==>
        isActive && forall i :: 0 <= i < windows.Length ==> windows[i].isActive == (windows[i] == this)
      ensures !LegacyStep(old(Grabbed()), p).focus ==>
        isActive == old(isActive) && forall i :: 0 <= i < windows.Length ==> windows[i].isActive == old(windows[i].isActive)
    {
      var headerRect := HeaderRect(rect);
      if Contains(rect, p.pos) && p.pressed {
        TakeFocus(windows);
      }
      if Contains(headerRect, p.pos) {
        if p.pressed {
          isDragging := true;
          dragOffset := Vec2(p.pos.x - rect.x, p.pos.y - rect.y);
          TakeFocus(windows);
        }
      }
      if isDragging {
        if p.down {
          rect := rect.(x := p.pos.x - dragOffset.x, y := p.pos.y - dragOffset.y);
        } else {
          isDragging := false;
        }
      }
    }
  }

  /** Everything the first renderer computes for one snapshot. */
  datatype BookLayout = BookLayout(
    numAsks: nat,
    numBids: nat,
    headerY: real,
    maxVolume: real,
    askRows: seq<Row>,
    totalAsks: real,
    spreadY: real,
    spread: SpreadLine,
    bidRows: seq<Row>,
    totalBids: real)

  /** What the first renderer produces: the placeholder line or the laid-out book. */
  datatype LegacyRender = Pending(y: real) | Panel(layout: BookLayout)

  /**
   * The first renderer's spread: the best ask price less the best bid price,
   * and its percentage of the best bid price.
   */
  function BestPriceSpread(b: OrderBookResult): SpreadLine
  {
    var spread := b.bestAskPrice - b.bestBidPrice;
    SpreadLine(spread, if b.bestBidPrice == 0.0 then NonFinite else Finite(spread / b.bestBidPrice * 100.0))
  }

  /**
   * The first renderer's layout of snapshot `b` in a window at `r`: 137
   * below the window top (under the price rows and divider) the column
   * header, 25 lower the first asks from the highest index down, then the
   * spread row, and 30 lower the first bids.
   */
  function LegacyArrange(b: OrderBookResult, r: Rect): BookLayout
  {
    var numAsks := Cap(|b.asks|, LegacyCap);
    var numBids := Cap(|b.bids|, LegacyCap);
    var headerY := r.y + 40.0 + 30.0 + 22.0 + 30.0 + 15.0;
    var askTop := headerY + 25.0;
    var askRows := Rows(Reversed(b.asks[..numAsks]), askTop);
    var spreadY := askTop + RowSpacing * (|askRows| as real);
    BookLayout(
      numAsks, numBids, headerY, MaxAmount(b.bids, MaxAmount(b.asks, 0.0)),
      askRows, SumAmounts(b.asks[..numAsks]),
      spreadY, BestPriceSpread(b),
      Rows(b.bids[..numBids], spreadY + 30.0), SumAmounts(b.bids[..numBids]))
  }

  /**
   * In the first renderer the caps are min(n, 12) and the rows are spaced 20
   * apart from 162 below the window top, with the bids starting 30 below the
   * spread row.
   */
  lemma {:induction false} LegacyArrangeRows(b: OrderBookResult, r: Rect)
    ensures var l := LegacyArrange(b, r);
      && l.numAsks == (if |b.asks| > LegacyCap then LegacyCap else |b.asks|)
      && l.numBids == (if |b.bids| > LegacyCap then LegacyCap else |b.bids|)
      && l.headerY == r.y + 137.0
      && (forall k :: 0 <= k < |l.askRows| ==> l.askRows[k].y == r.y + 162.0 + RowSpacing * (k as real))
      && l.spreadY == r.y + 162.0 + RowSpacing * (|l.askRows| as real)
      && (forall k :: 0 <= k < |l.bidRows| ==> l.bidRows[k].y == l.spreadY + 30.0 + RowSpacing * (k as real))
  {
    var l := LegacyArrange(b, r);
    RowsFollowLevels(Reversed(b.asks[..l.numAsks]), r.y + 162.0);
    RowsFollowLevels(b.bids[..l.numBids], l.spreadY + 30.0);
  }

  /**
   * In the first renderer each side's last row shows that side's total, and
   * the spread comes from the best prices even when a side has no levels.
   */
  lemma {:induction false} LegacyArrangeTotals(b: OrderBookResult, r: Rect)
    ensures var l := LegacyArrange(b, r);
      && (l.askRows != [] ==> l.askRows[|l.askRows| - 1].total == l.totalAsks)
      && (l.bidRows != [] ==> l.bidRows[|l.bidRows| - 1].total == l.totalBids)
      && l.spread.spread == b.bestAskPrice - b.bestBidPrice
      && (b.bestBidPrice == 0.0 <==> l.spread.percent == NonFinite)
  {
    var l := LegacyArrange(b, r);
    if l.askRows != [] {
      LastRowShowsTotal(Reversed(b.asks[..l.numAsks]), r.y + 162.0);
      SumReversed(b.asks[..l.numAsks]);
    }
    if l.bidRows != [] {
      LastRowShowsTotal(b.bids[..l.numBids], l.spreadY + 30.0);
    }
  }

  /** The first renderer's body once a snapshot is present. */
  method LegacyLayOut(b: OrderBookResult, r: Rect) returns (layout: BookLayout)
    ensures layout == LegacyArrange(b, r)
  {
    var startY := r.y + 40.0;
    startY := startY + 30.0;
    startY := startY + 22.0;
    startY := startY + 30.0;
    startY := startY + 15.0;
    var headerY := startY;
    startY := startY + 25.0;

    var maxVolume := MaxVolume(b.asks, b.bids);

    var numAsks := |b.asks|;
    if numAsks > LegacyCap {
      numAsks := LegacyCap;
    }
    var askRows, totalAsks;
    askRows, totalAsks, startY := AskRows(b.asks, numAsks, startY);

    var spread := BestPriceSpread(b);
    var spreadY := startY;
    startY := startY + 30.0;

    var numBids := |b.bids|;
    if numBids > LegacyCap {
      numBids := LegacyCap;
    }
    var bidRows, totalBids;
    bidRows, totalBids, startY := BidRows(b.bids, numBids, startY);

    layout := BookLayout(numAsks, numBids, headerY, maxVolume, askRows, totalAsks, spreadY, spread, bidRows, totalBids);
  }

  /** Renders window `w`: the placeholder without a snapshot in its slot, otherwise the laid-out book. */
  method RenderLegacyOrderBook(w: LegacyWindow) returns (r: LegacyRender)
    ensures !w.slot.data.OrderBookData? ==> r == Pending(w.rect.y + 40.0)
    ensures w.slot.data.OrderBookData? ==> r == Panel(LegacyArrange(w.slot.data.book, w.rect))
  {
    if !w.slot.data.OrderBookData? {
      return Pending(w.rect.y + 40.0);
    }
    var layout := LegacyLayOut(w.slot.data.book, w.rect);
    r := Panel(layout);
  }
}
