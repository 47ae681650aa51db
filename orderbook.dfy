/**
 * The order-book renderer of components/orderbook.go, with its draw calls
 * taken out: what remains is where each row goes and what it shows. The
 * rendering is returned as a value (`Render`); the only state it changes is
 * the panel's `maxScroll`.
 *
 * Price levels are `[price, amount]` sequences; a level with fewer than two
 * entries is skipped and takes no space.
 */
module OrderBookView {
  import opened Wrappers
  import opened Geometry
  import opened Models
  import opened Windows

  /** Most levels shown per side. */
  const DisplayCap: nat := 20
  /** Vertical distance between two drawn levels. */
  const RowSpacing: real := 20.0

  predicate Drawable(l: Level)
  {
    |l| >= 2
  }

  /** The amount a level contributes to the running totals: nothing unless it is drawn. */
  function AmountOf(l: Level): real
  {
    if Drawable(l) then l[1] else 0.0
  }

  /** The total amount of the drawable levels of `ls`. */
  function SumAmounts(ls: seq<Level>): real
    decreases |ls|
  {
    if ls == [] then 0.0 else SumAmounts(ls[..|ls| - 1]) + AmountOf(ls[|ls| - 1])
  }

  /** The drawable levels of `ls`, in order. */
  function DrawableLevels(ls: seq<Level>): (d: seq<Level>)
    ensures |d| <= |ls|
    ensures forall k :: 0 <= k < |d| ==> Drawable(d[k])
    decreases |ls|
  {
    if ls == [] then []
    else DrawableLevels(ls[..|ls| - 1]) + (if Drawable(ls[|ls| - 1]) then [ls[|ls| - 1]] else [])
  }

  /** The levels of `s` from last to first: the order in which asks are drawn. */
  function Reversed(s: seq<Level>): (r: seq<Level>)
    ensures |r| == |s|
  {
    if s == [] then [] else Reversed(s[1..]) + [s[0]]
  }

  /** Walking `s[i..n]` backwards is walking `s[i + 1..n]` backwards, then visiting `s[i]`. */
  lemma ReversedStep(s: seq<Level>, i: nat, n: nat)
    requires i < n <= |s|
    ensures Reversed(s[i..n]) == Reversed(s[i + 1..n]) + [s[i]]
  {
    assert s[i..n][1..] == s[i + 1..n];
  }

  /** Position `k` of the reversed levels holds level `|s| - 1 - k`. */
  lemma {:induction false} ReversedIndex(s: seq<Level>)
    ensures forall k :: 0 <= k < |s| ==> Reversed(s)[k] == s[|s| - 1 - k]
    decreases |s|
  {
    if s != [] {
      ReversedIndex(s[1..]);
    }
  }

  /** One drawn level: its y position, and the price, amount and running total it shows. */
  datatype Row = Row(y: real, price: real, amount: real, total: real)

  /**
   * The rows drawn for the levels `ls`, visited in order from `top` down: each
   * drawable level gets the next row and shows the running total up to it.
   */
  function Rows(ls: seq<Level>, top: real): (rows: seq<Row>)
    ensures |rows| <= |ls|
    decreases |ls|
  {
    if ls == [] then []
    else
      var shown := Rows(ls[..|ls| - 1], top);
      var l := ls[|ls| - 1];
      shown + (if Drawable(l) then [Row(top + RowSpacing * (|shown| as real), l[0], l[1], SumAmounts(ls))] else [])
  }

  /** The sum of the amounts shown in `rows`. */
  function ShownAmounts(rows: seq<Row>): real
    decreases |rows|
  {
    if rows == [] then 0.0 else ShownAmounts(rows[..|rows| - 1]) + rows[|rows| - 1].amount
  }

  /**
   * The largest amount among the drawable levels of `ls`, or `floor` if none
   * exceeds it: the `maxVolume` scan.
   */
  function MaxAmount(ls: seq<Level>, floor: real): real
    decreases |ls|
  {
    if ls == [] then floor
    else
      var m := MaxAmount(ls[..|ls| - 1], floor);
      var l := ls[|ls| - 1];
      if Drawable(l) && l[1] > m then l[1] else m
  }

  /** `MaxAmount` is at least `floor`, bounds every drawable amount, and is `floor` or one of them. */
  lemma {:induction false} MaxAmountBounds(ls: seq<Level>, floor: real)
    ensures var m := MaxAmount(ls, floor);
      && m >= floor
      && (forall k :: 0 <= k < |ls| && Drawable(ls[k]) ==> ls[k][1] <= m)
      && (m == floor || exists k :: 0 <= k < |ls| && Drawable(ls[k]) && ls[k][1] == m)
    decreases |ls|
  {
    if ls != [] {
      var before := ls[..|ls| - 1];
      MaxAmountBounds(before, floor);
      assert forall k :: 0 <= k < |before| ==> before[k] == ls[k];
    }
  }

  /** `n`, capped at `cap`. */
  function Cap(n: nat, cap: nat): (c: nat)
    ensures c <= n && c <= cap
    ensures c == n || c == cap
  {
    if n > cap then cap else n
  }

  /**
   * The scroll range for `numAsks + numBids` rows in a panel `height` high:
   * how far the content (a 45-high header band, 20 per row and a 30-high
   * spread band) overflows the area below the 30-high title, or 0.
   */
  function ContentMaxScroll(numAsks: nat, numBids: nat, height: real): (m: real)
    ensures m >= 0.0
    ensures m > 0.0 ==> m == 45.0 + RowSpacing * ((numAsks + numBids) as real) + 30.0 - (height - HeaderHeight)
    ensures m == 0.0 ==> 45.0 + RowSpacing * ((numAsks + numBids) as real) + 30.0 <= height - HeaderHeight
  {
    var contentHeight := 45.0 + RowSpacing * ((numAsks + numBids) as real) + 30.0;
    var overflow := contentHeight - (height - HeaderHeight);
    if overflow < 0.0 then 0.0 else overflow
  }

  /**
   * A ratio as floating point computes it: dividing by zero gives an
   * infinity or NaN, which is not a real number.
   */
  datatype Ratio = Finite(value: real) | NonFinite

  datatype SpreadLine = SpreadLine(spread: real, percent: Ratio)

  /** The spread row, or the index panic when a best level has no price. */
  datatype SpreadOutcome = SpreadShown(line: SpreadLine) | SpreadPanic

  /**
   * The spread between the first ask and the first bid, and its percentage
   * of the bid price; 0 and 0 when a side is empty.
   */
  function SpreadOf(asks: seq<Level>, bids: seq<Level>): SpreadOutcome
  {
    if asks != [] && bids != [] then
      if |asks[0]| == 0 || |bids[0]| == 0 then SpreadPanic
      else
        var spread := asks[0][0] - bids[0][0];
        var base := bids[0][0];
        SpreadShown(SpreadLine(spread, if base == 0.0 then NonFinite else Finite(spread / base * 100.0)))
    else
      SpreadShown(SpreadLine(0.0, Finite(0.0)))
  }

  /**
   * With both sides present, the spread is the first ask price less the first
   * bid price, and its percentage times the bid price is 100 times the
   * spread, unless the bid price is 0; a side without levels shows 0 and 0; a
   * first level without a price is the index panic.
   */
  lemma SpreadRule(asks: seq<Level>, bids: seq<Level>)
    ensures var o := SpreadOf(asks, bids);
      && (asks == [] || bids == [] ==> o == SpreadShown(SpreadLine(0.0, Finite(0.0))))
      && (asks != [] && bids != [] && (|asks[0]| == 0 || |bids[0]| == 0) ==> o == SpreadPanic)
      && (asks != [] && bids != [] && |asks[0]| > 0 && |bids[0]| > 0 ==>
            && o.SpreadShown? && o.line.spread == asks[0][0] - bids[0][0]
            && (bids[0][0] == 0.0 <==> o.line.percent == NonFinite)
            && (o.line.percent.Finite? ==> o.line.percent.value * bids[0][0] == o.line.spread * 100.0))
  {
  }

  /** Everything the renderer computes for one snapshot. */
  datatype Layout = Layout(
    numAsks: nat,
    numBids: nat,
    maxScroll: real,
    headerY: real,
    maxVolume: real,
    askRows: seq<Row>,
    totalAsks: real,
    spreadY: real,
    spread: SpreadLine,
    bidRows: seq<Row>,
    totalBids: real)

  /** What a render produces: the placeholder line, the laid-out book, or the source's index panic. */
  datatype Render = Loading(y: real) | Book(layout: Layout) | IndexPanic

  /**
   * The layout of snapshot `b` in a panel at `r` scrolled by `scroll`: header
   * line, then the first asks from the highest index down, the spread row,
   * then the first bids from index 0 up.
   */
  function Arrange(b: OrderBookResult, r: Rect, scroll: real): Render
  {
    var numAsks := Cap(|b.asks|, DisplayCap);
    var numBids := Cap(|b.bids|, DisplayCap);
    var headerY := r.y + 35.0 - scroll;
    var askTop := headerY + RowSpacing + 5.0;
    var askRows := Rows(Reversed(b.asks[..numAsks]), askTop);
    var spreadY := askTop + RowSpacing * (|askRows| as real);
    match SpreadOf(b.asks, b.bids)
    case SpreadPanic => IndexPanic
    case SpreadShown(line) =>
      Book(Layout(
        numAsks, numBids, ContentMaxScroll(numAsks, numBids, r.height), headerY,
        MaxAmount(b.bids, MaxAmount(b.asks, 0.0)),
        askRows, SumAmounts(b.asks[..numAsks]),
        spreadY, line,
        Rows(b.bids[..numBids], spreadY + RowSpacing + 5.0), SumAmounts(b.bids[..numBids])))
  }

  // ----- Lemmas about the specification functions -----

  lemma {:induction false} SumConcat(a: seq<Level>, b: seq<Level>)
    ensures SumAmounts(a + b) == SumAmounts(a) + SumAmounts(b)
    decreases |b|
  {
    if b != [] {
      var b' := b[..|b| - 1];
      assert (a + b)[..|a + b| - 1] == a + b';
      SumConcat(a, b');
    } else {
      assert a + b == a;
    }
  }

  /** The order of the levels does not change their total. */
  lemma {:induction false} SumReversed(s: seq<Level>)
    ensures SumAmounts(Reversed(s)) == SumAmounts(s)
    decreases |s|
  {
    if s != [] {
      SumReversed(s[1..]);
      SumConcat(Reversed(s[1..]), [s[0]]);
      assert s == [s[0]] + s[1..];
      SumConcat([s[0]], s[1..]);
      assert [s[0]][..0] == [];
    }
  }

  /** Adding a level at the end adds its row (if drawable) after the others. */
  lemma RowsSnoc(ls: seq<Level>, l: Level, top: real)
    ensures Rows(ls + [l], top) ==
      Rows(ls, top) +
        (if Drawable(l) then [Row(top + RowSpacing * (|Rows(ls, top)| as real), l[0], l[1], SumAmounts(ls) + l[1])] else [])
    ensures SumAmounts(ls + [l]) == SumAmounts(ls) + AmountOf(l)
  {
    assert (ls + [l])[..|ls + [l]| - 1] == ls;
  }

  /** `row` shows the drawable level `level` at height `y`. */
  predicate RowShows(row: Row, level: Level, y: real)
  {
    Drawable(level) && row.y == y && row.price == level[0] && row.amount == level[1]
  }

  /** Row `k` of the drawn rows sits `k` rows below the top and shows the `k`-th drawable level. */
  lemma {:induction false} RowsFollowLevels(ls: seq<Level>, top: real)
    ensures |Rows(ls, top)| == |DrawableLevels(ls)|
    ensures var rows := Rows(ls, top);
      forall k :: 0 <= k < |rows| ==> RowShows(rows[k], DrawableLevels(ls)[k], top + RowSpacing * (k as real))
    decreases |ls|
  {
    if ls != [] {
      var before := ls[..|ls| - 1];
      var l := ls[|ls| - 1];
      RowsFollowLevels(before, top);
      var rows, prev := Rows(ls, top), Rows(before, top);
      var d, dp := DrawableLevels(ls), DrawableLevels(before);
      if Drawable(l) {
        assert d == dp + [l];
        forall k | 0 <= k < |rows|
          ensures RowShows(rows[k], d[k], top + RowSpacing * (k as real))
        {
          if k < |prev| {
            assert rows[k] == prev[k] && d[k] == dp[k];
          }
        }
      } else {
        assert rows == prev && d == dp;
      }
    }
  }

  /**
   * Each drawn row's total is the sum of the amounts shown in it and the rows
   * above it, and all the rows together show the total amount of `ls`.
   */
  lemma {:induction false} RowsRunningTotals(ls: seq<Level>, top: real)
    ensures var rows := Rows(ls, top);
      forall k :: 0 <= k < |rows| ==> rows[k].total == ShownAmounts(rows[..k + 1])
    ensures ShownAmounts(Rows(ls, top)) == SumAmounts(ls)
    decreases |ls|
  {
    if ls != [] {
      var before := ls[..|ls| - 1];
      var l := ls[|ls| - 1];
      RowsRunningTotals(before, top);
      var rows, prev := Rows(ls, top), Rows(before, top);
      if Drawable(l) {
        assert rows[..|rows| - 1] == prev;
        forall k | 0 <= k < |rows|
          ensures rows[k].total == ShownAmounts(rows[..k + 1])
        {
          if k < |prev| {
            assert rows[..k + 1] == prev[..k + 1];
          } else {
            assert rows[..k + 1] == rows;
          }
        }
      } else {
        assert rows == prev;
      }
    }
  }

  /** The last drawn row's total is the total amount of all the levels walked. */
  lemma LastRowShowsTotal(ls: seq<Level>, top: real)
    requires Rows(ls, top) != []
    ensures Rows(ls, top)[|Rows(ls, top)| - 1].total == SumAmounts(ls)
  {
    var rows := Rows(ls, top);
    var k := |rows| - 1;
    RowsRunningTotals(ls, top);
    assert rows[..k + 1] == rows;
    assert rows[k].total == ShownAmounts(rows[..k + 1]);
  }

  /**
   * `maxVolume` bounds every drawable amount on both sides, including levels
   * past the display cap, and is 0 or one of them.
   */
  lemma MaxVolumeBounds(asks: seq<Level>, bids: seq<Level>)
    ensures var m := MaxAmount(bids, MaxAmount(asks, 0.0));
      && m >= 0.0
      && (forall k :: 0 <= k < |asks| && Drawable(asks[k]) ==> asks[k][1] <= m)
      && (forall k :: 0 <= k < |bids| && Drawable(bids[k]) ==> bids[k][1] <= m)
      && (m == 0.0
          || (exists k :: 0 <= k < |asks| && Drawable(asks[k]) && asks[k][1] == m)
          || (exists k :: 0 <= k < |bids| && Drawable(bids[k]) && bids[k][1] == m))
  {
    MaxAmountBounds(asks, 0.0);
    MaxAmountBounds(bids, MaxAmount(asks, 0.0));
  }

  /**
   * In a laid-out book the caps are min(n, 20), the scroll range is never
   * negative, and the rows are spaced 20 apart: asks from 25 below the header
   * line, walked from the highest index down, the spread row right after
   * them, the bids 25 below it.
   */
  lemma {:induction false} ArrangeRows(b: OrderBookResult, r: Rect, scroll: real)
    requires Arrange(b, r, scroll).Book?
    ensures var l := Arrange(b, r, scroll).layout;
      && l.numAsks == (if |b.asks| > DisplayCap then DisplayCap else |b.asks|)
      && l.numBids == (if |b.bids| > DisplayCap then DisplayCap else |b.bids|)
      && l.maxScroll >= 0.0
      && l.headerY == r.y + 35.0 - scroll
      && l.spreadY == l.headerY + 25.0 + RowSpacing * (|l.askRows| as real)
      && |l.askRows| == |DrawableLevels(Reversed(b.asks[..l.numAsks]))|
      && |l.bidRows| == |DrawableLevels(b.bids[..l.numBids])|
      && (forall k :: 0 <= k < |l.askRows| ==>
            && l.askRows[k].y == l.headerY + 25.0 + RowSpacing * (k as real)
            && l.askRows[k].price == DrawableLevels(Reversed(b.asks[..l.numAsks]))[k][0])
      && (forall k :: 0 <= k < |l.bidRows| ==>
            && l.bidRows[k].y == l.spreadY + 25.0 + RowSpacing * (k as real)
            && l.bidRows[k].price == DrawableLevels(b.bids[..l.numBids])[k][0])
  {
    var l := Arrange(b, r, scroll).layout;
    RowsFollowLevels(Reversed(b.asks[..l.numAsks]), l.headerY + RowSpacing + 5.0);
    RowsFollowLevels(b.bids[..l.numBids], l.spreadY + RowSpacing + 5.0);
  }

  /** In a laid-out book each side's last row shows that side's total. */
  lemma {:induction false} ArrangeTotals(b: OrderBookResult, r: Rect, scroll: real)
    requires Arrange(b, r, scroll).Book?
    ensures var l := Arrange(b, r, scroll).layout;
      && (l.askRows != [] ==> l.askRows[|l.askRows| - 1].total == l.totalAsks)
      && (l.bidRows != [] ==> l.bidRows[|l.bidRows| - 1].total == l.totalBids)
  {
    var l := Arrange(b, r, scroll).layout;
    if l.askRows != [] {
      LastRowShowsTotal(Reversed(b.asks[..l.numAsks]), l.headerY + RowSpacing + 5.0);
      SumReversed(b.asks[..l.numAsks]);
    }
    if l.bidRows != [] {
      LastRowShowsTotal(b.bids[..l.numBids], l.spreadY + RowSpacing + 5.0);
    }
  }

  /**
   * The renderer rewrites the scroll range without re-clamping the scroll
   * position, and the wheel phase clamps only when the wheel moves: a panel
   * 200 high scrolled to the end of a 20-by-20 book keeps its scroll position
   * of 705 after a snapshot with no levels sets the range to 0, for as long
   * as the wheel stays still.
   */
  lemma RenderCanStrandScroll(r: Rect, p: Pointer)
    requires r.height == 200.0 && p.wheel == 0.0
    ensures ContentMaxScroll(DisplayCap, DisplayCap, r.height) == 705.0
    ensures ContentMaxScroll(0, 0, r.height) == 0.0
    ensures ScrollPhase(705.0, ContentMaxScroll(0, 0, r.height), r, p) == 705.0
  {
  }

  // ----- The renderer -----

  /** The `maxVolume` scan: every ask, then every bid, whatever the cap. */
  method MaxVolume(asks: seq<Level>, bids: seq<Level>) returns (maxVolume: real)
    ensures maxVolume == MaxAmount(bids, MaxAmount(asks, 0.0))
  {
    maxVolume := 0.0;
    var i := 0;
    while i < |asks|
      invariant 0 <= i <= |asks|
      invariant maxVolume == MaxAmount(asks[..i], 0.0)
    {
      assert asks[..i + 1][..i] == asks[..i];
      if |asks[i]| >= 2 && asks[i][1] > maxVolume {
        maxVolume := asks[i][1];
      }
      i := i + 1;
    }
    assert asks[..i] == asks;
    ghost var fromAsks := maxVolume;
    var j := 0;
    while j < |bids|
      invariant 0 <= j <= |bids|
      invariant maxVolume == MaxAmount(bids[..j], fromAsks)
    {
      assert bids[..j + 1][..j] == bids[..j];
      if |bids[j]| >= 2 && bids[j][1] > maxVolume {
        maxVolume := bids[j][1];
      }
      j := j + 1;
    }
    assert bids[..j] == bids;
  }

  /** One turn of the asks loop: visiting `asks[i]` after `asks[i + 1..n]`. */
  lemma AskStep(asks: seq<Level>, i: nat, n: nat, top: real)
    requires i < n <= |asks|
    ensures var visited := Reversed(asks[i + 1..n]);
      var l := asks[i];
      && Rows(Reversed(asks[i..n]), top) ==
           Rows(visited, top) +
             (if Drawable(l) then [Row(top + RowSpacing * (|Rows(visited, top)| as real), l[0], l[1], SumAmounts(visited) + l[1])]
              else [])
      && SumAmounts(Reversed(asks[i..n])) == SumAmounts(visited) + AmountOf(l)
  {
    ReversedStep(asks, i, n);
    RowsSnoc(Reversed(asks[i + 1..n]), asks[i], top);
  }

  /**
   * The asks loop: visits `asks[numAsks - 1]` down to `asks[0]`, drawing each
   * drawable level and accumulating `totalAsks`; `endY` is where the spread
   * row goes.
   */
  method AskRows(asks: seq<Level>, numAsks: nat, top: real) returns (rows: seq<Row>, totalAsks: real, endY: real)
    requires numAsks <= |asks|
    ensures rows == Rows(Reversed(asks[..numAsks]), top)
    ensures totalAsks == SumAmounts(asks[..numAsks])
    ensures endY == top + RowSpacing * (|rows| as real)
  {
    rows, totalAsks, endY := [], 0.0, top;
    var i: int := numAsks - 1;
    while i >= 0
      invariant -1 <= i < numAsks
      invariant rows == Rows(Reversed(asks[i + 1..numAsks]), top)
      invariant totalAsks == SumAmounts(Reversed(asks[i + 1..numAsks]))
      invariant endY == top + RowSpacing * (|rows| as real)
    {
      var ask := asks[i];
      AskStep(asks, i, numAsks, top);
      if |ask| >= 2 {
        var price := ask[0];
        var amount := ask[1];
        totalAsks := totalAsks + amount;
        rows := rows + [Row(endY, price, amount, totalAsks)];
        endY := endY + RowSpacing;
      }
      i := i - 1;
    }
    assert asks[0..numAsks] == asks[..numAsks];
    SumReversed(asks[..numAsks]);
  }

  /**
   * The bids loop: visits `bids[0]` up to `bids[numBids - 1]`, drawing each
   * drawable level and accumulating `totalBids`.
   */
  method BidRows(bids: seq<Level>, numBids: nat, top: real) returns (rows: seq<Row>, totalBids: real, endY: real)
    requires numBids <= |bids|
    ensures rows == Rows(bids[..numBids], top)
    ensures totalBids == SumAmounts(bids[..numBids])
    ensures endY == top + RowSpacing * (|rows| as real)
  {
    rows, totalBids, endY := [], 0.0, top;
    var i := 0;
    while i < numBids
      invariant 0 <= i <= numBids
      invariant rows == Rows(bids[..i], top)
      invariant totalBids == SumAmounts(bids[..i])
      invariant endY == top + RowSpacing * (|rows| as real)
    {
      var bid := bids[i];
      assert bids[..i + 1] == bids[..i] + [bid];
      RowsSnoc(bids[..i], bid, top);
      if |bid| >= 2 {
        var price := bid[0];
        var amount := bid[1];
        totalBids := totalBids + amount;
        rows := rows + [Row(endY, price, amount, totalBids)];
        endY := endY + RowSpacing;
      }
      i := i + 1;
    }
  }

  /**
   * Lays out snapshot `b` in a panel at `r` scrolled by `scroll`: the body of
   * the renderer once a snapshot is present.
   */
  method LayOut(b: OrderBookResult, r: Rect, scroll: real) returns (res: Render)
    ensures res == Arrange(b, r, scroll)
  {
    var numAsks := Cap(|b.asks|, DisplayCap);
    var numBids := Cap(|b.bids|, DisplayCap);
    var maxScroll := ContentMaxScroll(numAsks, numBids, r.height);

    var startY := r.y + 35.0 - scroll;
    var headerY := startY;
    startY := startY + RowSpacing + 5.0;

    var maxVolume := MaxVolume(b.asks, b.bids);

    var askRows, totalAsks;
    askRows, totalAsks, startY := AskRows(b.asks, numAsks, startY);

    var spread := SpreadOf(b.asks, b.bids);
    if spread.SpreadPanic? {
      return IndexPanic;
    }
    var spreadY := startY;
    startY := startY + RowSpacing + 5.0;

    var bidRows, totalBids;
    bidRows, totalBids, startY := BidRows(b.bids, numBids, startY);

    res := Book(Layout(
      numAsks, numBids, maxScroll, headerY, maxVolume,
      askRows, totalAsks, spreadY, spread.line, bidRows, totalBids));
  }

  /**
   * Renders panel `w`: without a snapshot in its slot, only the placeholder
   * and `maxScroll` is left alone; with one, `maxScroll` is rewritten for the
   * rows about to be shown (before anything can panic) and the book is laid
   * out.
   */
  method RenderOrderBook(w: Window) returns (r: Render)
    modifies w`maxScroll
    ensures !w.slot.data.OrderBookData? ==> r == Loading(w.rect.y + 35.0) && w.maxScroll == old(w.maxScroll)
    ensures w.slot.data.OrderBookData? ==>
      && r == Arrange(w.slot.data.book, w.rect, w.scrollPosition)
      && w.maxScroll == ContentMaxScroll(
           Cap(|w.slot.data.book.asks|, DisplayCap), Cap(|w.slot.data.book.bids|, DisplayCap), w.rect.height)
  {
    if !w.slot.data.OrderBookData? {
      return Loading(w.rect.y + 35.0);
    }
    var orderBook := w.slot.data.book;
    var numAsks := Cap(|orderBook.asks|, DisplayCap);
    var numBids := Cap(|orderBook.bids|, DisplayCap);
    var contentHeight := 45.0 + RowSpacing * ((numAsks + numBids) as real) + 30.0;
    w.maxScroll := contentHeight - (w.rect.height - HeaderHeight);
    if w.maxScroll < 0.0 {
      w.maxScroll := 0.0;
    }
    r := LayOut(orderBook, w.rect, w.scrollPosition);
  }
}
