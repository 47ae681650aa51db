# Trading terminal: window kernel, dropdown, order-book renderer and exchange client

A Dafny model of the core of a small desktop trading terminal written in Go.
The terminal shows the live order book of one Deribit instrument in a
floating, draggable, resizable, scrollable panel. Every frame it hit-tests
the pointer against each panel (focus, resize handles, header drag, wheel
scroll), then lays out the order book: asks from the highest listed index
down, a spread row, then bids, each row with a running total. A websocket
client asks the exchange for the order book once a second and stores each
JSON-RPC result in the panel's data slot. A dropdown widget selects among
options and reports a change to a handler.

Modules:

- `Geometry` — reals for screen coordinates, the half-open point-in-rectangle
  test, and the per-frame pointer sample (`Pointer`: position, pressed this
  frame, held, wheel movement).
- `Models` — the message and snapshot records, field by field, and the
  panel's data slot (`Slot`), shared by a panel and the client that fills it.
- `Windows` — the resizable panel. One frame is specified by the pure
  `Step`, built from one function per phase in source order (`ResizePhase`,
  `DragPhase`, `ScrollPhase`). The class `Window` does the frame in place and
  is proved equal to `Step`. The lemmas state the frame's promises and the
  invariants a run of frames keeps.
- `DropdownWidget` — the dropdown, specified by the pure `Next` and done in
  place by the class `Dropdown`.
- `OrderBookView` — the renderer. Its draw calls are dropped, and what it
  computes is returned as a `Layout`. The pure `Arrange` specifies it. Its
  loops are methods proved against the functions `Rows`, `SumAmounts` and
  `MaxAmount`.
- `Client` — the exchange client. The connection is replaced by its inputs:
  the outcome of the dial and of each write, and the sequence of frames read,
  each already classified by the JSON decoder.
- `LegacyMain` — the first version in main.go. Its window can only be focused and
  dragged. Its renderer shows 12 levels per side and takes the spread from
  the exchange's best prices. Its client is the same code as
  client/deribit.go and is modelled by `Client.DeribitClient`.

Three behaviours of the code are easy to miss:

- The scroll position is not kept within `[0, maxScroll]` at every frame
  boundary. The renderer rewrites `maxScroll` without re-clamping the scroll
  position. The wheel phase clamps only when the wheel moves over the panel.
  `OrderBookView.RenderCanStrandScroll` shows a panel left scrolled past its
  range. `Windows.RunKeepsInvariants` proves the clamp for runs of frames
  with a fixed range.
- The right and bottom resize handles reach half a handle beyond the panel's
  edges. A press there begins a resize and takes focus even though the
  pointer is outside the panel.
- Drag and resize exclude each other only while the handles stay out of the
  30-pixel header. A handle larger than 70, or a panel lower than 100, lets a
  handle reach into the header, and one press there begins a resize and a
  drag together. `Windows.HandleInHeaderResizesAndDrags` shows this for a
  100 by 100 panel with 80-pixel handles and for a 200 by 40 panel with
  20-pixel handles.

## Model

| member | source | states |
|---|---|---|
| `Models.Slot.constructor` | models/window.go:15 | A new data slot holds no snapshot. |
| `Windows.Resize` | models/window.go:69-87 | An active resize keeps the origin. The dragged edges follow the pointer (corner: both; right edge: width; bottom edge: height). A dimension below 100 becomes 100, and an undragged one is only raised to 100. |
| `Windows.DragPhase` | models/window.go:135-158 | A press in the header grabs and records the pointer's offset. While the button is held the grabbed point stays under the pointer. Without the button the drag ends and the panel stays put. The size never changes. |
| `Windows.ScrollPhase` | models/window.go:160-174 | With the pointer inside and a non-zero wheel, the position moves by 20 per unit against the wheel, clamped at 0 and then at `maxScroll`. Otherwise it is left unchanged, not even re-clamped. |
| `Windows.PressInsideFocuses` | models/window.go:59-66 | A press inside the panel always gives it focus. |
| `Windows.FocusNeedsPress` | models/window.go:59-149 | Focus is only ever taken on a press. |
| `Windows.HeldResizeKeepsMinimum` | models/window.go:69-87 | While a resize is held, the panel ends the frame at least 100 by 100, wherever the pointer is. |
| `Windows.SizeChangesOnlyWhileResizing` | models/window.go:69-158 | The size changes only in a frame that continues a resize. |
| `Windows.StepKeepsMinimum` | models/window.go:81-87 | A panel at least 100 by 100 stays so after any frame. |
| `Windows.ResizeKeepsOrigin` | models/window.go:69-91 | Unless a drag is active at the end of the frame, the origin does not move. |
| `Windows.ReleaseEndsResize` | models/window.go:88-91 | Releasing the button during a resize ends it and resets the direction to 0. |
| `Windows.PressOnHandleBeginsResize` | models/window.go:92-133 | When idle, a press begins a resize on the corner (1), else the right edge (2), else the bottom edge (3), and takes focus. Off the handles it begins none and the default cursor is set. |
| `Windows.NoResizeWhileDragging` | models/window.go:92 | During a drag no resize begins and no cursor is set. |
| `Windows.PressInHeaderGrabs` | models/window.go:136-149 | A press in the header starts a drag at the pointer's offset from the origin, takes focus and does not move the panel in that frame. |
| `Windows.DragKeepsGrabPoint` | models/window.go:151-158 | A drag holds only with the button down, and the grabbed point is then under the pointer. |
| `Windows.ReleaseIdles` | models/window.go:88-91 | A frame without the button ends every drag and every resize. |
| `Windows.ScrollStaysClamped` | models/window.go:160-174 | The wheel moves the scroll position only with the pointer inside the panel as placed after the drag. It then lands in `[0, maxScroll]`; otherwise it is unchanged. |
| `Windows.HandlesMissHeader` | models/window.go:37-57 | In a panel at least 100 by 100, with handles no larger than 70, no resize handle reaches into the header. |
| `Windows.StepKeepsCoherent` | models/window.go:68-158 | For a panel at least 100 by 100, with handles no larger than 70 (`HandleFits`), a well-formed sample and no new press during a resize, one frame never leaves drag and resize active together. The direction is 1..3 exactly while resizing and 0 otherwise. |
| `Windows.HandleInHeaderResizesAndDrags` | models/window.go:92-138 | Without those size premises coherence fails: a press on a handle that reaches into the header begins a resize and a drag in the same frame. |
| `Windows.RunKeepsInvariants` | models/window.go:26-175 | With handles no larger than 70 (`HandleFits`) and no press in the first frame of an ongoing resize, over any run of real pointer samples (`WellFormed`, `Follows`) with a fixed `maxScroll`, a panel that starts coherent, at least 100 by 100 and in its scroll range stays coherent, at least 100 by 100 and in range. |
| `Windows.Window.constructor` | models/window.go:9-24 | A panel starts with the given title, rectangle, handle size, padding and slot, and every flag and offset at zero. |
| `Windows.Window.TakeFocus` | models/window.go:61-65 | Afterwards this panel is active and every other listed panel is inactive. |
| `Windows.Window.Update` | models/window.go:26-175 | The frame's new position, size, drag, resize and scroll state are those of `Step`, and so is the cursor set. Taking focus leaves this panel the only active one, otherwise no focus flag changes. At most one active panel stays at most one. |
| `Windows.Window.UpdateResize` | models/window.go:68-133 | The resize part of the frame in place is `ResizePhase`, focus included. |
| `Windows.Window.UpdateDrag` | models/window.go:135-158 | The drag part of the frame in place is `DragPhase`, focus included. |
| `Windows.Window.UpdateScroll` | models/window.go:160-174 | The wheel part of the frame in place is `ScrollPhase`. |
| `DropdownWidget.OptionRowsDisjoint` | components/dropdown.go:51-56 | Option rows do not overlap: a point lies in at most one. |
| `DropdownWidget.FirstRowAt` | components/dropdown.go:50-68 | The search finds a row holding the point when one exists, and only such a row. |
| `DropdownWidget.RowAtIff` | components/dropdown.go:50-58 | The hit row is `i` exactly when `i` is an option index whose row holds the point. |
| `DropdownWidget.SelectorPressToggles` | components/dropdown.go:46-47 | A press on the selector opens a closed list and closes an open one, selecting nothing. |
| `DropdownWidget.OptionPressSelects` | components/dropdown.go:58-67 | While open, a press on option row `i` selects `i` and closes the list. |
| `DropdownWidget.ChangeFiresIffSelectionChanges` | components/dropdown.go:59-64 | The handler runs exactly when the selection changes, and with the new index. |
| `DropdownWidget.PressElsewhereCloses` | components/dropdown.go:70-73 | While open, any press off the selector closes the list. |
| `DropdownWidget.NoPressNoChange` | components/dropdown.go:42-75 | A frame without a press changes nothing and runs no handler. |
| `DropdownWidget.SelectionStaysValid` | components/dropdown.go:50-60 | Only option indices are ever selected. |
| `DropdownWidget.Dropdown.NewDropdown` | components/dropdown.go:20-29 | A new dropdown is closed with option 0 selected, its selector box 26 high. |
| `DropdownWidget.Dropdown.SetOnChangeHandler` | components/dropdown.go:32-34 | The handler is installed, or removed when a nil handler is given. |
| `DropdownWidget.Dropdown.GetSelectedOption` | components/dropdown.go:38-40 | The result is one of the options. |
| `DropdownWidget.Dropdown.Update` | components/dropdown.go:42-75 | The new selection and open flag are those of `Next`. The handler is called with `Next`'s change when one is installed. A valid selection stays valid. |
| `OrderBookView.DrawableLevels` | components/orderbook.go:77 | Only levels with at least a price and an amount are drawn. |
| `OrderBookView.Reversed` | components/orderbook.go:75 | Walking the asks backwards visits each of them once. |
| `OrderBookView.ReversedIndex` | components/orderbook.go:75-76 | The asks are visited from the last listed to the first. |
| `OrderBookView.Rows` | components/orderbook.go:75-98 | A side never has more rows than levels. |
| `OrderBookView.RowsFollowLevels` | components/orderbook.go:75-98 | There is one row per drawable level. Row `k` is 20·k below the first and shows the price and amount of the `k`-th drawable level. |
| `OrderBookView.RowsRunningTotals` | components/orderbook.go:80 | Each row's total is the sum of the amounts shown down to it, and all rows together show the total amount of the levels walked. |
| `OrderBookView.LastRowShowsTotal` | components/orderbook.go:73-99 | The last row's total is the side's total. |
| `OrderBookView.SumReversed` | components/orderbook.go:73-80 | Summing the asks from the last to the first gives the total of the first `numAsks` asks. |
| `OrderBookView.MaxAmountBounds` | components/orderbook.go:60-70 | The scan result is at least the floor, at least every drawable amount, and equal to the floor or to one of them. |
| `OrderBookView.MaxVolumeBounds` | components/orderbook.go:59-70 | `maxVolume` is at least 0 and at least every drawable amount on both sides, past the cap too. It is 0 or one of those amounts. |
| `OrderBookView.Cap` | components/orderbook.go:26-34 | The count shown is the level count, capped. |
| `OrderBookView.ContentMaxScroll` | components/orderbook.go:36-40 | The range is never negative. It is how far 45 + 20·rows + 30 overflows the area below the 30-high title, and 0 when it fits. |
| `OrderBookView.SpreadRule` | components/orderbook.go:101-111 | With both sides present, the spread is first ask less first bid, and its percentage is of the first bid, not finite when that is 0. With a side empty both are 0. A first level without a price panics. |
| `OrderBookView.ArrangeRows` | components/orderbook.go:25-157 | The caps are min(n, 20) and the range is non-negative. The header line is 35 below the top less the scroll. The asks start 25 lower, walked from the highest index, the spread row follows them, and the bids start 25 below it, all spaced 20 with one row per drawable level. |
| `OrderBookView.ArrangeTotals` | components/orderbook.go:72-157 | Each side's last row shows that side's total. |
| `OrderBookView.RenderCanStrandScroll` | components/orderbook.go:36-40 | A render that shrinks the range leaves the scroll position past it until the wheel moves. |
| `OrderBookView.MaxVolume` | components/orderbook.go:59-70 | The two loops compute `MaxAmount` over all asks, then all bids. |
| `OrderBookView.AskRows` | components/orderbook.go:72-99 | The asks loop from `numAsks - 1` down yields the rows of the reversed capped asks, their total, and where the spread row goes. |
| `OrderBookView.BidRows` | components/orderbook.go:130-157 | The bids loop from 0 up yields the rows of the capped bids and their total. |
| `OrderBookView.LayOut` | components/orderbook.go:25-158 | The render of a snapshot is `Arrange`'s layout, or the panic. |
| `OrderBookView.RenderOrderBook` | components/orderbook.go:11-40 | Without a snapshot: the placeholder 35 below the top, and `maxScroll` untouched. With one: `maxScroll` is rewritten for the capped rows, before anything can panic, and the result is `Arrange`'s. |
| `Client.Consumed` | client/deribit.go:28-34 | The reader reads up to and including the first read error, and no further. |
| `Client.BeforeReadError` | client/deribit.go:29-34 | The frames handled are a prefix with no read error, cut at the first one. |
| `Client.NumberedIdsIncrease` | client/deribit.go:57-67 | The requests sent are order-book requests for the instrument under JSON-RPC 2.0, with strictly increasing ids. |
| `Client.DeliverKeepsLastBook` | client/deribit.go:28-55 | After the reader loop the slot holds the last error-free result read before the first read error, or its old content if there is none. |
| `Client.ReadErrorStops` | client/deribit.go:30-34 | Frames after a read error are never read and change nothing. |
| `Client.ErrorWins` | client/deribit.go:43-47 | A response carrying an error leaves the slot alone, even with a result. |
| `Client.UndecodableSkipped` | client/deribit.go:36-41 | A frame that does not decode is skipped and reading goes on. |
| `Client.DeribitClient.NewDeribitClient` | client/deribit.go:20-26 | A new client has no connection and its first request id is 1. |
| `Client.DeribitClient.Connect` | client/deribit.go:91-108 | A successful dial sets the connection; a failed one reports an error and changes nothing. |
| `Client.DeribitClient.FetchOrderBook` | client/deribit.go:57-80 | Each fetch uses the next id and increments it even when the write fails. The request goes out only on a successful write. The ids stay numbered from 1. |
| `Client.DeribitClient.HandleMessages` | client/deribit.go:28-55 | The reader loop leaves the slot as `Deliver` says and reads `Consumed` frames. |
| `Client.DeribitClient.Close` | client/deribit.go:110-115 | Closing closes an existing connection and does nothing without one. |
| `LegacyMain.LegacyFocus` | main.go:46-69 | The first window takes focus exactly on a press inside it or on its header. |
| `LegacyMain.LegacyDrag` | main.go:55-78 | The first window never changes size. While held, the grabbed point is under the pointer, and releasing ends the drag. |
| `LegacyMain.PanelExtendsLegacy` | main.go:35-79 | Off the resize handles and out of resize mode, the resizable panel moves, grabs and takes focus exactly as the first window does. |
| `LegacyMain.LegacyWindow.NewWindow` | main.go:26-33 | A new window is inactive and idle at the given place and size. |
| `LegacyMain.LegacyWindow.TakeFocus` | main.go:49-52 | Afterwards this window is active and every other listed window is inactive. |
| `LegacyMain.LegacyWindow.Update` | main.go:35-79 | The frame's new position and drag state are `LegacyStep`'s. Taking focus leaves this window the only active one, otherwise no focus flag changes. |
| `LegacyMain.LegacyArrangeRows` | main.go:146-370 | The caps are min(n, 12). The header is 137 below the top, the asks start at 162, and the bids start 30 below the spread row, all spaced 20. |
| `LegacyMain.LegacyArrangeTotals` | main.go:250-338 | Each side's last row shows its total. The spread is best ask less best bid, even with a side empty, and its percentage is not finite for a zero best bid. |
| `LegacyMain.LegacyLayOut` | main.go:146-370 | The first renderer's body is `LegacyArrange`. |
| `LegacyMain.RenderLegacyOrderBook` | main.go:134-144 | Without a snapshot: the placeholder 40 below the top; with one: `LegacyArrange`'s layout. |

## Left out

- Drawing: every draw call, colour, font, text formatting, the volume-bar
  widths, the scissor clipping and the panels' `Draw` methods. The renderers
  return what they would draw as values.
- The mouse cursor: `Window.Update` returns the cursor it would set instead
  of calling the windowing library.
- The windowing library's input functions: the pointer sample is a
  parameter. `pressed ⇒ down` and "a press follows a frame without the
  button" are premises of the run lemmas (`WellFormed`, `Follows`), not
  requirements of `Update`.
- float32 and float64 rounding, NaN and infinities: coordinates, prices and
  amounts are reals. A division by zero in the spread percentage is the
  value `NonFinite`.
- Integer width: request ids are unbounded. The source's `int` would wrap
  after 2^63 requests.
- Go's runtime panics are values: the index panic of the renderer is
  `IndexPanic`. `GetSelectedOption` requires a selected index within the
  options (`Valid()`), so its index panic on an out-of-range index is not
  modelled. Fetching before `Connect` would dereference a nil connection,
  so `FetchOrderBook` requires a connection.
- The websocket itself: dialing, reading and writing are the parameters
  `dialOk`, `writeOk` and the frame sequence. The goroutines, the one-second
  ticker and the concurrent access to the data slot are not modelled. The
  reader loop and the fetcher are each modelled as a single sequential call.
- JSON encoding and decoding: a frame arrives already decoded or marked
  undecodable. Marshalling the request cannot fail for this record, so only
  write failures are modelled. The request's untyped `Params` is typed as
  `OrderBookParams`.
- The panel's untyped `Data` field is a `Slot` holding no snapshot, an
  order-book snapshot, or other data.
- The content callback and the font of a panel, the dropdown's font and
  `Draw`, and the handler's own code: only whether a handler is installed and
  the index it is called with are modelled.
- components/recenttrades.go, constants/colors.go, the top and status bars
  and `main` of main.go are not part of this model.
