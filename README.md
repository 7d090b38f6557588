# Order book page: book state and display reconciliation

This project models the core of a small trading page. The page shows a
two-sided order book of `[quantity, price]` pairs. A button adds a random buy
or sell order. The new order is prepended to the book right away, then posted
through a simulated API call. If the call fails, the order is removed again.
The project models:

- the page-wide `orderData` object. It maps an order type name to that
  side's orders, newest first (`OrderStore.Book`, a `map<string, seq<Order>>`
  read through `Lookup`, where a missing key reads as no orders);
- its three changes: the snapshot load replaces it, `unshift` prepends one
  order, and `shift` rolls that order back;
- the children of the `#orderbook` element as a `seq<Row>`, where
  `Row = OrderRow(order) | Separator`;
- the two rendering rules. `processData` always rebuilds the display from the
  book. `addOrderWithAnimation` inserts a single row and exists only in
  `src/app.js`;
- `generateRandomOrder`, with its two `Math.random()` draws passed in as
  reals, and `postOrder`, with the outcome of its delay passed in.

The page is script state changed in place, so it is a class,
`Reconciler.OrderBookPage`, with the fields `orderData` and `orderbook`.
`addNewOrder` suspends at its call to `postOrder`, so it is split there into
two steps:

- `BeginOrder` does the generation and the prepend.
- `ResolveAnimated` (`src/app.js`) or `ResolveRebuild` (`app.js`) runs the
  `.then` callback with the post's result.

Overlapping submissions on one side are two `BeginOrder` calls before their
resolves. `AddNewOrderAnimated` and `AddNewOrderRebuild` model a submission
that nothing overlaps.

`app.js` is a near-copy of `src/app.js`. Its `generateRandomOrder`,
`postOrder` and `processData` are identical to those of `src/app.js`
(`app.js:8-12`, `app.js:15-36`, `app.js:70-112`), so each is modelled once.
The two files differ only in the success path of `addNewOrder`, which gives
the two resolve methods.

Two properties of the code as written are proved:

- The incremental insert matches a full rebuild exactly when it is not a buy
  order going into a book with no buy orders (`AnimatedInsertMatchesRebuild`).
  In that case the first `.order-row` is a sell row, or there is none, so the
  new buy row lands below the separator, where a rebuild would show the
  newest sell order (`BuyInsertIntoEmptyBuySideShowsAsSell`).
- The rollback removes whatever sits at index 0 when it runs. If a second
  submission on the same side prepended in the meantime, the rollback of the
  first removes the second's order and keeps the failed one
  (`OverlappingRollbackRemovesLatest`).

## Model

| member | source | states |
|---|---|---|
| `OrderStore.GenerateRandomOrder` | src/app.js:8-12 | For draws in [0, 1), the quantity lies in [0.1, 10.1) and the price in [50, 1050). |
| `OrderStore.GenerateRandomOrderCoversRange` | src/app.js:8-12 | Every quantity in [0.1, 10.1) with every price in [50, 1050) comes from some pair of draws in [0, 1), so the ranges are exact. |
| `OrderStore.PostOrder` | src/app.js:15-36 | The result is a success exactly when the delay elapses, and then its data is the payload unchanged. When the delay throws, the result is a failure that carries the thrown error, which is not propagated. |
| `OrderStore.Unshift` | src/app.js:43-46 | A missing side is created. The side's sequence grows by exactly one, its index 0 is the new order, its tail is the old sequence, and every other side reads as before. |
| `OrderStore.Shift` | src/app.js:58 | A non-empty side loses its index-0 element. An empty or missing side leaves the book unchanged (on a missing key the call throws). Every other side reads as before. |
| `OrderStore.ShiftUndoesUnshift` | src/app.js:43-58 | Shift after unshift restores every side's sequence. It restores the book itself when the side existed; otherwise the side remains as an empty sequence. |
| `OrderStore.OverlappingRollbackRemovesLatest` | src/app.js:46-58 | After two prepends on one side, one rollback leaves the first, failed order in the book and removes the second one. The result differs from the intended outcome whenever the two orders differ. |
| `Rendering.FirstOrderRow` | src/app.js:83-88 | The index of the first order row, or the length when there is none. Only separators come before it. |
| `Rendering.FirstSeparator` | src/app.js:94-95 | The index of the first separator, or the length when there is none. Only order rows come before it. |
| `Rendering.RenderLayout` | src/app.js:115-157 | The rebuilt display is the buy rows in store order, then exactly one separator at index \|buy\|, then the sell rows in store order. A missing side gives no rows. The first order row is at 0 when there are buy orders, and at 1 otherwise. |
| `Rendering.AnimatedBuyPosition` | src/app.js:85-91 | The new buy row becomes the first order row of the display, with only separators above it. Removing it gives back the old display. |
| `Rendering.AnimatedSellPosition` | src/app.js:92-99 | With a separator present, the new sell row sits directly after the first separator, and removing it gives back the old display. Without one, the row is appended. |
| `Rendering.AnimatedInsertAddsOneRow` | src/app.js:83-100 | For buy or sell, the display gains exactly one order row (the new order) and no separator. Any other order type leaves the display unchanged. |
| `Rendering.AnimatedBuyMatchesRebuild` | src/app.js:85-91 | On a rebuilt display of a book with buy orders, the buy insert equals the rebuild of the book after the prepend. |
| `Rendering.AnimatedBuyIntoEmptyBuySide` | src/app.js:83-91 | On a rebuilt display of a book with no buy orders, the buy insert leaves the separator on top, whereas the rebuild after the prepend puts the new order on top. |
| `Rendering.AnimatedSellMatchesRebuild` | src/app.js:92-99 | On any rebuilt display, the sell insert equals the rebuild of the book after the prepend. |
| `Rendering.AnimatedInsertMatchesRebuild` | src/app.js:83-100 | Incremental insert into a rebuilt display equals the rebuild after the prepend if and only if it is not a buy order into a book with no buy orders. |
| `Rendering.BuyInsertIntoEmptyBuySideShowsAsSell` | src/app.js:83-91 | With no buy orders, the incrementally inserted buy row is displayed exactly as if the order had been prepended to the sell side. |
| `Rendering.RebuildShowsNewOrderFirst` | app.js:51-54 | After a prepend and a rebuild, the new order is the top row of its side's section (right below the separator for sell). Every other row is as in the rebuild before the prepend. |
| `Reconciler.OrderBookPage.constructor` | src/app.js:5 | The book starts as the empty object. |
| `Reconciler.OrderBookPage.ProcessData` | src/app.js:115-157 | The display becomes the full rebuild of the unchanged book. It does not depend on the previous display, so the method is idempotent. |
| `Reconciler.OrderBookPage.LoadSnapshot` | src/app.js:108-113 | The book is replaced wholesale by the snapshot, and the display becomes its full rebuild. |
| `Reconciler.OrderBookPage.BeginOrder` | src/app.js:39-46 | The generated order is prepended to its side, creating the side if it is missing. The display is unchanged. |
| `Reconciler.OrderBookPage.AddOrderWithAnimation` | src/app.js:64-100 | The display becomes the incremental insert of the order, and the book is unchanged. |
| `Reconciler.OrderBookPage.ResolveAnimated` | src/app.js:50-60 | On success the book is unchanged and the row is inserted incrementally. On failure the side is shifted and the display is unchanged. |
| `Reconciler.OrderBookPage.ResolveRebuild` | app.js:50-60 | On success the book is unchanged and the display is its full rebuild. On failure the side is shifted and the display is unchanged. |
| `Reconciler.OrderBookPage.AddNewOrderAnimated` | src/app.js:39-61 | On success the side gains the order at index 0 and the display gains its row. A display that showed the book still does, unless a buy order went into a book with no buy orders. On failure every side reads as before and the display and its consistency are unchanged. |
| `Reconciler.OrderBookPage.AddNewOrderRebuild` | app.js:39-61 | On success the side gains the order at index 0 and the display shows the new book. On failure every side reads as before and the display is unchanged. |

## Left out

- The `fetch('data.json')` request and JSON parsing are left out. Only their effect, the wholesale replacement of the book followed by a rebuild, is modelled (`LoadSnapshot`). A payload whose sides are not arrays of pairs cannot be expressed.
- Button event listeners, `active` class toggling and console logging are left out as UI wiring. So is the `action` argument of `processData`, which only selects a log line.
- The 100 ms simulated delay and the 600 ms timer that strips the `new-order` class are left out. The delay becomes the `Delay` parameter of `PostOrder`.
- Rows are compared by their order only. The `new-order`, `buy-row` and `sell-row` classes are not modelled, and neither are the `toFixed(4)`/`toFixed(2)` texts.
- `Math.random` and IEEE doubles are not modelled. The draws are `real` parameters, and quantities and prices are `real`.
- Promise scheduling is not modelled beyond the split of `addNewOrder` into a begin step and a resolve step. The interleavings are sequences of those method calls.
- `OrderStore.Shift`: the TypeError thrown by `shift` on a side the book no longer has is not modelled as an error. That can happen when a snapshot arrives while a post is pending. Only its effect on the state is kept: nothing changes.
- `OrderStore.Book` treats every missing key as absent. JavaScript object keys that name inherited properties (`constructor`, `__proto__`) are not modelled. The page only ever uses `buy` and `sell`.
- The initial children of `#orderbook` come from the HTML page, which is not part of this model. The constructor starts with an empty display.

Where a design-level reading of the page and its code differ, the model
follows the code:

- The incremental buy insert is not always "top of the buy column". See
  `AnimatedInsertMatchesRebuild`.
- Rolling back on an empty side is a silent no-op, not a signalled error.
