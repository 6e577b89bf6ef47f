# NeoTrade order ledger — a Dafny model

NeoTrade is a browser terminal for simulated options trading. A user places
BUY CALL, BUY PUT and FLIP DIRECTION orders. Each order is written to an
append-only collection in a remote store. Everything the terminal shows about
holdings is derived again from that collection each time the store pushes a
snapshot. This project models that ledger logic in
`services/frontend/src/App.jsx`:

- **Position counter** (`orders.dfy`, `snapshot.dfy`, `positions.dfy`). The
  snapshot callback sorts the documents newest first. It then folds them into
  a per-symbol counter: +1 for a `BUY` or `CALL` order, -1 for any other type
  (`SELL`, `PUT`, `FLIP`), whatever the order's `qty`. The fold is a method
  with a loop. It is proved equal to a recursive specification (`Positions`)
  and to a reference sum (`NetCount`). That sum does not depend on the order
  of the documents.
- **Order placement** (`ledger.dfy`). `App` is a class, named after the component
  that owns this state. Its `store` field is the user's collection, and it
  keeps the component's `orders` and `positions` state. `PlaceOrder` does
  nothing without a user. For a flip of a non-zero count it first writes a
  `SQUARED_OFF` order: the opposite side of the count, with `qty` equal to
  the count's absolute value. Then it writes the `EXECUTED` primary order. `Place` states what one call writes.
  `PlacementMovesPosition` states how the count moves as a result.
- **Holdings** (`holdings.dfy`). The Portfolio view folds the orders a second
  time into `{ qty, totalCost }` records. Its key list follows insertion
  order, which is the order `Object.entries` returns. It then drops the
  symbols whose count is zero, keeping the key list's order
  (`ActiveRowsKeepKeyOrder`). That filter keeps the average-price division
  `totalCost / qty` away from zero. The average is modelled as an exact
  `real` in cents.
- **Rule monitor** (`rule_monitor.dfy`). There are four status labels. They
  depend on the selected symbol's count and two local flags. One flag is the
  lock toggle.

Conventions. Prices are integer cents, because the terminal stores every
price with two decimals. Timestamps (`Date.now()`) and the user's presence
are parameters. So is whether the store accepts each write. A rejected
`addDoc` makes `placeOrder` reject at that point, so a rejected closing write
means the primary order is never written.

Facts about the code that the model keeps as written:

- `qty` is ignored by both folds. Each order counts exactly ±1 and adds one
  price to `totalCost`. So a `SQUARED_OFF` order with `qty = 3` moves the
  count by one.
- A `placeOrder(symbol, 'CALL', price, 1, true)` call from +2 ends at +2: the closing SELL counts -1
  and the CALL counts +1.
- The flip button sends type `FLIP`, which counts as short.
  `FlipButtonEffect` proves the consequences. From a long count the flip
  ends two lower. From zero it ends at -1. From a short count it ends where
  it started.
- The re-entry flag is tested for truthiness. So an exit price of 0 shows
  `OFF`, the same as an unset one. No code path ever sets it.

## Model

| member | source | states |
|---|---|---|
| `Orders.Direction` | services/frontend/src/App.jsx:82 | an order counts +1 exactly when its type is BUY or CALL, and -1 for every other type |
| `Orders.Lookup` | services/frontend/src/App.jsx:110 | `positions[symbol]` with its zero default: a present key gives its count, a missing key gives 0 |
| `Orders.SymbolSumAppend` | services/frontend/src/App.jsx:80-83 | a per-symbol sum over two concatenated order lists is the sum of the two parts |
| `Orders.RemoveAt` | services/frontend/src/App.jsx:80-83 | taking one order out of a list takes exactly its contribution out of its symbol's sum |
| `Orders.SymbolSumPermutation` | services/frontend/src/App.jsx:75-83 | a per-symbol sum (count or signed price) is the same for every permutation of the orders |
| `Snapshot.InsertNewestContents` | services/frontend/src/App.jsx:75 | inserting into the sorted list adds exactly that order and nothing else |
| `Snapshot.InsertNewestOrdered` | services/frontend/src/App.jsx:75 | inserting into a newest-first list keeps it newest first |
| `Snapshot.SortNewestFirst` | services/frontend/src/App.jsx:75 | the snapshot list is ordered by descending time and is a permutation of the documents |
| `Positions.Bump` | services/frontend/src/App.jsx:80-83 | one forEach step adds the order's symbol as a key, moves that symbol by its Direction and no other symbol |
| `Positions.PositionsAreNetCounts` | services/frontend/src/App.jsx:79-83 | the counter has a key exactly for each symbol that occurs, and each value is the signed order count |
| `Positions.OrderMovesItsSymbolByOne` | services/frontend/src/App.jsx:81-82 | one more order moves its own symbol by exactly its Direction, whatever its qty, and leaves every other symbol alone |
| `Positions.PositionsPermutation` | services/frontend/src/App.jsx:75-83 | any reordering of the orders, the newest-first sort included, gives the same counter |
| `Positions.ComputePositions` | services/frontend/src/App.jsx:79-83 | the forEach loop builds the specified counter; its keys are the symbols present and its lookups are the signed counts |
| `Positions.ProcessSnapshot` | services/frontend/src/App.jsx:74-84 | a snapshot gives a newest-first permutation of the documents and a counter equal to the one over the documents in the store's order |
| `Holdings.RecordStep` | services/frontend/src/App.jsx:351-359 | one forEach step creates the symbol's record if it is new, moves only that record by ±1 and ±price, and keeps each key listed once |
| `Holdings.TallyMeaning` | services/frontend/src/App.jsx:349-360 | the accumulator lists each symbol once, its qty is the symbol's position and its totalCost is the signed price sum |
| `Holdings.ActiveRows` | services/frontend/src/App.jsx:361 | the filter keeps exactly the entries with non-zero qty, unchanged, drawn from the key list; distinct keys give distinct rows |
| `Holdings.ActiveRowsKeepKeyOrder` | services/frontend/src/App.jsx:361 | the filter lists its rows in the order their symbols take in the key list |
| `Holdings.Holdings` | services/frontend/src/App.jsx:348-362 | every holdings row has non-zero qty equal to its position count, every symbol with a non-zero count has its row, and no symbol is listed twice |
| `Holdings.ComputeHoldings` | services/frontend/src/App.jsx:348-362 | the memo's loop and filter produce exactly the specified holdings list |
| `Holdings.HoldingsPermutation` | services/frontend/src/App.jsx:349-361 | permuting the orders lists the same held rows (qty and totalCost) |
| `Holdings.AveragePrice` | services/frontend/src/App.jsx:409 | for a non-zero qty, the average times qty gives back totalCost |
| `Holdings.PositionLines` | services/frontend/src/App.jsx:403-409 | each table line carries its row's symbol and qty and an average consistent with its totalCost |
| `Holdings.HeldSymbolsListed` | services/frontend/src/App.jsx:348-362 | every symbol with a non-zero count appears at some index of the holdings list |
| `Holdings.PortfolioLines` | services/frontend/src/App.jsx:401-409 | every line of the positions table has a non-zero qty equal to the position count, and its average matches the signed price sum; every symbol with a non-zero count has exactly one line |
| `Ledger.Abs` | services/frontend/src/App.jsx:113 | the closing quantity is the count or its negation and is never negative |
| `Ledger.ClosingOrder` | services/frontend/src/App.jsx:112-114 | the closing order of a flip is SQUARED_OFF, for the symbol, price and time given, on the opposite side (SELL a long count, BUY a short one) with qty the count's absolute value, and on its own it moves a non-zero count one step toward zero |
| `Ledger.Place` | services/frontend/src/App.jsx:106-127 | without a user nothing is written; a flip of a non-zero count writes the opposite-side SQUARED_OFF order for the full count first; a rejected closing write aborts the flip; the EXECUTED primary order is last; with a user the call resolves iff the primary write is accepted and no needed closing write was rejected; a call that resolves with a user writes two orders for a flip of a non-zero count and exactly one otherwise; all orders are for the given symbol and price |
| `Ledger.PlacementMovesPosition` | services/frontend/src/App.jsx:109-126 | on an up-to-date count, an accepted call moves the symbol by the primary order's Direction, plus one step toward zero for a flip; other symbols do not move |
| `Ledger.FlipButtonEffect` | services/frontend/src/App.jsx:281 | the FLIP button takes a long count two lower, zero to -1, and leaves a short count unchanged |
| `Ledger.App.constructor` | services/frontend/src/App.jsx:52-53 | the component mounts with empty `orders` and `positions` over the store's existing collection; it is in sync at once exactly when that collection is empty |
| `Ledger.App.Append` | services/frontend/src/App.jsx:126 | a write the store accepts appends the order at the end, and a rejected write changes nothing |
| `Ledger.App.OnSnapshot` | services/frontend/src/App.jsx:74-85 | the component keeps a newest-first permutation of the snapshot and its counter; a full snapshot of the store leaves the component synced |
| `Ledger.App.PlaceOrder` | services/frontend/src/App.jsx:106-127 | the store becomes the old store followed by exactly what `Place` writes, so earlier entries never change; from a synced state the symbol's count moves as `PlacementMovesPosition` states |
| `RuleMonitor.RuleLines` | services/frontend/src/App.jsx:248-252 | the panel lists Break-even Protection (Rule 2), 10-pt Profit Lock (Rule 4), Trend Continuation (Rule 1) and Re-entry Detection (Rule 3/5) in that order; break-even is always ACTIVE; profit lock is LOCKED iff locked, else MONITORING; trend is FOLLOWING iff the count is non-zero, else IDLE; re-entry is WATCHING iff the exit price is truthy, else OFF |
| `RuleMonitor.ToggleLock` | services/frontend/src/App.jsx:287 | the lock button negates the lock flag and keeps the exit price |
| `RuleMonitor.ToggleTwiceRestores` | services/frontend/src/App.jsx:287 | pressing the lock button twice restores the panel state |
| `RuleMonitor.ToggleChangesOnlyProfitLock` | services/frontend/src/App.jsx:250 | toggling the lock changes the Profit Lock status and no other line |
| `RuleMonitor.TrendFollowsSnapshot` | services/frontend/src/App.jsx:251 | Trend Continuation shows FOLLOWING exactly when the selected symbol's signed order count is non-zero |

Specification helpers without rows of their own: `Ledger.PrimaryOrder`
(App.jsx:118-125) is stated by `Ledger.Place`; `RuleMonitor.CurrentPosition`
(App.jsx:213) and `RuleMonitor.Truthy` (App.jsx:252) by `RuleMonitor.RuleLines`
and `RuleMonitor.TrendFollowsSnapshot`; `Positions.Positions` (App.jsx:80-83)
by `Positions.PositionsAreNetCounts`; `Holdings.Record`, `Holdings.Tally` and
`Holdings.SignedPrice` (App.jsx:350-360) by `Holdings.RecordStep` and
`Holdings.TallyMeaning`.

## Left out

- Firebase set-up, authentication, and the `onSnapshot`/`addDoc` transport
  (App.jsx:24-37, 56-73) are not modelled. The store is the `store`
  sequence. A snapshot is a parameter listing its documents in the store's
  own order. The user's presence is a parameter.
- Store document ids are not modelled. A write whose outcome is ambiguous
  (stored, but the acknowledgement is lost) is not modelled either: an
  accepted write is stored and a rejected one is not.
- `App.PlaceOrder`: overlapping calls are not modelled. Each call is
  atomic here, but the code awaits each `addDoc`, so two calls in flight can
  interleave their writes between one call's closing order and its primary
  order, and both can read the same stale count.
- The component's `positions` may be stale when `placeOrder` reads it.
  `PlaceOrder` reads the field as it is. The position lemmas assume the
  counter agrees with the store.
- The live price feed (App.jsx:89-104) is not modelled. It relies on
  `Math.random`, floating-point prices and `setInterval`.
- The insight request and the chart canvas (App.jsx:462-545) are not
  modelled. They are a network call and random drawing.
- JSX layout, the hard-coded display figures (App.jsx:338, 371, 376, 380,
  411), the LTP lookup (App.jsx:410), the status highlight (App.jsx:259) and
  the `balance` display, which never changes (`setBalance` is never
  called), are not modelled.
- Number formatting is not modelled. Prices enter already rounded to cents,
  which stands in for `price.toFixed(2)` and `parseFloat`. The average price
  is an exact `real`, not a double.
- JavaScript numbers are not modelled: counts are unbounded integers, and
  `totalCost` is an exact sum of integer cents. The code sums the
  `parseFloat` prices as doubles, which are not exact for two-decimal
  values, so its `totalCost` and average can differ from the model's in the
  last digits.
- `Object.entries` lists integer-like keys first, in numeric order. This is
  not modelled. Symbols here are names such as `GOLD (MCX)`.
- `Snapshot.SortNewestFirst` stands in for the engine's `Array.prototype.sort`.
  It is a stable insertion sort. Only its ordering and that it is a
  permutation are proved; stability is not stated.
