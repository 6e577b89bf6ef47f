/** The Portfolio view's holdings memo (App.jsx, Portfolio): a second fold
    over the order list that keeps a count and a signed price sum per symbol,
    then drops the symbols whose count is zero. */
module Holdings {
  import opened Orders

  /** The accumulator record `{ qty, totalCost }`; `totalCost` is in cents. */
  datatype Holding = Holding(qty: int, totalCost: int)

  /** The accumulator object: its entries, and its keys in insertion order
      (the order `Object.entries` lists them in). */
  datatype Table = Table(entries: map<string, Holding>, keys: seq<string>)

  /** One `[symbol, holding]` pair of `Object.entries`. */
  datatype Row = Row(symbol: string, holding: Holding)

  /** The key list names each entry exactly once. */
  ghost predicate Consistent(t: Table)
  {
    && (forall k :: k in t.keys <==> k in t.entries)
    && (forall i, j :: 0 <= i < j < |t.keys| ==> t.keys[i] != t.keys[j])
  }

  /** An order's price with its Direction's sign: +price for BUY or CALL,
      -price otherwise, one price per order whatever its quantity. */
  function SignedPrice(o: Order): int
  {
    if Direction(o.kind) == 1 then o.price else -o.price
  }

  /** The signed price sum of the orders for `symbol`. */
  function SignedCost(orders: seq<Order>, symbol: string): int
  {
    SymbolSum(orders, symbol, SignedPrice)
  }

  /** One iteration of the forEach body. */
  function Record(t: Table, o: Order): Table
  {
    var t1 := if o.symbol in t.entries then t
              else Table(t.entries[o.symbol := Holding(0, 0)], t.keys + [o.symbol]);
    var h := t1.entries[o.symbol];
    if o.kind == Buy || o.kind == Call then
      Table(t1.entries[o.symbol := Holding(h.qty + 1, h.totalCost + o.price)], t1.keys)
    else
      Table(t1.entries[o.symbol := Holding(h.qty - 1, h.totalCost - o.price)], t1.keys)
  }

  /** The accumulator after folding `orders` from first to last. */
  function Tally(orders: seq<Order>): Table
  {
    if orders == [] then Table(map[], [])
    else Record(Tally(orders[..|orders| - 1]), orders[|orders| - 1])
  }

  /** One forEach step keeps the key list consistent, adds the order's
      symbol if new, and moves only that symbol's record, by its Direction
      and its signed price. */
  lemma RecordStep(t: Table, o: Order)
    requires Consistent(t)
    ensures Consistent(Record(t, o))
    ensures Record(t, o).entries.Keys == t.entries.Keys + {o.symbol}
    ensures forall symbol :: symbol in t.entries && symbol != o.symbol ==>
              Record(t, o).entries[symbol] == t.entries[symbol]
    ensures var h := if o.symbol in t.entries then t.entries[o.symbol] else Holding(0, 0);
            Record(t, o).entries[o.symbol] == Holding(h.qty + Direction(o.kind), h.totalCost + SignedPrice(o))
  {
    if o.symbol !in t.entries {
      var keys := t.keys + [o.symbol];
      forall i, j | 0 <= i < j < |keys| ensures keys[i] != keys[j] {
        assert keys[i] == t.keys[i] && t.keys[i] in t.entries;
        if j < |t.keys| {
          assert keys[j] == t.keys[j];
        }
      }
      assert Record(t, o).keys == keys;
    }
  }

  /** The accumulator lists each symbol once, its count is the symbol's
      position and its cost the signed price sum. */
  lemma {:induction false} TallyMeaning(orders: seq<Order>)
    ensures Consistent(Tally(orders))
    ensures forall symbol :: symbol in Tally(orders).entries ==>
              && Tally(orders).entries[symbol].qty == NetCount(orders, symbol)
              && Tally(orders).entries[symbol].totalCost == SignedCost(orders, symbol)
    ensures forall symbol :: symbol !in Tally(orders).entries ==>
              NetCount(orders, symbol) == 0 && SignedCost(orders, symbol) == 0
    decreases |orders|
  {
    if orders != [] {
      var init := orders[..|orders| - 1];
      var o := orders[|orders| - 1];
      TallyMeaning(init);
      var t := Tally(init);
      RecordStep(t, o);
      assert Tally(orders) == Record(t, o);
      forall symbol
        ensures NetCount(orders, symbol) == NetCount(init, symbol) + (if o.symbol == symbol then Direction(o.kind) else 0)
        ensures SignedCost(orders, symbol) == SignedCost(init, symbol) + (if o.symbol == symbol then SignedPrice(o) else 0)
      {
      }
    }
  }

  /** `Object.entries(map).filter(([_, v]) => v.qty !== 0)`. */
  function ActiveRows(entries: map<string, Holding>, keys: seq<string>): (rows: seq<Row>)
    requires forall k :: k in keys ==> k in entries
    ensures forall r :: r in rows ==> r.holding.qty != 0
    ensures forall r :: r in rows ==> r.symbol in keys && r.holding == entries[r.symbol]
    ensures forall k :: k in keys ==> (Row(k, entries[k]) in rows <==> entries[k].qty != 0)
    ensures |rows| <= |keys|
    // distinct keys give distinct rows
    ensures (forall i, j :: 0 <= i < j < |keys| ==> keys[i] != keys[j]) ==>
              forall i, j :: 0 <= i < j < |rows| ==> rows[i].symbol != rows[j].symbol
  {
    if keys == [] then []
    else
      var rest := ActiveRows(entries, keys[1..]);
      var k := keys[0];
      assert (forall i, j :: 0 <= i < j < |keys| ==> keys[i] != keys[j]) ==>
               && (forall i, j :: 0 <= i < j < |keys[1..]| ==> keys[1..][i] != keys[1..][j])
               && k !in keys[1..];
      if entries[k].qty != 0 then [Row(k, entries[k])] + rest else rest
  }

  /** `RowsInKeyOrder(rows, keys)`: each pair of rows appears in the same order
      as their symbols in the key list. */
  ghost predicate RowsInKeyOrder(rows: seq<Row>, keys: seq<string>)
  {
    forall i, j :: 0 <= i < j < |rows| ==> KeyBefore(keys, rows[i].symbol, rows[j].symbol)
  }

  /** `x` occurs in the key list at some position before an occurrence of `y`. */
  ghost predicate KeyBefore(keys: seq<string>, x: string, y: string)
  {
    exists a, b :: 0 <= a < b < |keys| && keys[a] == x && keys[b] == y
  }

  /** A key in front of the key list keeps every ordered pair ordered. */
  lemma SkipKeyOrder(rows: seq<Row>, k: string, keys: seq<string>)
    requires RowsInKeyOrder(rows, keys)
    ensures RowsInKeyOrder(rows, [k] + keys)
  {
    var all := [k] + keys;
    forall i, j | 0 <= i < j < |rows|
      ensures KeyBefore(all, rows[i].symbol, rows[j].symbol)
    {
      assert KeyBefore(keys, rows[i].symbol, rows[j].symbol);
      var a, b :| 0 <= a < b < |keys| && keys[a] == rows[i].symbol && keys[b] == rows[j].symbol;
      assert all[a + 1] == keys[a] && all[b + 1] == keys[b];
    }
  }

  /** A row for the front key, put in front of rows drawn from the rest of
      the key list, keeps the rows in key order. */
  lemma ConsKeyOrder(r: Row, rows: seq<Row>, keys: seq<string>)
    requires RowsInKeyOrder(rows, keys)
    requires forall x :: x in rows ==> x.symbol in keys
    ensures RowsInKeyOrder([r] + rows, [r.symbol] + keys)
  {
    var all := [r.symbol] + keys;
    var out := [r] + rows;
    forall i, j | 0 <= i < j < |out|
      ensures KeyBefore(all, out[i].symbol, out[j].symbol)
    {
      assert out[j] == rows[j - 1] && rows[j - 1] in rows;
      if i == 0 {
        var b :| 0 <= b < |keys| && keys[b] == out[j].symbol;
        assert all[0] == out[i].symbol && all[b + 1] == out[j].symbol;
      } else {
        assert out[i] == rows[i - 1];
        assert KeyBefore(keys, rows[i - 1].symbol, rows[j - 1].symbol);
        var a, b :| 0 <= a < b < |keys| && keys[a] == rows[i - 1].symbol && keys[b] == rows[j - 1].symbol;
        assert all[a + 1] == out[i].symbol && all[b + 1] == out[j].symbol;
      }
    }
  }

  /** The filter keeps the rows in the order of the key list. */
  lemma {:induction false} ActiveRowsKeepKeyOrder(entries: map<string, Holding>, keys: seq<string>)
    requires forall k :: k in keys ==> k in entries
    ensures RowsInKeyOrder(ActiveRows(entries, keys), keys)
  {
    if keys != [] {
      var k, tail := keys[0], keys[1..];
      assert keys == [k] + tail;
      var rest := ActiveRows(entries, tail);
      ActiveRowsKeepKeyOrder(entries, tail);
      if entries[k].qty != 0 {
        ConsKeyOrder(Row(k, entries[k]), rest, tail);
      } else {
        SkipKeyOrder(rest, k, tail);
      }
    }
  }

  /** The holdings list of an order list: the fold, then the zero filter.
      Each listed symbol has a non-zero count equal to its position and its
      signed price sum; every symbol with a non-zero position is listed. */
  function Holdings(orders: seq<Order>): (rows: seq<Row>)
    ensures forall r :: r in rows ==>
              && r.holding.qty != 0
              && r.holding.qty == NetCount(orders, r.symbol)
              && r.holding.totalCost == SignedCost(orders, r.symbol)
    ensures forall symbol :: NetCount(orders, symbol) != 0 ==>
              Row(symbol, Holding(NetCount(orders, symbol), SignedCost(orders, symbol))) in rows
    // each symbol is listed at most once
    ensures forall i, j :: 0 <= i < j < |rows| ==> rows[i].symbol != rows[j].symbol
  {
    TallyMeaning(orders);
    var t := Tally(orders);
    ActiveRows(t.entries, t.keys)
  }

  /** The memo: the forEach loop over the order list, then the zero filter. */
  method ComputeHoldings(orders: seq<Order>) returns (rows: seq<Row>)
    ensures rows == Holdings(orders)
  {
    var entries: map<string, Holding> := map[];
    var keys: seq<string> := [];
    var i := 0;
    while i < |orders|
      invariant 0 <= i <= |orders|
      invariant Table(entries, keys) == Tally(orders[..i])
    {
      var o := orders[i];
      if o.symbol !in entries {
        entries := entries[o.symbol := Holding(0, 0)];
        keys := keys + [o.symbol];
      }
      var val := o.price;
      var h := entries[o.symbol];
      if o.kind == Buy || o.kind == Call {
        entries := entries[o.symbol := Holding(h.qty + 1, h.totalCost + val)];
      } else {
        entries := entries[o.symbol := Holding(h.qty - 1, h.totalCost - val)];
      }
      assert orders[..i + 1][..i] == orders[..i];
      i := i + 1;
    }
    assert orders[..|orders|] == orders;
    TallyMeaning(orders);
    rows := ActiveRows(entries, keys);
  }

  /** `avg` is the mean price of `qty` units whose prices sum to `cost`. */
  predicate IsAverage(avg: real, qty: int, cost: int)
  {
    avg * (qty as real) == cost as real
  }

  /** The Avg Price cell `totalCost / qty`, as an exact quotient in cents:
      defined only for a non-zero count. */
  function AveragePrice(h: Holding): (avg: real)
    requires h.qty != 0
    ensures IsAverage(avg, h.qty, h.totalCost)
  {
    h.totalCost as real / h.qty as real
  }

  /** One line of the Active Positions table: instrument, count, average. */
  datatype PositionLine = PositionLine(symbol: string, qty: int, avgPrice: real)

  /** The table body: every row the filter kept, with its average price. The
      filter is what makes every division here well defined. */
  function PositionLines(rows: seq<Row>): (lines: seq<PositionLine>)
    requires forall r :: r in rows ==> r.holding.qty != 0
    ensures |lines| == |rows|
    ensures forall i :: 0 <= i < |rows| ==>
              && lines[i].symbol == rows[i].symbol
              && lines[i].qty == rows[i].holding.qty
              && IsAverage(lines[i].avgPrice, lines[i].qty, rows[i].holding.totalCost)
  {
    if rows == [] then []
    else [PositionLine(rows[0].symbol, rows[0].holding.qty, AveragePrice(rows[0].holding))] + PositionLines(rows[1..])
  }

  /** Every symbol with a non-zero count has a holdings row, found by index. */
  lemma HeldSymbolsListed(orders: seq<Order>)
    ensures forall symbol :: NetCount(orders, symbol) != 0 ==>
              exists i :: 0 <= i < |Holdings(orders)| && Holdings(orders)[i].symbol == symbol
  {
    var rows := Holdings(orders);
    forall symbol | NetCount(orders, symbol) != 0
      ensures exists i :: 0 <= i < |rows| && rows[i].symbol == symbol
    {
      var r := Row(symbol, Holding(NetCount(orders, symbol), SignedCost(orders, symbol)));
      assert r in rows;
      var i :| 0 <= i < |rows| && rows[i] == r;
    }
  }

  /** The Active Positions table of an order list: one line per held symbol,
      with a non-zero count equal to its position and an average price that
      times the count gives back the signed price sum. */
  function PortfolioLines(orders: seq<Order>): (lines: seq<PositionLine>)
    ensures forall i :: 0 <= i < |lines| ==> lines[i].qty != 0
    ensures forall i :: 0 <= i < |lines| ==> lines[i].qty == NetCount(orders, lines[i].symbol)
    ensures forall i :: 0 <= i < |lines| ==>
              IsAverage(lines[i].avgPrice, lines[i].qty, SignedCost(orders, lines[i].symbol))
    // every held symbol has a line, and only one
    ensures forall symbol :: NetCount(orders, symbol) != 0 ==>
              exists i :: 0 <= i < |lines| && lines[i].symbol == symbol
    ensures forall i, j :: 0 <= i < j < |lines| ==> lines[i].symbol != lines[j].symbol
  {
    var rows := Holdings(orders);
    HeldSymbolsListed(orders);
    var lines := PositionLines(rows);
    assert forall i :: 0 <= i < |lines| ==>
      && rows[i] in rows
      && lines[i].symbol == rows[i].symbol
      && lines[i].qty == rows[i].holding.qty
      && rows[i].holding.totalCost == SignedCost(orders, lines[i].symbol);
    lines
  }

  /** The same orders in any order give the same held rows (the listing
      order follows first appearance and may differ). */
  lemma HoldingsPermutation(s: seq<Order>, t: seq<Order>, r: Row)
    requires multiset(s) == multiset(t)
    ensures r in Holdings(s) <==> r in Holdings(t)
  {
    SymbolSumPermutation(s, t, r.symbol, UnitWeight);
    SymbolSumPermutation(s, t, r.symbol, SignedPrice);
    assert NetCount(s, r.symbol) == NetCount(t, r.symbol);
    assert SignedCost(s, r.symbol) == SignedCost(t, r.symbol);
    var held := Row(r.symbol, Holding(NetCount(s, r.symbol), SignedCost(s, r.symbol)));
    if r in Holdings(s) {
      assert r == held;
      assert held in Holdings(t);
    }
    if r in Holdings(t) {
      assert r == Row(r.symbol, Holding(NetCount(t, r.symbol), SignedCost(t, r.symbol)));
      assert held in Holdings(s);
    }
  }
}
