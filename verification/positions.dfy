/** The per-symbol position counter the terminal rebuilds from every store
    snapshot (App.jsx, the onSnapshot callback). */
module Positions {
  import opened Orders
  import Snapshot

  /** One step of the fold: the order's symbol moves by its Direction. */
  function Bump(pos: map<string, int>, o: Order): (r: map<string, int>)
    ensures r.Keys == pos.Keys + {o.symbol}
    ensures Lookup(r, o.symbol) == Lookup(pos, o.symbol) + Direction(o.kind)
    ensures forall symbol :: symbol != o.symbol ==> Lookup(r, symbol) == Lookup(pos, symbol)
  {
    pos[o.symbol := Lookup(pos, o.symbol) + Direction(o.kind)]
  }

  /** The counter after folding `orders` from first to last. */
  function Positions(orders: seq<Order>): map<string, int>
  {
    if orders == [] then map[]
    else Bump(Positions(orders[..|orders| - 1]), orders[|orders| - 1])
  }

  /** The fold holds a key exactly for the symbols that occur, and the value
      under each symbol is the reference NetCount. */
  lemma {:induction false} PositionsAreNetCounts(orders: seq<Order>)
    ensures Positions(orders).Keys == Symbols(orders)
    ensures forall symbol :: Lookup(Positions(orders), symbol) == NetCount(orders, symbol)
    decreases |orders|
  {
    if orders != [] {
      var init := orders[..|orders| - 1];
      var last := orders[|orders| - 1];
      assert orders == init + [last];
      PositionsAreNetCounts(init);
      assert Symbols(orders) == Symbols(init) + {last.symbol} by {
        forall s | s in Symbols(orders) ensures s in Symbols(init) + {last.symbol} {
          var o :| o in orders && o.symbol == s;
          assert o in init || o == last;
        }
        forall s | s in Symbols(init) ensures s in Symbols(orders) {
          var o :| o in init && o.symbol == s;
          assert o in orders;
        }
      }
      forall symbol ensures Lookup(Positions(orders), symbol) == NetCount(orders, symbol) {
        assert NetCount(orders, symbol) == NetCount(init, symbol) + (if last.symbol == symbol then Direction(last.kind) else 0);
      }
    }
  }

  /** Appending one order moves its own symbol by exactly +1 (BUY, CALL) or
      -1 (any other type), whatever its quantity; no other symbol moves. */
  lemma OrderMovesItsSymbolByOne(orders: seq<Order>, o: Order, symbol: string)
    ensures Lookup(Positions(orders + [o]), symbol)
         == Lookup(Positions(orders), symbol) + (if symbol == o.symbol then Direction(o.kind) else 0)
  {
  }

  /** Any reordering of the same orders, the newest-first sort included,
      gives the same position map. */
  lemma {:induction false} PositionsPermutation(s: seq<Order>, t: seq<Order>)
    requires multiset(s) == multiset(t)
    ensures Positions(s) == Positions(t)
  {
    PositionsAreNetCounts(s);
    PositionsAreNetCounts(t);
    assert Symbols(s) == Symbols(t) by {
      forall o ensures o in s <==> o in t {
        assert o in s <==> o in multiset(s);
        assert o in t <==> o in multiset(t);
      }
    }
    forall symbol | symbol in Positions(s) ensures Positions(s)[symbol] == Positions(t)[symbol] {
      SymbolSumPermutation(s, t, symbol, UnitWeight);
      assert Lookup(Positions(s), symbol) == NetCount(s, symbol);
      assert Lookup(Positions(t), symbol) == NetCount(t, symbol);
    }
  }

  /** The forEach loop of the snapshot callback: a fresh accumulator, and
      for each order `if (!pos[sym]) pos[sym] = 0; pos[sym] += dir`. */
  method ComputePositions(orders: seq<Order>) returns (pos: map<string, int>)
    ensures pos == Positions(orders)
    ensures pos.Keys == Symbols(orders)
    ensures forall symbol :: Lookup(pos, symbol) == NetCount(orders, symbol)
  {
    pos := map[];
    var i := 0;
    while i < |orders|
      invariant 0 <= i <= |orders|
      invariant pos == Positions(orders[..i])
    {
      var o := orders[i];
      if o.symbol !in pos || pos[o.symbol] == 0 {
        pos := pos[o.symbol := 0];
      }
      pos := pos[o.symbol := pos[o.symbol] + Direction(o.kind)];
      assert orders[..i + 1][..i] == orders[..i];
      i := i + 1;
    }
    assert orders[..|orders|] == orders;
    PositionsAreNetCounts(orders);
  }

  /** What one snapshot yields: the documents sorted newest first, and the
      counter folded over that sorted list, which equals the counter over
      the documents in the store's own order. */
  method ProcessSnapshot(docs: seq<Order>) returns (orders: seq<Order>, pos: map<string, int>)
    ensures Snapshot.NewestFirst(orders) && multiset(orders) == multiset(docs)
    ensures pos == Positions(docs)
    ensures forall symbol :: Lookup(pos, symbol) == NetCount(docs, symbol)
  {
    orders := Snapshot.SortNewestFirst(docs);
    pos := ComputePositions(orders);
    PositionsPermutation(orders, docs);
    PositionsAreNetCounts(docs);
  }
}
