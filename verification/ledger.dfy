/** The order ledger as the terminal drives it (App.jsx, App): the user's
    append-only collection in the durable store, the snapshot state the
    component keeps, and `placeOrder`, which writes one or two orders. */
module Ledger {
  import opened Orders
  import Positions
  import Snapshot

  /** What one `placeOrder` call leaves behind: the orders it wrote, in
      order, and whether its promise resolves (`ok`) or rejects. */
  datatype Placement = Placement(appended: seq<Order>, ok: bool)

  function Abs(n: int): (a: nat)
    ensures a == n || a == -n
  {
    if n < 0 then -n else n
  }

  /** The closing half of a flip: the opposite side of the current count,
      for its absolute size, marked SQUARED_OFF. */
  function ClosingOrder(symbol: string, current: int, price: int, time: int): (c: Order)
    ensures c.symbol == symbol && c.price == price && c.time == time && c.status == SquaredOff
    ensures c.qty == Abs(current)
    // the opposite side of the count: SELL a long count, BUY back a short one
    ensures current > 0 ==> c.kind == Sell
    ensures current < 0 ==> c.kind == Buy
    // counted on its own, the closing order takes a non-zero count one step toward zero
    ensures current != 0 ==> Abs(current + Direction(c.kind)) == Abs(current) - 1
  {
    Order(symbol, if current > 0 then Sell else Buy, price, time, SquaredOff, Abs(current))
  }

  /** The primary order every call with a user writes. */
  function PrimaryOrder(symbol: string, kind: OrderType, price: int, qty: int, time: int): Order
  {
    Order(symbol, kind, price, time, Executed, qty)
  }

  /** One `placeOrder(symbol, kind, price, qty, isFlip)` against the
      component's `positions`. `closeTime` and `openTime` are the two
      `Date.now()` readings; `closeAck` and `openAck` say whether the store
      accepts each write. A rejected write stores nothing and rejects the
      call, so a rejected closing write also skips the primary order. */
  function Place(positions: map<string, int>, signedIn: bool, symbol: string, kind: OrderType,
                 price: int, qty: int, isFlip: bool,
                 closeTime: int, openTime: int, closeAck: bool, openAck: bool): (p: Placement)
    // without a user nothing is written and the call resolves
    ensures !signedIn ==> p == Placement([], true)
    // every written order is for the given symbol, at the given price
    ensures forall o :: o in p.appended ==> o.symbol == symbol && o.price == price
    // at most one closing order, and it comes first
    ensures forall i :: 0 < i < |p.appended| ==> p.appended[i].status == Executed
    ensures |p.appended| <= 2
    // the closing order is written iff this is a flip of a non-zero count that the store accepts
    ensures (|p.appended| > 0 && p.appended[0].status == SquaredOff)
            <==> signedIn && isFlip && Lookup(positions, symbol) != 0 && closeAck
    ensures |p.appended| > 0 && p.appended[0].status == SquaredOff ==>
              p.appended[0] == ClosingOrder(symbol, Lookup(positions, symbol), price, closeTime)
    // the closing order takes the opposite side of the count, for its full size
    ensures |p.appended| > 0 && p.appended[0].status == SquaredOff ==>
              && (p.appended[0].kind == Sell <==> Lookup(positions, symbol) > 0)
              && (p.appended[0].kind == Buy <==> Lookup(positions, symbol) < 0)
              && p.appended[0].qty == Abs(Lookup(positions, symbol))
    // the primary order is the last one written, and it is written iff the call resolves with a user
    ensures signedIn && p.ok <==> |p.appended| > 0 && p.appended[|p.appended| - 1].status == Executed
    ensures signedIn && p.ok ==> p.appended[|p.appended| - 1] == PrimaryOrder(symbol, kind, price, qty, openTime)
    // a flip whose closing write is rejected writes nothing at all
    ensures signedIn && isFlip && Lookup(positions, symbol) != 0 && !closeAck ==> p == Placement([], false)
    // with a user, the call resolves iff the primary write is accepted and no needed closing write was rejected
    ensures signedIn ==> (p.ok <==> openAck && (closeAck || !(isFlip && Lookup(positions, symbol) != 0)))
    // a call that resolves with a user wrote two orders for a flip of a non-zero count, one otherwise
    ensures signedIn && p.ok ==>
              |p.appended| == (if isFlip && Lookup(positions, symbol) != 0 then 2 else 1)
  {
    if !signedIn then Placement([], true)
    else
      var current := Lookup(positions, symbol);
      var closing := if isFlip && current != 0 then [ClosingOrder(symbol, current, price, closeTime)] else [];
      if closing != [] && !closeAck then Placement([], false)
      else
        var primary := PrimaryOrder(symbol, kind, price, qty, openTime);
        Placement(closing + (if openAck then [primary] else []), openAck)
  }

  /** The sign of a count: 1, 0 or -1. */
  function Sign(n: int): int
  {
    if n > 0 then 1 else if n < 0 then -1 else 0
  }

  /** When the component's count for `symbol` agrees with the store, a call
      that the store fully accepts leaves the symbol's count at: the old count,
      minus one step toward zero if a closing order was written (one order
      moves the count by one whatever its qty), plus the primary order's
      Direction. No other symbol moves. */
  lemma {:induction false} PlacementMovesPosition(store: seq<Order>, positions: map<string, int>, symbol: string,
                                                 kind: OrderType, price: int, qty: int, isFlip: bool,
                                                 closeTime: int, openTime: int, other: string)
    requires Lookup(positions, symbol) == NetCount(store, symbol)
    ensures var p := Place(positions, true, symbol, kind, price, qty, isFlip, closeTime, openTime, true, true);
            var current := NetCount(store, symbol);
            && NetCount(store + p.appended, symbol)
               == (if isFlip then current - Sign(current) else current) + Direction(kind)
            && (other != symbol ==> NetCount(store + p.appended, other) == NetCount(store, other))
  {
    var p := Place(positions, true, symbol, kind, price, qty, isFlip, closeTime, openTime, true, true);
    var current := NetCount(store, symbol);
    var primary := PrimaryOrder(symbol, kind, price, qty, openTime);
    SymbolSumAppend(store, p.appended, symbol, UnitWeight);
    SymbolSumAppend(store, p.appended, other, UnitWeight);
    assert [primary][..0] == [];
    if isFlip && current != 0 {
      var closing := ClosingOrder(symbol, current, price, closeTime);
      assert p.appended == [closing] + [primary];
      SymbolSumAppend([closing], [primary], symbol, UnitWeight);
      SymbolSumAppend([closing], [primary], other, UnitWeight);
      assert [closing][..0] == [];
    } else {
      assert p.appended == [primary];
    }
  }

  /** The "flip direction" button sends type FLIP, which counts as a short
      order: from a long count it ends two lower, and from a short count it
      ends where it started (the BUY that squares off and the FLIP cancel). */
  lemma FlipButtonEffect(store: seq<Order>, positions: map<string, int>, symbol: string, price: int,
                         closeTime: int, openTime: int)
    requires Lookup(positions, symbol) == NetCount(store, symbol)
    ensures var p := Place(positions, true, symbol, Flip, price, 1, true, closeTime, openTime, true, true);
            var current := NetCount(store, symbol);
            && (current > 0 ==> NetCount(store + p.appended, symbol) == current - 2)
            && (current == 0 ==> NetCount(store + p.appended, symbol) == -1)
            && (current < 0 ==> NetCount(store + p.appended, symbol) == current)
  {
    PlacementMovesPosition(store, positions, symbol, Flip, price, 1, true, closeTime, openTime, symbol);
  }

  /** The store's collection for the signed-in user and the state the
      App component derives from it. */
  class App {
    /** The user's order collection in the durable store, in write order. */
    var store: seq<Order>
    /** The component's `orders`: the last snapshot, newest first. */
    var orders: seq<Order>
    /** The component's `positions`: the counter built from that snapshot. */
    var positions: map<string, int>

    /** The component's counters agree with every order in the store. */
    ghost predicate Synced()
      reads this
    {
      positions == Positions.Positions(store)
    }

    /** The component mounts with empty `orders` and `positions` over
        whatever collection the store already holds; the counters are
        synced only once a snapshot arrives, or at once when the
        collection is empty. */
    constructor (existing: seq<Order>)
      ensures store == existing && orders == [] && positions == map[]
      ensures Synced() <==> existing == []
    {
      store, orders, positions := existing, [], map[];
      if existing != [] {
        Positions.PositionsAreNetCounts(existing);
        assert existing[0].symbol in Positions.Positions(existing);
      }
    }

    /** `addDoc`: the store appends the order if it accepts the write. */
    method Append(o: Order, ack: bool)
      modifies this`store
      ensures store == if ack then old(store) + [o] else old(store)
    {
      if ack {
        store := store + [o];
      }
    }

    /** The `onSnapshot` callback: `docs` is the collection as the store
        delivers it. A snapshot of the whole store leaves the counters
        synced, whatever order the store lists the documents in. */
    method OnSnapshot(docs: seq<Order>)
      modifies this`orders, this`positions
      ensures Snapshot.NewestFirst(orders) && multiset(orders) == multiset(docs)
      ensures positions == Positions.Positions(docs)
      ensures multiset(docs) == multiset(store) ==> Synced()
    {
      orders, positions := Positions.ProcessSnapshot(docs);
      if multiset(docs) == multiset(store) {
        Positions.PositionsPermutation(docs, store);
      }
    }

    /** `placeOrder`: nothing without a user; for a flip of a non-zero count
        the closing order is written first and a rejected write aborts the
        rest; then the primary order. Earlier entries never change. */
    method PlaceOrder(signedIn: bool, closeTime: int, openTime: int, closeAck: bool, openAck: bool,
                      symbol: string, kind: OrderType, price: int, qty: int := 1, isFlip: bool := false)
      returns (ok: bool)
      modifies this`store
      ensures var p := Place(positions, signedIn, symbol, kind, price, qty, isFlip, closeTime, openTime, closeAck, openAck);
              store == old(store) + p.appended && ok == p.ok
      ensures old(Synced()) && signedIn && closeAck && openAck ==>
                var current := NetCount(old(store), symbol);
                NetCount(store, symbol) == (if isFlip then current - Sign(current) else current) + Direction(kind)
    {
      ghost var before := store;
      ghost var p := Place(positions, signedIn, symbol, kind, price, qty, isFlip, closeTime, openTime, closeAck, openAck);
      if !signedIn {
        return true;
      }
      var currentQty := Lookup(positions, symbol);
      ghost var closed: seq<Order> := [];
      if isFlip && currentQty != 0 {
        var closing := ClosingOrder(symbol, currentQty, price, closeTime);
        Append(closing, closeAck);
        if !closeAck {
          assert p.appended == [];
          return false;
        }
        closed := [closing];
      }
      assert store == before + closed;
      var newOrder := PrimaryOrder(symbol, kind, price, qty, openTime);
      Append(newOrder, openAck);
      ok := openAck;
      assert p.appended == closed + (if openAck then [newOrder] else []);
      if old(Synced()) && closeAck && openAck {
        Positions.PositionsAreNetCounts(before);
        PlacementMovesPosition(before, positions, symbol, kind, price, qty, isFlip, closeTime, openTime, symbol);
      }
    }
  }
}
