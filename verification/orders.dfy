/** The order record the terminal writes to its per-user collection, and the
    small vocabulary every view of the ledger shares. */
module Orders {

  /** Conventional optional value, used for the re-entry price that may be unset. */
  datatype Option<T> = None | Some(value: T)

  /** The `type` field of an order: the four trade sides and the tag the
      "flip direction" button sends. */
  datatype OrderType = Buy | Sell | Call | Put | Flip

  /** The `status` field: a user order, or the closing half of a flip. */
  datatype OrderStatus = Executed | SquaredOff

  /** One order document. `price` is in integer cents (the terminal stores the
      price with two decimals); `time` is the millisecond timestamp taken when
      the order was written. The store's document id is not modelled. */
  datatype Order = Order(
    symbol: string,
    kind: OrderType,
    price: int,
    time: int,
    status: OrderStatus,
    qty: int)

  /** How one order moves its symbol's count: +1 for BUY or CALL, -1 for
      every other type, whatever the order's quantity. */
  function Direction(kind: OrderType): (d: int)
    ensures d == 1 || d == -1
    ensures d == 1 <==> kind == Buy || kind == Call
  {
    if kind == Buy || kind == Call then 1 else -1
  }

  /** `m[key] || 0`: a missing key reads as zero. */
  function Lookup(m: map<string, int>, key: string): (v: int)
    ensures key in m ==> v == m[key]
    ensures key !in m ==> v == 0
  {
    if key in m then m[key] else 0
  }

  /** The set of symbols that occur in a list of orders. */
  function Symbols(orders: seq<Order>): set<string>
  {
    set o | o in orders :: o.symbol
  }

  /** The sum of `weight` over the orders for `symbol`. */
  function SymbolSum(orders: seq<Order>, symbol: string, weight: Order -> int): int
  {
    if orders == [] then 0
    else
      var last := orders[|orders| - 1];
      SymbolSum(orders[..|orders| - 1], symbol, weight) + (if last.symbol == symbol then weight(last) else 0)
  }

  /** What one order adds to its symbol's count. */
  function UnitWeight(o: Order): int
  {
    Direction(o.kind)
  }

  /** The signed number of orders for `symbol`: each contributes its
      Direction. This is the reference definition of a position. */
  function NetCount(orders: seq<Order>, symbol: string): int
  {
    SymbolSum(orders, symbol, UnitWeight)
  }

  lemma {:induction false} SymbolSumAppend(a: seq<Order>, b: seq<Order>, symbol: string, weight: Order -> int)
    ensures SymbolSum(a + b, symbol, weight) == SymbolSum(a, symbol, weight) + SymbolSum(b, symbol, weight)
    decreases |b|
  {
    if b == [] {
      assert a + b == a;
    } else {
      var init := b[..|b| - 1];
      assert (a + b)[..|a + b| - 1] == a + init;
      assert (a + b)[|a + b| - 1] == b[|b| - 1];
      SymbolSumAppend(a, init, symbol, weight);
    }
  }

  /** Taking the entry at `j` out of a list takes exactly its weight out of
      the sum, and exactly one copy of it out of the multiset. */
  lemma RemoveAt(t: seq<Order>, j: nat, symbol: string, weight: Order -> int)
    requires j < |t|
    ensures multiset(t[..j] + t[j + 1..]) == multiset(t) - multiset{t[j]}
    ensures SymbolSum(t, symbol, weight)
         == SymbolSum(t[..j] + t[j + 1..], symbol, weight) + (if t[j].symbol == symbol then weight(t[j]) else 0)
  {
    var x := t[j];
    assert t == t[..j] + [x] + t[j + 1..];
    assert multiset(t) == multiset(t[..j]) + multiset{x} + multiset(t[j + 1..]);
    SymbolSumAppend(t[..j] + [x], t[j + 1..], symbol, weight);
    SymbolSumAppend(t[..j], [x], symbol, weight);
    SymbolSumAppend(t[..j], t[j + 1..], symbol, weight);
    assert [x][..0] == [];
  }

  /** A per-symbol sum does not depend on the order of the entries. */
  lemma {:induction false} SymbolSumPermutation(s: seq<Order>, t: seq<Order>, symbol: string, weight: Order -> int)
    requires multiset(s) == multiset(t)
    ensures SymbolSum(s, symbol, weight) == SymbolSum(t, symbol, weight)
    decreases |s|
  {
    if s == [] {
      assert |t| == |multiset(t)| == 0;
    } else {
      var x := s[|s| - 1];
      var init := s[..|s| - 1];
      assert s == init + [x];
      assert multiset(init) == multiset(s) - multiset{x};
      assert x in multiset(t);
      var j :| 0 <= j < |t| && t[j] == x;
      RemoveAt(t, j, symbol, weight);
      SymbolSumPermutation(init, t[..j] + t[j + 1..], symbol, weight);
    }
  }
}
