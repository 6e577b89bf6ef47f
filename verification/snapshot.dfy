/** The order list the terminal keeps after each store snapshot: every
    document of the collection, newest first. */
module Snapshot {
  import opened Orders

  /** No order is newer than one listed before it. */
  predicate NewestFirst(orders: seq<Order>)
  {
    forall i, j :: 0 <= i < j < |orders| ==> orders[i].time >= orders[j].time
  }

  /** Places `o` in front of the first entry that is not newer than it, so
      that among equal timestamps the earlier-inserted order stays first. */
  function InsertNewest(o: Order, sorted: seq<Order>): seq<Order>
  {
    if sorted == [] || sorted[0].time <= o.time then [o] + sorted
    else [sorted[0]] + InsertNewest(o, sorted[1..])
  }

  /** Inserting adds exactly that order, one position longer, and the new
      head is either the inserted order or the old head. */
  lemma {:induction false} InsertNewestContents(o: Order, sorted: seq<Order>)
    ensures var r := InsertNewest(o, sorted);
            && multiset(r) == multiset(sorted) + multiset{o}
            && |r| == |sorted| + 1
            && (r[0] == o || r[0] == sorted[0])
  {
    if !(sorted == [] || sorted[0].time <= o.time) {
      InsertNewestContents(o, sorted[1..]);
      assert sorted == [sorted[0]] + sorted[1..];
    }
  }

  /** An order no older than every entry of a newest-first list can go in
      front of it. */
  lemma ConsNewestFirst(a: Order, rest: seq<Order>)
    requires NewestFirst(rest)
    requires forall k :: 0 <= k < |rest| ==> rest[k].time <= a.time
    ensures NewestFirst([a] + rest)
  {
    var r := [a] + rest;
    forall i, j | 0 <= i < j < |r| ensures r[i].time >= r[j].time {
      assert r[j] == rest[j - 1];
      if i > 0 {
        assert r[i] == rest[i - 1];
      }
    }
  }

  /** Inserting into a newest-first list keeps it newest first. */
  lemma {:induction false} InsertNewestOrdered(o: Order, sorted: seq<Order>)
    requires NewestFirst(sorted)
    ensures NewestFirst(InsertNewest(o, sorted))
  {
    if sorted == [] || sorted[0].time <= o.time {
      ConsNewestFirst(o, sorted);
    } else {
      var tail := sorted[1..];
      InsertNewestOrdered(o, tail);
      InsertNewestContents(o, tail);
      var rest := InsertNewest(o, tail);
      forall k | 0 <= k < |rest| ensures rest[k].time <= sorted[0].time {
        var x := rest[k];
        assert x in multiset(rest);
        if x != o {
          assert x in multiset(tail);
          var m :| 0 <= m < |tail| && tail[m] == x;
          assert x == sorted[m + 1];
        }
      }
      ConsNewestFirst(sorted[0], rest);
    }
  }

  /** The snapshot's `sort((a, b) => b.time - a.time)`: a stable sort by
      descending timestamp, here as an insertion sort. */
  function SortNewestFirst(docs: seq<Order>): (r: seq<Order>)
    ensures NewestFirst(r)
    ensures multiset(r) == multiset(docs)
  {
    if docs == [] then []
    else
      assert docs == [docs[0]] + docs[1..];
      var rest := SortNewestFirst(docs[1..]);
      InsertNewestContents(docs[0], rest);
      InsertNewestOrdered(docs[0], rest);
      InsertNewest(docs[0], rest)
  }
}
