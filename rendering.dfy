/**
  The children of the `#orderbook` element, and the two ways the page changes
  them: `processData` rebuilds them from the book, and `addOrderWithAnimation`
  (src/app.js only) inserts one row.
  Rows are compared by their order alone; the CSS classes that tell an
  inserted row from a rebuilt one are not modelled.
 */
module Rendering {
  import opened OrderStore

  /** A `div.order-row` showing one order, or the `div.separator-line`. */
  datatype Row = OrderRow(order: Order) | Separator

  /** One order row per order, in store order. */
  function Rows(orders: seq<Order>): seq<Row>
  {
    seq(|orders|, i requires 0 <= i < |orders| => OrderRow(orders[i]))
  }

  /** What `processData` leaves in the element: the buy rows, one separator,
      the sell rows. A missing side contributes no rows. */
  function Render(b: Book): seq<Row>
  {
    Rows(Lookup(b, BUY)) + [Separator] + Rows(Lookup(b, SELL))
  }

  /** `querySelectorAll('.order-row')[0]`: the index of the first order row,
      or |d| when there is none. */
  function FirstOrderRow(d: seq<Row>): (i: nat)
    ensures i <= |d|
    ensures i < |d| ==> d[i].OrderRow?
    ensures forall j :: 0 <= j < i ==> d[j].Separator?
  {
    if d == [] || d[0].OrderRow? then 0 else 1 + FirstOrderRow(d[1..])
  }

  /** `querySelector('.separator-line')`: the index of the first separator,
      or |d| when there is none. */
  function FirstSeparator(d: seq<Row>): (i: nat)
    ensures i <= |d|
    ensures i < |d| ==> d[i].Separator?
    ensures forall j :: 0 <= j < i ==> d[j].OrderRow?
  {
    if d == [] || d[0].Separator? then 0 else 1 + FirstSeparator(d[1..])
  }

  /** `insertBefore(row, d[k])`, or `appendChild(row)` when k == |d|. */
  function InsertAt(d: seq<Row>, k: nat, row: Row): seq<Row>
    requires k <= |d|
  {
    d[..k] + [row] + d[k..]
  }

  /** The display after `addOrderWithAnimation(orderType, o)`: a buy row goes
      before the first order row (appended if there is none); a sell row goes
      right after the first separator when something follows it, and is
      appended otherwise; any other order type inserts nothing. */
  function AnimatedInsert(d: seq<Row>, orderType: string, o: Order): seq<Row>
  {
    if orderType == BUY then
      var i := FirstOrderRow(d);
      if i < |d| then InsertAt(d, i, OrderRow(o)) else d + [OrderRow(o)]
    else if orderType == SELL then
      var s := FirstSeparator(d);
      if s < |d| && s + 1 < |d| then InsertAt(d, s + 1, OrderRow(o)) else d + [OrderRow(o)]
    else
      d
  }

  lemma RowsPrepend(o: Order, orders: seq<Order>)
    ensures Rows([o] + orders) == [OrderRow(o)] + Rows(orders)
  {
  }

  /** The first order row is the one that has only separators above it. */
  lemma FirstOrderRowAt(d: seq<Row>, i: nat)
    requires i <= |d|
    requires i < |d| ==> d[i].OrderRow?
    requires forall j :: 0 <= j < i ==> d[j].Separator?
    ensures FirstOrderRow(d) == i
  {
  }

  /** The first separator is the one that has only order rows above it. */
  lemma FirstSeparatorAt(d: seq<Row>, i: nat)
    requires i <= |d|
    requires i < |d| ==> d[i].Separator?
    requires forall j :: 0 <= j < i ==> d[j].OrderRow?
    ensures FirstSeparator(d) == i
  {
  }

  /** The layout of a full rebuild: buy rows in store order, then exactly one
      separator, then sell rows in store order. */
  lemma RenderLayout(b: Book)
    ensures var buy, sell, r := Lookup(b, BUY), Lookup(b, SELL), Render(b);
      && |r| == |buy| + 1 + |sell|
      && (forall i :: 0 <= i < |buy| ==> r[i] == OrderRow(buy[i]))
      && r[|buy|] == Separator
      && (forall i :: 0 <= i < |sell| ==> r[|buy| + 1 + i] == OrderRow(sell[i]))
      && multiset(r)[Separator] == 1
      && FirstSeparator(r) == |buy|
      && FirstOrderRow(r) == (if buy != [] then 0 else 1)
  {
    var buy, sell, r := Lookup(b, BUY), Lookup(b, SELL), Render(b);
    RenderSeparatorCount(buy, sell);
    FirstSeparatorAt(r, |buy|);
    if buy != [] {
      FirstOrderRowAt(r, 0);
    } else {
      FirstOrderRowAt(r, 1);
    }
  }

  lemma RenderSeparatorCount(buy: seq<Order>, sell: seq<Order>)
    ensures multiset(Rows(buy) + [Separator] + Rows(sell))[Separator] == 1
  {
    assert Separator !in multiset(Rows(buy));
    assert Separator !in multiset(Rows(sell));
  }

  /** Where a buy row lands: it becomes the first order row of the display
      (nothing but separators above it), and taking it out again gives back
      the display as it was. */
  lemma AnimatedBuyPosition(d: seq<Row>, o: Order)
    ensures var r, i := AnimatedInsert(d, BUY, o), FirstOrderRow(d);
      && |r| == |d| + 1
      && r[i] == OrderRow(o)
      && FirstOrderRow(r) == i
      && r[..i] + r[i + 1..] == d
  {
    var r, i := AnimatedInsert(d, BUY, o), FirstOrderRow(d);
    assert r == d[..i] + [OrderRow(o)] + d[i..];
    assert r[..i] == d[..i] && r[i + 1..] == d[i..];
    assert d[..i] + d[i..] == d;
  }

  /** Where a sell row lands: right after the first separator when there is
      one (the sell section's top), at the end when there is none; taking it
      out again gives back the display as it was. */
  lemma AnimatedSellPosition(d: seq<Row>, o: Order)
    ensures var r, s := AnimatedInsert(d, SELL, o), FirstSeparator(d);
      && |r| == |d| + 1
      && (s < |d| ==> FirstSeparator(r) == s && r[s + 1] == OrderRow(o) && r[..s + 1] + r[s + 2..] == d)
      && (s == |d| ==> r == d + [OrderRow(o)])
  {
    var r, s := AnimatedInsert(d, SELL, o), FirstSeparator(d);
    if s + 1 < |d| {
      assert r == d[..s + 1] + [OrderRow(o)] + d[s + 1..];
      assert r[..s + 1] == d[..s + 1] && r[s + 2..] == d[s + 1..];
      assert d[..s + 1] + d[s + 1..] == d;
    } else if s < |d| {
      assert r == d + [OrderRow(o)];
      assert r[..s + 1] == d && r[s + 2..] == [];
    }
  }

  lemma RemovedRowMultiset(r: seq<Row>, i: nat, d: seq<Row>)
    requires i < |r| && r[..i] + r[i + 1..] == d
    ensures multiset(r) == multiset(d) + multiset{r[i]}
  {
    assert r == r[..i] + [r[i]] + r[i + 1..];
  }

  /** An incremental insert adds exactly one order row and no separator; an
      order type other than buy or sell leaves the display alone. */
  lemma AnimatedInsertAddsOneRow(d: seq<Row>, orderType: string, o: Order)
    ensures orderType == BUY || orderType == SELL ==>
      multiset(AnimatedInsert(d, orderType, o)) == multiset(d) + multiset{OrderRow(o)}
    ensures orderType != BUY && orderType != SELL ==> AnimatedInsert(d, orderType, o) == d
  {
    var r := AnimatedInsert(d, orderType, o);
    if orderType == BUY {
      AnimatedBuyPosition(d, o);
      RemovedRowMultiset(r, FirstOrderRow(d), d);
    } else if orderType == SELL {
      AnimatedSellPosition(d, o);
      var s := FirstSeparator(d);
      if s < |d| {
        RemovedRowMultiset(r, s + 1, d);
      } else {
        RemovedRowMultiset(r, |d|, d);
      }
    }
  }

  /** A buy row inserted into a rebuilt display with buy rows in it lands
      where a rebuild after the prepend would put it. */
  lemma AnimatedBuyMatchesRebuild(b: Book, o: Order)
    requires Lookup(b, BUY) != []
    ensures AnimatedInsert(Render(b), BUY, o) == Render(Unshift(b, BUY, o))
  {
    var buy, sell, d := Lookup(b, BUY), Lookup(b, SELL), Render(b);
    assert d[0] == OrderRow(buy[0]);
    FirstOrderRowAt(d, 0);
    assert d[..0] + [OrderRow(o)] + d[0..] == [OrderRow(o)] + d;
    RowsPrepend(o, buy);
    assert Render(Unshift(b, BUY, o)) == [OrderRow(o)] + Rows(buy) + [Separator] + Rows(sell);
  }

  /** A buy row inserted into a rebuilt display without buy rows does not
      land at the top: the first row stays the separator. */
  lemma AnimatedBuyIntoEmptyBuySide(b: Book, o: Order)
    requires Lookup(b, BUY) == []
    ensures AnimatedInsert(Render(b), BUY, o)[0] == Separator
    ensures Render(Unshift(b, BUY, o))[0] == OrderRow(o)
  {
    RenderLayout(b);
    AnimatedBuyPosition(Render(b), o);
    RowsPrepend(o, Lookup(b, BUY));
  }

  /** A sell row inserted into a rebuilt display always lands where a rebuild
      after the prepend would put it. */
  lemma AnimatedSellMatchesRebuild(b: Book, o: Order)
    ensures AnimatedInsert(Render(b), SELL, o) == Render(Unshift(b, SELL, o))
  {
    var buy, sell, d := Lookup(b, BUY), Lookup(b, SELL), Render(b);
    RenderLayout(b);
    RowsPrepend(o, sell);
    var p := |buy| + 1;
    assert Render(Unshift(b, SELL, o)) == d[..p] + [OrderRow(o)] + d[p..];
    if sell == [] {
      assert d[..p] == d && d[p..] == [];
    }
  }

  /** An incremental insert into a freshly rebuilt display gives the same rows
      as rebuilding the book after the prepend, except for a buy order when
      the book has no buy orders: then the only order rows are sell rows
      (or there are none), and the new buy row is placed below the separator. */
  lemma AnimatedInsertMatchesRebuild(b: Book, orderType: string, o: Order)
    ensures AnimatedInsert(Render(b), orderType, o) == Render(Unshift(b, orderType, o))
            <==> !(orderType == BUY && Lookup(b, BUY) == [])
  {
    if orderType == BUY {
      if Lookup(b, BUY) != [] {
        AnimatedBuyMatchesRebuild(b, o);
      } else {
        AnimatedBuyIntoEmptyBuySide(b, o);
      }
    } else if orderType == SELL {
      AnimatedSellMatchesRebuild(b, o);
    } else {
      var after := Unshift(b, orderType, o);
      assert Lookup(after, BUY) == Lookup(b, BUY) && Lookup(after, SELL) == Lookup(b, SELL);
    }
  }

  /** With no buy orders in the book, a new buy row inserted incrementally is
      shown exactly where a rebuild would show it as the newest sell order. */
  lemma BuyInsertIntoEmptyBuySideShowsAsSell(b: Book, o: Order)
    requires Lookup(b, BUY) == []
    ensures AnimatedInsert(Render(b), BUY, o) == Render(Unshift(b, SELL, o))
    ensures AnimatedInsert(Render(b), BUY, o) != Render(Unshift(b, BUY, o))
  {
    var sell, d, row := Lookup(b, SELL), Render(b), OrderRow(o);
    assert d == [Separator] + Rows(sell);
    FirstOrderRowAt(d, 1);
    if sell != [] {
      assert d[..1] + [row] + d[1..] == [Separator, row] + Rows(sell);
    }
    RowsPrepend(o, sell);
    assert Render(Unshift(b, SELL, o)) == [Separator, row] + Rows(sell);
    AnimatedBuyIntoEmptyBuySide(b, o);
  }

  /** After a prepend and a full rebuild, the new order is the top row of its
      side's section and every other row is where it was before. */
  lemma RebuildShowsNewOrderFirst(b: Book, orderType: string, o: Order)
    requires orderType == BUY || orderType == SELL
    ensures var r, p := Render(Unshift(b, orderType, o)),
                        if orderType == BUY then 0 else |Lookup(b, BUY)| + 1;
      && |r| == |Render(b)| + 1
      && r[p] == OrderRow(o)
      && (orderType == SELL ==> r[p - 1] == Separator)
      && r[..p] + r[p + 1..] == Render(b)
  {
    var buy, sell := Lookup(b, BUY), Lookup(b, SELL);
    var r := Render(Unshift(b, orderType, o));
    if orderType == BUY {
      RowsPrepend(o, buy);
      assert r == [OrderRow(o)] + Render(b);
    } else {
      RowsPrepend(o, sell);
      var p := |buy| + 1;
      assert r == (Rows(buy) + [Separator]) + [OrderRow(o)] + Rows(sell);
      assert r[..p] == Rows(buy) + [Separator];
      assert r[p + 1..] == Rows(sell);
    }
  }
}
