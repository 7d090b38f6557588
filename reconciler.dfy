/**
  The page's mutable state and the handlers that change it: the snapshot
  load, `processData`, the optimistic `addNewOrder` and, in src/app.js,
  `addOrderWithAnimation`.
  The asynchronous `addNewOrder` is split at its one suspension point:
  `BeginOrder` runs up to the call of `postOrder`, and a resolve method runs
  its `.then` callback. A submission that is not overlapped by another one is
  the two run back to back (`AddNewOrderAnimated`, `AddNewOrderRebuild`).
  The two scripts differ only in that callback's success path, so both are
  methods of one class: `ResolveAnimated` (src/app.js) inserts a single row,
  `ResolveRebuild` (app.js) rebuilds the whole display.
 */
module Reconciler {
  import opened OrderStore
  import opened Rendering

  class OrderBookPage {
    /** The page-wide `orderData` object. */
    var orderData: Book
    /** The children of the `#orderbook` element, top to bottom. */
    var orderbook: seq<Row>

    /** The display shows the book as a full rebuild would. */
    ghost predicate Consistent()
      reads this
    {
      orderbook == Render(orderData)
    }

    /** The script starts with `orderData = {}`; the element starts empty. */
    constructor ()
      ensures orderData == map[] && orderbook == []
    {
      orderData := map[];
      orderbook := [];
    }

    /** `processData`: clear the element, append one row per buy order, the
        separator, then one row per sell order. The result depends on the book
        alone, so a second call changes nothing. */
    method ProcessData()
      modifies this
      ensures orderData == old(orderData)
      ensures orderbook == Render(orderData)
      ensures Consistent()
    {
      orderbook := [];
      if BUY in orderData {
        var buy := orderData[BUY];
        var i := 0;
        while i < |buy|
          invariant 0 <= i <= |buy|
          invariant orderData == old(orderData)
          invariant orderbook == Rows(buy[..i])
        {
          orderbook := orderbook + [OrderRow(buy[i])];
          i := i + 1;
        }
        assert buy[..i] == buy;
      }
      ghost var top := orderbook;
      assert top == Rows(Lookup(orderData, BUY));
      orderbook := orderbook + [Separator];
      if SELL in orderData {
        var sell := orderData[SELL];
        var i := 0;
        while i < |sell|
          invariant 0 <= i <= |sell|
          invariant orderData == old(orderData)
          invariant orderbook == top + [Separator] + Rows(sell[..i])
        {
          orderbook := orderbook + [OrderRow(sell[i])];
          i := i + 1;
        }
        assert sell[..i] == sell;
      }
    }

    /** The fetch callback: `orderData = data`, then a full rebuild. */
    method LoadSnapshot(data: Book)
      modifies this
      ensures orderData == data
      ensures orderbook == Render(data)
    {
      orderData := data;
      ProcessData();
    }

    /** `addNewOrder` up to the POST: generate an order from the two random
        draws, create the side if it is missing, and prepend the order to it.
        The display is not touched yet. */
    method BeginOrder(orderType: string, r1: real, r2: real) returns (newOrder: Order)
      modifies this
      ensures newOrder == GenerateRandomOrder(r1, r2)
      ensures orderData == Unshift(old(orderData), orderType, newOrder)
      ensures orderbook == old(orderbook)
    {
      newOrder := GenerateRandomOrder(r1, r2);
      if orderType !in orderData {
        orderData := orderData[orderType := []];
      }
      orderData := orderData[orderType := [newOrder] + orderData[orderType]];
    }

    /** `addOrderWithAnimation` of src/app.js: insert one row for `o` at the
        position found by the two DOM queries. */
    method AddOrderWithAnimation(orderType: string, o: Order)
      modifies this
      ensures orderData == old(orderData)
      ensures orderbook == AnimatedInsert(old(orderbook), orderType, o)
    {
      var row := OrderRow(o);
      if orderType == BUY {
        var first := FirstOrderRow(orderbook);
        if first < |orderbook| {
          orderbook := orderbook[..first] + [row] + orderbook[first..];
        } else {
          orderbook := orderbook + [row];
        }
      } else if orderType == SELL {
        var separator := FirstSeparator(orderbook);
        if separator < |orderbook| && separator + 1 < |orderbook| {
          orderbook := orderbook[..separator + 1] + [row] + orderbook[separator + 1..];
        } else {
          orderbook := orderbook + [row];
        }
      }
    }

    /** The `.then` callback of src/app.js: on success insert the new row, on
        failure `shift` the side, which removes whatever is at index 0 now. */
    method ResolveAnimated(orderType: string, newOrder: Order, result: PostResult)
      modifies this
      ensures result.Posted? ==> orderData == old(orderData)
      ensures result.Posted? ==> orderbook == AnimatedInsert(old(orderbook), orderType, newOrder)
      ensures result.Failed? ==> orderData == Shift(old(orderData), orderType)
      ensures result.Failed? ==> orderbook == old(orderbook)
    {
      if result.Posted? {
        AddOrderWithAnimation(orderType, newOrder);
      } else {
        orderData := Shift(orderData, orderType);
      }
    }

    /** The `.then` callback of app.js: on success rebuild the display, on
        failure `shift` the side. */
    method ResolveRebuild(orderType: string, newOrder: Order, result: PostResult)
      modifies this
      ensures result.Posted? ==> orderData == old(orderData) && Consistent()
      ensures result.Failed? ==> orderData == Shift(old(orderData), orderType)
      ensures result.Failed? ==> orderbook == old(orderbook)
    {
      if result.Posted? {
        ProcessData();
      } else {
        orderData := Shift(orderData, orderType);
      }
    }

    /** `addNewOrder` of src/app.js when no other submission is in flight.
        On success the side gains the order at index 0 and the display gains
        its row; a display that showed the book still does, unless a buy order
        was added to a book with no buy orders. On failure every side reads as
        before and the display is untouched. */
    method AddNewOrderAnimated(orderType: string, r1: real, r2: real, delay: Delay)
      returns (newOrder: Order)
      modifies this
      ensures newOrder == GenerateRandomOrder(r1, r2)
      ensures delay.Elapsed? ==> orderData == Unshift(old(orderData), orderType, newOrder)
      ensures delay.Elapsed? ==> orderbook == AnimatedInsert(old(orderbook), orderType, newOrder)
      ensures delay.Elapsed? && old(Consistent()) ==>
        (Consistent() <==> !(orderType == BUY && Lookup(old(orderData), BUY) == []))
      ensures delay.Threw? ==> orderData == old(orderData)[orderType := Lookup(old(orderData), orderType)]
      ensures delay.Threw? ==> forall k :: Lookup(orderData, k) == Lookup(old(orderData), k)
      ensures delay.Threw? ==> orderbook == old(orderbook) && (Consistent() <==> old(Consistent()))
    {
      ghost var before := orderData;
      newOrder := BeginOrder(orderType, r1, r2);
      var result := PostOrder(orderType, newOrder, delay);
      ResolveAnimated(orderType, newOrder, result);
      ShiftUndoesUnshift(before, orderType, newOrder);
      if delay.Elapsed? {
        AnimatedInsertMatchesRebuild(before, orderType, newOrder);
      }
    }

    /** `addNewOrder` of app.js when no other submission is in flight. On
        success the side gains the order at index 0 and the display is rebuilt
        from the book, so it shows the book; on failure every side reads as
        before and the display is untouched. */
    method AddNewOrderRebuild(orderType: string, r1: real, r2: real, delay: Delay)
      returns (newOrder: Order)
      modifies this
      ensures newOrder == GenerateRandomOrder(r1, r2)
      ensures delay.Elapsed? ==> orderData == Unshift(old(orderData), orderType, newOrder)
      ensures delay.Elapsed? ==> Consistent()
      ensures delay.Threw? ==> orderData == old(orderData)[orderType := Lookup(old(orderData), orderType)]
      ensures delay.Threw? ==> forall k :: Lookup(orderData, k) == Lookup(old(orderData), k)
      ensures delay.Threw? ==> orderbook == old(orderbook) && (Consistent() <==> old(Consistent()))
    {
      ghost var before := orderData;
      newOrder := BeginOrder(orderType, r1, r2);
      var result := PostOrder(orderType, newOrder, delay);
      ResolveRebuild(orderType, newOrder, result);
      ShiftUndoesUnshift(before, orderType, newOrder);
    }
  }
}
