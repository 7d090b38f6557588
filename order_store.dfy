/**
  The in-memory order book of the trading page: the page-wide `orderData`
  object, the random order generator and the simulated POST call.
  Both scripts of the page (src/app.js and its near-copy app.js) define these
  identically.
 */
module OrderStore {

  /** One `[quantity, price]` pair. Floating point is modelled by `real`. */
  datatype Order = Order(quantity: real, price: real)

  /** `orderData`: order type name to its orders, most recently added first.
      It is a plain object, so any name can be a key and a key can be missing. */
  type Book = map<string, seq<Order>>

  const BUY: string := "buy"
  const SELL: string := "sell"

  /** The orders stored under `orderType`; a missing key reads as no orders. */
  function Lookup(b: Book, orderType: string): seq<Order>
  {
    if orderType in b then b[orderType] else []
  }

  /** Create the key if it is missing, then `orderData[orderType].unshift(o)`. */
  function Unshift(b: Book, orderType: string, o: Order): (r: Book)
    ensures orderType in r && r.Keys == b.Keys + {orderType}
    ensures |Lookup(r, orderType)| == |Lookup(b, orderType)| + 1
    ensures Lookup(r, orderType)[0] == o
    ensures Lookup(r, orderType)[1..] == Lookup(b, orderType)
    ensures forall k :: k != orderType ==> Lookup(r, k) == Lookup(b, k)
  {
    b[orderType := [o] + Lookup(b, orderType)]
  }

  /** `orderData[orderType].shift()`, the value removed being discarded.
      Shifting an empty array is a no-op; on a missing key the call throws a
      TypeError inside the promise callback, which also leaves the book as it
      was. */
  function Shift(b: Book, orderType: string): (r: Book)
    ensures r.Keys == b.Keys
    ensures Lookup(b, orderType) != [] ==> Lookup(r, orderType) == Lookup(b, orderType)[1..]
    ensures Lookup(b, orderType) == [] ==> r == b
    ensures forall k :: k != orderType ==> Lookup(r, k) == Lookup(b, k)
  {
    if orderType in b && b[orderType] != [] then b[orderType := b[orderType][1..]] else b
  }

  /** Rolling back a prepend restores the side it was made on and leaves every
      other side alone; the only trace left is the key created for a side that
      was missing, which now holds an empty sequence. */
  lemma ShiftUndoesUnshift(b: Book, orderType: string, o: Order)
    ensures Lookup(Shift(Unshift(b, orderType, o), orderType), orderType) == Lookup(b, orderType)
    ensures forall k :: Lookup(Shift(Unshift(b, orderType, o), orderType), k) == Lookup(b, k)
    ensures orderType in b ==> Shift(Unshift(b, orderType, o), orderType) == b
    ensures orderType !in b ==> Shift(Unshift(b, orderType, o), orderType) == b[orderType := []]
  {
  }

  /** Two submissions on the same side overlap: both prepend, then the first
      one fails. Its rollback removes whatever is at index 0, which is the
      second submission's order, and the failed order stays in the book. */
  lemma OverlappingRollbackRemovesLatest(b: Book, orderType: string, first: Order, second: Order)
    ensures Lookup(Shift(Unshift(Unshift(b, orderType, first), orderType, second), orderType), orderType)
            == [first] + Lookup(b, orderType)
    ensures first != second ==>
      Lookup(Shift(Unshift(Unshift(b, orderType, first), orderType, second), orderType), orderType)
      != [second] + Lookup(b, orderType)
  {
  }

  /** `generateRandomOrder`, with the two `Math.random()` draws passed in. */
  function GenerateRandomOrder(r1: real, r2: real): (o: Order)
    ensures 0.0 <= r1 < 1.0 ==> 0.1 <= o.quantity < 10.1
    ensures 0.0 <= r2 < 1.0 ==> 50.0 <= o.price < 1050.0
  {
    Order(r1 * 10.0 + 0.1, r2 * 1000.0 + 50.0)
  }

  /** Every order in the generator's range is produced by some pair of draws
      in [0, 1), so the ranges above are exact. */
  lemma GenerateRandomOrderCoversRange(quantity: real, price: real)
    requires 0.1 <= quantity < 10.1 && 50.0 <= price < 1050.0
    ensures var r1, r2 := (quantity - 0.1) / 10.0, (price - 50.0) / 1000.0;
      0.0 <= r1 < 1.0 && 0.0 <= r2 < 1.0 && GenerateRandomOrder(r1, r2) == Order(quantity, price)
  {
  }

  /** How the simulated network delay ended: the timer fired, or scheduling it
      threw the given error. */
  datatype Delay = Elapsed | Threw(error: string)

  /** The object `postOrder` resolves to: `{ success: true, data }` or
      `{ success: false, error }`. */
  datatype PostResult = Posted(data: Order) | Failed(error: string)

  /** `postOrder`: it succeeds exactly when the delay elapses, echoing its
      payload, and turns a thrown error into a failed result instead of
      propagating it. */
  function PostOrder(orderType: string, payload: Order, delay: Delay): (r: PostResult)
    ensures r.Posted? <==> delay.Elapsed?
    ensures r.Posted? ==> r.data == payload
    ensures r.Failed? ==> delay.Threw? && r.error == delay.error
  {
    match delay
    case Elapsed => Posted(payload)
    case Threw(e) => Failed(e)
  }
}
