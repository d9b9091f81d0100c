/**
 * The order list page: the mapping from the page's status enum to the
 * backend's, the status selected by the route, the status-card toggle, the
 * status-summary entries, and the per-row and summary totals.
 */
module Orders {
  import opened Wrappers
  import opened Strings
  import opened WmsTypes

  /** The page's `OrderStatus` enum. */
  const Pending: int := 0
  const Confirmed: int := 1
  const Processing: int := 2
  const Picking: int := 3
  const Packing: int := 4
  const Packed: int := 5
  const Shipped: int := 6
  const Completed: int := 7
  const Cancelled: int := 8
  const InvoiceOnly: int := 9

  predicate IsUiStatus(s: int) {
    Pending <= s <= InvoiceOnly
  }

  /** The backend's order status enum, which `Order.status` carries. */
  const BackendCreated: int := 0
  const BackendApproved: int := 1
  const BackendPicking: int := 2
  const BackendPacking: int := 3
  const BackendShipped: int := 4
  const BackendDelivered: int := 5
  const BackendCancelled: int := 6
  const BackendReturned: int := 7

  /**
   * `mapStatusForApi`: page status to backend status (Created 0, Approved 1,
   * Picking 2, Packing 3, Shipped 4, Delivered 5, Cancelled 6, Returned 7);
   * every value without a case of its own passes through unchanged.
   */
  function MapStatusForApi(status: Option<int>): (r: Option<int>)
    ensures r.None? <==> status.None?
    ensures status.Some? && !IsUiStatus(status.value) ==> r == status
  {
    match status
    case None => None
    case Some(s) =>
      Some(if s == Pending then BackendCreated
           else if s == Processing then BackendApproved
           else if s == Picking then BackendPicking
           else if s == Packing then BackendPacking
           else if s == Shipped then BackendShipped
           else if s == Completed then BackendDelivered
           else if s == Cancelled then BackendCancelled
           else s)
  }

  /**
   * The mapping status by status: each page status with a backend namesake
   * goes to it (Pending to Created, Processing to Approved, Completed to
   * Delivered); Confirmed, Packed and InvoiceOnly go out as their own value.
   */
  lemma MapStatusTable()
    ensures MapStatusForApi(Some(Pending)) == Some(BackendCreated)
    ensures MapStatusForApi(Some(Processing)) == Some(BackendApproved)
    ensures MapStatusForApi(Some(Picking)) == Some(BackendPicking)
    ensures MapStatusForApi(Some(Packing)) == Some(BackendPacking)
    ensures MapStatusForApi(Some(Shipped)) == Some(BackendShipped)
    ensures MapStatusForApi(Some(Completed)) == Some(BackendDelivered)
    ensures MapStatusForApi(Some(Cancelled)) == Some(BackendCancelled)
    ensures MapStatusForApi(Some(Confirmed)) == Some(Confirmed)
    ensures MapStatusForApi(Some(Packed)) == Some(Packed)
    ensures MapStatusForApi(Some(InvoiceOnly)) == Some(InvoiceOnly)
  {
  }

  /** The mapping is not injective: two pairs of page statuses collapse. */
  lemma MapStatusNotInjective()
    ensures MapStatusForApi(Some(Confirmed)) == MapStatusForApi(Some(Processing)) == Some(1)
    ensures MapStatusForApi(Some(Packed)) == MapStatusForApi(Some(Completed)) == Some(5)
  {
  }

  /**
   * Over the page's statuses: everything but InvoiceOnly lands in backend
   * 0..6 and InvoiceOnly is sent as 9.
   */
  lemma MapStatusRange(s: int)
    requires IsUiStatus(s)
    ensures s != InvoiceOnly ==> 0 <= MapStatusForApi(Some(s)).value <= 6
    ensures s == InvoiceOnly ==> MapStatusForApi(Some(s)) == Some(9)
  {
  }

  /** Backend Returned (7) is never asked for, whatever the page holds. */
  lemma MapStatusNeverReturned(s: int)
    ensures MapStatusForApi(Some(s)) != Some(BackendReturned)
  {
  }

  /** Every backend status 0..6 is the image of some page status. */
  lemma MapStatusCoversBackend(b: int)
    requires 0 <= b <= 6
    ensures exists s :: IsUiStatus(s) && MapStatusForApi(Some(s)) == Some(b)
  {
    var s := if b == 0 then Pending else if b == 1 then Processing else if b == 2 then Picking
      else if b == 3 then Packing else if b == 4 then Shipped else if b == 5 then Completed else Cancelled;
    assert MapStatusForApi(Some(s)) == Some(b);
  }

  /** The route checks, one per status, on the lower-cased path. */
  predicate PendingRoute(path: string) { Contains(path, "/orders/pending") }
  predicate PickingRoute(path: string) { Contains(path, "/orders/picking") || path == "/picking" }
  predicate PackingRoute(path: string) { Contains(path, "/orders/packing") || path == "/packing" }
  predicate ShippedRoute(path: string) { Contains(path, "/orders/shipped") }
  predicate CompletedRoute(path: string) { Contains(path, "/orders/completed") }
  predicate CancelledRoute(path: string) { Contains(path, "/orders/cancelled") || Contains(path, "/returns") }

  /**
   * The status the route selects: the first of the checks below that the
   * lower-cased path passes, or none.
   */
  function RouteStatus(pathname: string, lower: string -> string): (r: Option<int>)
    ensures r.Some? ==> r.value in {Pending, Picking, Packing, Shipped, Completed, Cancelled}
    ensures PendingRoute(lower(pathname)) ==> r == Some(Pending)
    ensures (PickingRoute(lower(pathname)) && !PendingRoute(lower(pathname))) ==> r == Some(Picking)
    ensures (PackingRoute(lower(pathname)) && !PendingRoute(lower(pathname)) && !PickingRoute(lower(pathname)))
      ==> r == Some(Packing)
    ensures (ShippedRoute(lower(pathname)) && !PendingRoute(lower(pathname)) && !PickingRoute(lower(pathname))
             && !PackingRoute(lower(pathname)))
      ==> r == Some(Shipped)
    ensures (CompletedRoute(lower(pathname)) && !PendingRoute(lower(pathname)) && !PickingRoute(lower(pathname))
             && !PackingRoute(lower(pathname)) && !ShippedRoute(lower(pathname)))
      ==> r == Some(Completed)
    ensures (CancelledRoute(lower(pathname)) && !PendingRoute(lower(pathname)) && !PickingRoute(lower(pathname))
             && !PackingRoute(lower(pathname)) && !ShippedRoute(lower(pathname)) && !CompletedRoute(lower(pathname)))
      ==> r == Some(Cancelled)
    ensures r.None? <==> (!PendingRoute(lower(pathname)) && !PickingRoute(lower(pathname))
                          && !PackingRoute(lower(pathname)) && !ShippedRoute(lower(pathname))
                          && !CompletedRoute(lower(pathname)) && !CancelledRoute(lower(pathname)))
  {
    var path := lower(pathname);
    if PendingRoute(path) then Some(Pending)
    else if PickingRoute(path) then Some(Picking)
    else if PackingRoute(path) then Some(Packing)
    else if ShippedRoute(path) then Some(Shipped)
    else if CompletedRoute(path) then Some(Completed)
    else if CancelledRoute(path) then Some(Cancelled)
    else None
  }

  /**
   * Outside the `/orders/` tree and the two bare routes, a path mentioning
   * `/returns` filters on Cancelled, and a path mentioning none of the
   * route words filters on nothing.
   */
  lemma RouteOutsideOrders(pathname: string, lower: string -> string)
    requires !Contains(lower(pathname), "/orders/")
    requires lower(pathname) != "/picking" && lower(pathname) != "/packing"
    ensures RouteStatus(pathname, lower) == Some(Cancelled) <==> Contains(lower(pathname), "/returns")
    ensures RouteStatus(pathname, lower).None? <==> !Contains(lower(pathname), "/returns")
  {
    var path := lower(pathname);
    MissingPrefixMissesLonger(path, "/orders/", "/orders/pending");
    MissingPrefixMissesLonger(path, "/orders/", "/orders/picking");
    MissingPrefixMissesLonger(path, "/orders/", "/orders/packing");
    MissingPrefixMissesLonger(path, "/orders/", "/orders/shipped");
    MissingPrefixMissesLonger(path, "/orders/", "/orders/completed");
    MissingPrefixMissesLonger(path, "/orders/", "/orders/cancelled");
  }

  /** The bare `/picking` and `/packing` menu routes select their status. */
  lemma RouteBarePaths(lower: string -> string)
    requires lower("/picking") == "/picking" && lower("/packing") == "/packing"
    ensures RouteStatus("/picking", lower) == Some(Picking)
    ensures RouteStatus("/packing", lower) == Some(Packing)
  {
    ContainsTooLong("/picking", "/orders/pending");
    ContainsTooLong("/packing", "/orders/pending");
    ContainsTooLong("/packing", "/orders/picking");
  }

  /** The `/returns` menu route lists the cancelled orders. */
  lemma RouteReturns(lower: string -> string)
    requires lower("/returns") == "/returns"
    ensures RouteStatus("/returns", lower) == Some(Cancelled)
  {
    assert !StartsWith("/returns", "/orders/") by {
      assert "/returns"[1] != "/orders/"[1];
    }
    ContainsTooLong("/returns"[1..], "/orders/");
    assert StartsWith("/returns", "/returns");
    RouteOutsideOrders("/returns", lower);
  }

  /** The plain `/orders` route filters on no status. */
  lemma RouteAllOrders(lower: string -> string)
    requires lower("/orders") == "/orders"
    ensures RouteStatus("/orders", lower) == None
  {
    ContainsTooLong("/orders", "/orders/");
    ContainsTooLong("/orders", "/returns");
    RouteOutsideOrders("/orders", lower);
  }

  /** `handleStatusFilter`: clicking the selected status clears it; any other click selects. */
  function HandleStatusFilter(selected: Option<int>, clicked: Option<int>): (r: Option<int>)
    ensures clicked == selected ==> r.None?
    ensures clicked != selected ==> r == clicked
  {
    if clicked == selected then None else clicked
  }

  /** Each click on a status card changes the selection, and a second click undoes the first. */
  lemma StatusToggleTwice(selected: Option<int>, clicked: Option<int>)
    requires clicked.Some?
    ensures HandleStatusFilter(selected, clicked) != selected
    ensures selected.None? ==> HandleStatusFilter(HandleStatusFilter(selected, clicked), clicked) == selected
  {
  }

  /** One record of the status-summary response; every field may be missing. */
  datatype SummaryItem = SummaryItem(status: Option<int>, id: Option<int>, labelText: Option<string>, count: Option<int>)

  /** One status card. `id` is absent when the item had neither status nor id. */
  datatype StatusSummary = StatusSummary(id: Option<int>, labelText: string, count: int)

  /** The `statusConfig` labels. */
  function StatusLabel(s: int): (r: Option<string>)
    ensures r.Some? <==> IsUiStatus(s)
    ensures r.Some? ==> r.value != ""
  {
    if s == Pending then Some("Sipariş Alındı")
    else if s == Confirmed then Some("Onaylandı")
    else if s == Processing then Some("Hazırlanıyor")
    else if s == Picking then Some("Toplanıyor")
    else if s == Packing then Some("Paketleniyor")
    else if s == Packed then Some("Paketlendi")
    else if s == Shipped then Some("Kargoya Verildi")
    else if s == Completed then Some("Tamamlandı")
    else if s == Cancelled then Some("İptal")
    else if s == InvoiceOnly then Some("Sadece Fatura")
    else None
  }

  /**
   * The status-summary mapping: `id` is `status ?? id`, the label is looked up
   * with `status || id` (so a status of 0 looks up by `id`), and `count || 0`.
   */
  function SummaryEntry(item: SummaryItem): (r: StatusSummary)
    ensures item.status.Some? ==> r.id == item.status
    ensures item.status.None? ==> r.id == item.id
    ensures r.count == if item.count.Some? then item.count.value else 0
    ensures item.status.Some? && item.status.value != 0 && StatusLabel(item.status.value).Some?
      ==> r.labelText == StatusLabel(item.status.value).value
    ensures item.status.None? && item.id.Some? && StatusLabel(item.id.value).Some?
      ==> r.labelText == StatusLabel(item.id.value).value
    ensures item.status.Some? && item.status.value != 0 && StatusLabel(item.status.value).None?
      ==> r.labelText == TextOr(item.labelText, "Bilinmeyen")
    ensures item.status.None? && (item.id.None? || StatusLabel(item.id.value).None?)
      ==> r.labelText == TextOr(item.labelText, "Bilinmeyen")
    ensures r.labelText != ""
  {
    var key := if item.status.Some? && item.status.value != 0 then item.status else item.id;
    var shown := if key.Some? && StatusLabel(key.value).Some? then StatusLabel(key.value).value
                 else TextOr(item.labelText, "Bilinmeyen");
    StatusSummary(
      if item.status.Some? then item.status else item.id,
      shown,
      if item.count.Some? then item.count.value else 0)
  }

  /**
   * A Pending (0) entry never gets its own label from the table unless its id
   * is 0 too: it shows the label of its id, else the server's, else "Bilinmeyen".
   */
  lemma PendingEntryLabel(item: SummaryItem)
    requires item.status == Some(Pending)
    ensures SummaryEntry(item).id == Some(Pending)
    ensures item.id.Some? && StatusLabel(item.id.value).Some? ==> SummaryEntry(item).labelText == StatusLabel(item.id.value).value
    ensures item.id.None? || StatusLabel(item.id.value).None? ==> SummaryEntry(item).labelText == TextOr(item.labelText, "Bilinmeyen")
  {
  }

  /** `line.quantity || 0` */
  function LineQuantity(line: OrderLine): int {
    if line.quantity.Some? then line.quantity.value else 0
  }

  /** `lines.reduce((sum, line) => sum + (line.quantity || 0), acc)`, left to right. */
  function ReduceLineQuantities(acc: int, lines: seq<OrderLine>): int
    decreases |lines|
  {
    if lines == [] then acc else ReduceLineQuantities(acc + LineQuantity(lines[0]), lines[1..])
  }

  /** The per-row "Kalem" cell: `orderLines?.length || 0`. */
  function RowLineCount(order: Order): nat {
    if order.orderLines.Some? then |order.orderLines.value| else 0
  }

  /** The per-row "Miktar" cell: the line quantities summed, 0 without lines. */
  function RowQuantity(order: Order): int {
    if order.orderLines.Some? then ReduceLineQuantities(0, order.orderLines.value) else 0
  }

  /** `orders.reduce((sum, o) => sum + (o.orderLines?.length || 0), acc)` */
  function ReduceLineCounts(acc: int, orders: seq<Order>): int
    decreases |orders|
  {
    if orders == [] then acc else ReduceLineCounts(acc + RowLineCount(orders[0]), orders[1..])
  }

  /** The summary row's quantity reduce: each order's line reduce added to the running sum. */
  function ReduceOrderQuantities(acc: int, orders: seq<Order>): int
    decreases |orders|
  {
    if orders == [] then acc else ReduceOrderQuantities(acc + RowQuantity(orders[0]), orders[1..])
  }

  /** The summary row's `totalItems`. */
  function SummaryTotalItems(orders: seq<Order>): int {
    ReduceLineCounts(0, orders)
  }

  /** The summary row's `totalQuantity`. */
  function SummaryTotalQuantity(orders: seq<Order>): int {
    ReduceOrderQuantities(0, orders)
  }

  /** Reference sums, right to left: quantities of lines, and row cells of orders. */
  function SumLines(lines: seq<OrderLine>): int {
    if lines == [] then 0 else LineQuantity(lines[0]) + SumLines(lines[1..])
  }

  function SumRowLineCounts(orders: seq<Order>): int {
    if orders == [] then 0 else RowLineCount(orders[0]) + SumRowLineCounts(orders[1..])
  }

  function SumRowQuantities(orders: seq<Order>): int {
    if orders == [] then 0 else RowQuantity(orders[0]) + SumRowQuantities(orders[1..])
  }

  /** Every line of every order, in table order. */
  function AllLines(orders: seq<Order>): seq<OrderLine> {
    if orders == [] then []
    else (if orders[0].orderLines.Some? then orders[0].orderLines.value else []) + AllLines(orders[1..])
  }

  lemma {:induction false} ReduceLinesIsSum(acc: int, lines: seq<OrderLine>)
    ensures ReduceLineQuantities(acc, lines) == acc + SumLines(lines)
    decreases |lines|
  {
    if lines != [] {
      ReduceLinesIsSum(acc + LineQuantity(lines[0]), lines[1..]);
    }
  }

  lemma {:induction false} ReduceLineCountsIsSum(acc: int, orders: seq<Order>)
    ensures ReduceLineCounts(acc, orders) == acc + SumRowLineCounts(orders)
    decreases |orders|
  {
    if orders != [] {
      ReduceLineCountsIsSum(acc + RowLineCount(orders[0]), orders[1..]);
    }
  }

  lemma {:induction false} ReduceOrderQuantitiesIsSum(acc: int, orders: seq<Order>)
    ensures ReduceOrderQuantities(acc, orders) == acc + SumRowQuantities(orders)
    decreases |orders|
  {
    if orders != [] {
      ReduceOrderQuantitiesIsSum(acc + RowQuantity(orders[0]), orders[1..]);
    }
  }

  lemma {:induction false} SumLinesAppend(a: seq<OrderLine>, b: seq<OrderLine>)
    ensures SumLines(a + b) == SumLines(a) + SumLines(b)
    decreases |a|
  {
    if a != [] {
      assert (a + b)[0] == a[0];
      assert (a + b)[1..] == a[1..] + b;
      SumLinesAppend(a[1..], b);
    } else {
      assert a + b == b;
    }
  }

  /** A row's quantity cell is the sum of its line quantities, a missing one counting 0. */
  lemma RowQuantityIsSum(order: Order)
    ensures RowQuantity(order) == if order.orderLines.Some? then SumLines(order.orderLines.value) else 0
  {
    if order.orderLines.Some? {
      ReduceLinesIsSum(0, order.orderLines.value);
    }
  }

  /**
   * The summary row agrees with the rows: `totalItems` is the sum of the row
   * line counts and the number of lines shown, `totalQuantity` the sum of the
   * row quantities and of all line quantities.
   */
  lemma {:induction false} SummaryMatchesRows(orders: seq<Order>)
    ensures SummaryTotalItems(orders) == SumRowLineCounts(orders) == |AllLines(orders)|
    ensures SummaryTotalQuantity(orders) == SumRowQuantities(orders) == SumLines(AllLines(orders))
    decreases |orders|
  {
    ReduceLineCountsIsSum(0, orders);
    ReduceOrderQuantitiesIsSum(0, orders);
    if orders != [] {
      SummaryMatchesRows(orders[1..]);
      ReduceLineCountsIsSum(0, orders[1..]);
      ReduceOrderQuantitiesIsSum(0, orders[1..]);
      var first := if orders[0].orderLines.Some? then orders[0].orderLines.value else [];
      SumLinesAppend(first, AllLines(orders[1..]));
      RowQuantityIsSum(orders[0]);
    }
  }

  /** Approve and cancel buttons are offered only on orders the backend holds as Created. */
  predicate OffersApproveCancel(order: Order) {
    order.status == BackendCreated
  }

  /**
   * They are offered exactly on the orders the Pending card's filter asks the
   * backend for, and on no order in a later backend state.
   */
  lemma ApproveCancelOnCreated(order: Order)
    ensures OffersApproveCancel(order) <==> MapStatusForApi(Some(Pending)) == Some(order.status)
    ensures BackendApproved <= order.status <= BackendReturned ==> !OffersApproveCancel(order)
  {
  }
}
