/**
 * The kitchen and bar board of the dashboard: the order status codec between
 * the names the data route returns, the page's enum and the integer codes it
 * stores, the board's filter, and the local update after a status change.
 */
module BackOfHouse {
  import opened Wrappers
  import opened Text
  import opened Lists
  import DataApi

  datatype OrderStatus = New | Preparing | ReadyToDeliver | Delivered

  /** An order as the board holds it; `area` is None when the listing's destination is null. */
  datatype OrderItem = OrderItem(
    id: int, orderNumber: int, tableNumber: int, itemName: string, status: OrderStatus, area: Option<string>)

  /** The page's reading of a status name from the order listing; unknown names are New. */
  function TranslateStatus(status: string): (r: OrderStatus)
    ensures r != New <==> status in {"Preparing", "ReadyToDeliver", "Delivered"}
  {
    if status == "New" then New
    else if status == "Preparing" then Preparing
    else if status == "ReadyToDeliver" then ReadyToDeliver
    else if status == "Delivered" then Delivered
    else New
  }

  /** The integer code the page stores for a status. */
  function TranslateStatusToInt(status: OrderStatus): (r: int)
    ensures 0 <= r < |DataApi.StatusNames|
    ensures r == 3 <==> status == Delivered
  {
    match status
    case New => 0
    case Preparing => 1
    case ReadyToDeliver => 2
    case Delivered => 3
  }

  /** A status stored as its code and listed again by the data route reads back as itself. */
  lemma StatusCodecRoundTrip(status: OrderStatus)
    ensures TranslateStatus(DataApi.TranslateStatus(DataApi.Num(TranslateStatusToInt(status)))) == status
  {
  }

  /**
   * Every stored code 0 to 3 survives the route's names and the page's enum;
   * any other stored value, listed as "Unknown", comes back as New and so 0.
   */
  lemma StoredCodeRoundTrip(stored: DataApi.Value)
    ensures TranslateStatusToInt(TranslateStatus(DataApi.TranslateStatus(stored)))
            == if stored.Num? && 0 <= stored.n < 4 then stored.n else 0
  {
  }

  /** Whether the board shows an order for the selected area ("all" shows every area). */
  predicate OnBoard(order: OrderItem, selectedArea: string)
  {
    order.status != Delivered
    && (selectedArea == "all" || (order.area.Some? && ToLower(order.area.value) == selectedArea))
  }

  /**
   * Whether the filter throws on the order: it lower-cases the area of every
   * undelivered order unless "all" is selected, and a null area has no
   * `toLowerCase`.
   */
  predicate AreaThrows(order: OrderItem, selectedArea: string)
  {
    order.status != Delivered && selectedArea != "all" && order.area.None?
  }

  /**
   * The orders on the board: no delivered order, only the selected area, in
   * list order, each as often as in the list; None when the filter throws a
   * TypeError on a null area.
   */
  function FilteredOrders(orders: seq<OrderItem>, selectedArea: string): (r: Option<seq<OrderItem>>)
    ensures r.None? <==> exists o :: o in orders && AreaThrows(o, selectedArea)
    ensures r.Some? ==> forall o :: o in r.value ==> o.status != Delivered
    ensures r.Some? && selectedArea != "all" ==>
              forall o :: o in r.value ==> o.area.Some? && ToLower(o.area.value) == selectedArea
    ensures r.Some? ==> forall o :: o in r.value <==> o in orders && OnBoard(o, selectedArea)
    ensures r.Some? ==> IsSubsequence(r.value, orders)
  {
    if exists o :: o in orders && AreaThrows(o, selectedArea) then None
    else
      FilterIsSubsequence(orders, o => OnBoard(o, selectedArea));
      Some(Filter(orders, o => OnBoard(o, selectedArea)))
  }

  /** The board keeps each order it shows as often as the list holds it. */
  lemma BoardCounts(orders: seq<OrderItem>, selectedArea: string)
    requires FilteredOrders(orders, selectedArea).Some?
    ensures forall o :: multiset(FilteredOrders(orders, selectedArea).value)[o]
                        == if OnBoard(o, selectedArea) then multiset(orders)[o] else 0
  {
    FilterCounts(orders, o => OnBoard(o, selectedArea));
  }

  /** The local list after the status request: changed only when the response was ok. */
  function UpdateOrderStatus(orders: seq<OrderItem>, orderId: int, newStatus: OrderStatus, ok: bool): (r: seq<OrderItem>)
    ensures !ok ==> r == orders
    ensures |r| == |orders|
    ensures forall i :: 0 <= i < |orders| ==>
              r[i] == if ok && orders[i].id == orderId then orders[i].(status := newStatus) else orders[i]
    decreases |orders|
  {
    if !ok || orders == [] then orders
    else [if orders[0].id == orderId then orders[0].(status := newStatus) else orders[0]]
         + UpdateOrderStatus(orders[1..], orderId, newStatus, ok)
  }

  /**
   * Marking an order Delivered, once the server accepted it, takes it off the
   * board, keeps every other order on it and cannot make the filter throw.
   * The board's own buttons only send Preparing and ReadyToDeliver; an order
   * is marked Delivered on the floor page, and the board then lists it so.
   */
  lemma DeliveredLeavesBoard(orders: seq<OrderItem>, orderId: int, selectedArea: string)
    ensures var after := UpdateOrderStatus(orders, orderId, Delivered, true);
      && (FilteredOrders(orders, selectedArea).Some? ==> FilteredOrders(after, selectedArea).Some?)
      && (FilteredOrders(after, selectedArea).Some? ==>
            forall o :: o in FilteredOrders(after, selectedArea).value ==> o.id != orderId)
      && (FilteredOrders(orders, selectedArea).Some? ==>
            forall o :: o in FilteredOrders(orders, selectedArea).value && o.id != orderId ==>
              o in FilteredOrders(after, selectedArea).value)
  {
    var after := UpdateOrderStatus(orders, orderId, Delivered, true);
    if FilteredOrders(orders, selectedArea).Some? {
      forall o | o in after
        ensures !AreaThrows(o, selectedArea)
      {
        var i :| 0 <= i < |after| && after[i] == o;
        assert !AreaThrows(orders[i], selectedArea);
      }
      forall o | o in FilteredOrders(orders, selectedArea).value && o.id != orderId
        ensures o in after
      {
        var i :| 0 <= i < |orders| && orders[i] == o;
        assert after[i] == o;
      }
    }
  }

  /** The body of the status request: the order id and the status's integer code. */
  function StatusRequestBody(orderId: int, status: OrderStatus): DataApi.Value
  {
    DataApi.Obj(map["orderId" := DataApi.Num(orderId), "newStatus" := DataApi.Num(TranslateStatusToInt(status))])
  }

  /**
   * The data route stores the status request's code against the order, and
   * the board reads the stored code back as the status it sent; the response
   * is ok exactly when the database accepted the update.
   */
  lemma StatusRequestStored(orderId: int, status: OrderStatus, answer: DataApi.DbAnswer)
    ensures var p := DataApi.PlanPost(Some("updateOrderStatus"), None, StatusRequestBody(orderId, status));
      && p.Run? && p.query == DataApi.UpdateOrderStatusSql
      && DataApi.Bindings(p.query, p.values) == [Some(DataApi.Num(TranslateStatusToInt(status))), Some(DataApi.Num(orderId))]
      && TranslateStatus(DataApi.TranslateStatus(p.values[0])) == status
    ensures DataApi.Ok(DataApi.Post(Some("updateOrderStatus"), None, StatusRequestBody(orderId, status), answer)) <==> answer.DbRows?
  {
    DataApi.UpdateOrderStatusStores(None, StatusRequestBody(orderId, status));
  }
}
