/**
 * The floor view of the dashboard: tables built from the device listing,
 * orders from the order listing, each table's orders merged in, the table
 * selection filter, the area filter, and the local updates after a status
 * change and after a table has paid.
 */
module FrontOfHouse {
  import opened Wrappers
  import opened Text
  import opened Lists
  import DataApi

  datatype OrderStatus = New | Preparing | ReadyToDeliver | Delivered | Paid | Closed
  datatype TableStatus = Available | Dining | HelpRequested | ManagerRequested
  datatype Area = Bar | Kitchen | UnknownArea

  /** The string each enum member stands for on the page. */
  function StatusLabel(s: OrderStatus): string
  {
    match s
    case New => "New"
    case Preparing => "Preparing"
    case ReadyToDeliver => "Ready to Deliver"
    case Delivered => "Delivered"
    case Paid => "Paid"
    case Closed => "Closed"
  }

  function AreaName(a: Area): string
  {
    match a
    case Bar => "Bar"
    case Kitchen => "Kitchen"
    case UnknownArea => "Unknown"
  }

  datatype OrderItem = OrderItem(id: int, orderNumber: int, tableNumber: int, orderStatus: OrderStatus, area: Area)

  datatype Table = Table(id: int, tableNumber: int, status: TableStatus, orders: seq<OrderItem>)

  /** One row of the device listing: the table id and the first byte of its help flag. */
  datatype DeviceRow = DeviceRow(tableId: int, helpFirstByte: DataApi.Value)

  /** One order of the order listing, as the data route names its fields. */
  datatype ListedOrder = ListedOrder(id: int, tableNumber: int, status: string, area: Option<string>)

  /** A table from the device listing, asking for help exactly when its help flag is 1. */
  function TableOf(row: DeviceRow): (t: Table)
    ensures t.id == t.tableNumber == row.tableId && t.orders == []
    ensures t.status == HelpRequested <==> row.helpFirstByte == DataApi.Num(1)
    ensures t.status == Available <==> row.helpFirstByte != DataApi.Num(1)
  {
    Table(row.tableId, row.tableId, if row.helpFirstByte == DataApi.Num(1) then HelpRequested else Available, [])
  }

  /** The status of a listed order: every name but New, Preparing and ReadyToDeliver reads as Delivered. */
  function StatusOf(status: string): (r: OrderStatus)
    ensures r == Delivered <==> status !in {"New", "Preparing", "ReadyToDeliver"}
    ensures r in {New, Preparing, ReadyToDeliver, Delivered}
  {
    if status == "New" then New
    else if status == "Preparing" then Preparing
    else if status == "ReadyToDeliver" then ReadyToDeliver
    else Delivered
  }

  /** A stored status reads as Delivered on the floor unless it is one of the codes 0, 1 and 2. */
  lemma StoredStatusOnFloor(stored: DataApi.Value)
    ensures StatusOf(DataApi.TranslateStatus(stored)) == Delivered <==> !(stored.Num? && 0 <= stored.n < 3)
  {
  }

  /** A missing or empty area is Unknown; otherwise "bar" in any case is the bar and anything else the kitchen. */
  function AreaOf(area: Option<string>): (r: Area)
    ensures r == UnknownArea <==> area.None? || area.value == ""
    ensures r == Bar <==> area.Some? && ToLower(area.value) == "bar"
  {
    if area.None? || area.value == "" then UnknownArea
    else if ToLower(area.value) == "bar" then Bar
    else Kitchen
  }

  function OrderOf(o: ListedOrder): OrderItem
  {
    OrderItem(o.id, o.id, o.tableNumber, StatusOf(o.status), AreaOf(o.area))
  }

  /** The orders placed at a table, in list order. */
  function OrdersAt(orders: seq<OrderItem>, tableNumber: int): (r: seq<OrderItem>)
    ensures forall o :: o in r <==> o in orders && o.tableNumber == tableNumber
    ensures IsSubsequence(r, orders)
  {
    FilterIsSubsequence(orders, (o: OrderItem) => o.tableNumber == tableNumber);
    Filter(orders, (o: OrderItem) => o.tableNumber == tableNumber)
  }

  /** A table with the orders placed at it; a table with orders is Dining, otherwise it keeps its status. */
  function WithOrders(table: Table, orders: seq<OrderItem>): Table
  {
    var tableOrders := OrdersAt(orders, table.tableNumber);
    table.(orders := tableOrders, status := if |tableOrders| > 0 then Dining else table.status)
  }

  /** Every table with its own orders merged in. */
  function TablesWithOrders(tables: seq<Table>, orders: seq<OrderItem>): (r: seq<Table>)
    ensures |r| == |tables|
    ensures forall i :: 0 <= i < |tables| ==>
              && r[i].id == tables[i].id && r[i].tableNumber == tables[i].tableNumber
              && r[i].orders == OrdersAt(orders, tables[i].tableNumber)
              && r[i].status == if r[i].orders != [] then Dining else tables[i].status
  {
    seq(|tables|, i requires 0 <= i < |tables| => WithOrders(tables[i], orders))
  }

  /** Some listed order is at the table exactly when the table has orders. */
  lemma ListedAtTable(listed: seq<ListedOrder>, tableNumber: int)
    ensures (exists k :: 0 <= k < |listed| && listed[k].tableNumber == tableNumber)
            <==> OrdersAt(seq(|listed|, k requires 0 <= k < |listed| => OrderOf(listed[k])), tableNumber) != []
  {
    var orders := seq(|listed|, k requires 0 <= k < |listed| => OrderOf(listed[k]));
    var at := OrdersAt(orders, tableNumber);
    if at != [] {
      var k :| 0 <= k < |orders| && orders[k] == at[0];
      assert listed[k].tableNumber == tableNumber;
    }
    if exists k :: 0 <= k < |listed| && listed[k].tableNumber == tableNumber {
      var k :| 0 <= k < |listed| && listed[k].tableNumber == tableNumber;
      assert orders[k] in at;
    }
  }

  /**
   * Tables built from the device listing: Dining exactly when some order is
   * at the table, otherwise Help Requested when its help flag is 1 and
   * Available when not.
   */
  lemma FloorStatus(rows: seq<DeviceRow>, listed: seq<ListedOrder>)
    ensures var orders := seq(|listed|, k requires 0 <= k < |listed| => OrderOf(listed[k]));
      var r := TablesWithOrders(seq(|rows|, i requires 0 <= i < |rows| => TableOf(rows[i])), orders);
      forall i :: 0 <= i < |rows| ==>
        r[i].status ==
          if exists k :: 0 <= k < |listed| && listed[k].tableNumber == rows[i].tableId then Dining
          else if rows[i].helpFirstByte == DataApi.Num(1) then HelpRequested
          else Available
  {
    forall i | 0 <= i < |rows| {
      ListedAtTable(listed, rows[i].tableId);
    }
  }

  /** Selecting a table that is not selected appends it; selecting a selected one removes it. */
  function ToggleTableSelection(selected: seq<int>, tableNumber: int): (r: seq<int>)
    ensures tableNumber in r <==> tableNumber !in selected
    ensures forall t :: t != tableNumber ==> (t in r <==> t in selected)
    ensures tableNumber !in selected ==> r == selected + [tableNumber]
  {
    if tableNumber in selected then Filter(selected, t => t != tableNumber) else selected + [tableNumber]
  }

  /** Toggling a table twice restores the selection's membership, and the selection itself when it was not selected. */
  lemma ToggleTwice(selected: seq<int>, tableNumber: int)
    ensures forall t :: t in ToggleTableSelection(ToggleTableSelection(selected, tableNumber), tableNumber) <==> t in selected
    ensures tableNumber !in selected ==>
              ToggleTableSelection(ToggleTableSelection(selected, tableNumber), tableNumber) == selected
  {
    if tableNumber !in selected {
      FilterAppend(selected, tableNumber);
    }
  }

  lemma {:induction false} FilterAppend(s: seq<int>, x: int)
    requires x !in s
    ensures Filter(s + [x], t => t != x) == s
    decreases |s|
  {
    if s == [] {
      assert [x][1..] == [];
    } else {
      assert (s + [x])[1..] == s[1..] + [x];
      FilterAppend(s[1..], x);
    }
  }

  /** The tables on the floor: all of them while choosing or with nothing chosen, else the chosen ones in floor order. */
  function FilteredTables(isFilterMode: bool, selected: seq<int>, tables: seq<Table>): (r: seq<Table>)
    ensures isFilterMode || selected == [] ==> r == tables
    ensures !isFilterMode && selected != [] ==> forall t :: t in r <==> t in tables && t.tableNumber in selected
    ensures IsSubsequence(r, tables)
  {
    if isFilterMode || selected == [] then
      FilterAll(tables, (t: Table) => true);
      FilterIsSubsequence(tables, (t: Table) => true);
      tables
    else
      FilterIsSubsequence(tables, (t: Table) => t.tableNumber in selected);
      Filter(tables, (t: Table) => t.tableNumber in selected)
  }

  /** The orders of the selected area ("bar", "kitchen" or "unknown"). */
  function FilteredOrders(orders: seq<OrderItem>, selectedArea: string): (r: seq<OrderItem>)
    ensures forall o :: o in r <==> o in orders && ToLower(AreaName(o.area)) == selectedArea
    ensures IsSubsequence(r, orders)
  {
    FilterIsSubsequence(orders, (o: OrderItem) => ToLower(AreaName(o.area)) == selectedArea);
    Filter(orders, (o: OrderItem) => ToLower(AreaName(o.area)) == selectedArea)
  }

  /** The "bar" selection shows exactly the bar orders, "kitchen" the kitchen orders. */
  lemma AreaSelection(orders: seq<OrderItem>)
    ensures forall o :: o in FilteredOrders(orders, "bar") <==> o in orders && o.area == Bar
    ensures forall o :: o in FilteredOrders(orders, "kitchen") <==> o in orders && o.area == Kitchen
  {
    forall a: Area {
      AreaNameLower(a);
    }
  }

  lemma AreaNameLower(a: Area)
    ensures ToLower(AreaName(a)) == if a == Bar then "bar" else if a == Kitchen then "kitchen" else "unknown"
  {
    var name := AreaName(a);
    var lower := ToLower(name);
    assert |lower| == |name|;
    forall i | 0 <= i < |name|
      ensures lower[i] == (if a == Bar then "bar" else if a == Kitchen then "kitchen" else "unknown")[i]
    {
      assert lower[i] == LowerChar(name[i]);
    }
  }

  /** The local order list after a status change, updated before any request is sent. */
  function UpdateOrderStatus(orders: seq<OrderItem>, orderId: int, newStatus: OrderStatus): (r: seq<OrderItem>)
    ensures |r| == |orders|
    ensures forall i :: 0 <= i < |orders| ==>
              r[i] == if orders[i].id == orderId then orders[i].(orderStatus := newStatus) else orders[i]
    decreases |orders|
  {
    if orders == [] then []
    else [if orders[0].id == orderId then orders[0].(orderStatus := newStatus) else orders[0]]
         + UpdateOrderStatus(orders[1..], orderId, newStatus)
  }

  /** The status request the floor sends: the enum's string. */
  function StatusRequest(orderId: int, newStatus: OrderStatus): DataApi.PostRequest
  {
    DataApi.PostRequest("updateOrderStatus", None,
      DataApi.Obj(map["orderId" := DataApi.Num(orderId), "newStatus" := DataApi.Str(StatusLabel(newStatus))]))
  }

  /** Delivering an order stores the code 3, which both listings read back as Delivered. */
  lemma DeliveredRequestStored(orderId: int)
    ensures var r := StatusRequest(orderId, Delivered);
      var p := DataApi.PlanPost(Some(r.kind), r.table, r.body);
      && p.Run? && DataApi.Bindings(p.query, p.values) == [Some(DataApi.Num(3)), Some(DataApi.Num(orderId))]
      && StatusOf(DataApi.TranslateStatus(p.values[0])) == Delivered
  {
    DataApi.UpdateOrderStatusStores(None, StatusRequest(orderId, Delivered).body);
  }

  /** The floor after a table has paid: that table empty and Available, its orders gone, the rest unchanged. */
  function PayForTable(tables: seq<Table>, orders: seq<OrderItem>, tableId: int): (r: (seq<Table>, seq<OrderItem>))
    ensures |r.0| == |tables|
    ensures forall i :: 0 <= i < |tables| ==>
              r.0[i] == if tables[i].id == tableId then tables[i].(orders := [], status := Available) else tables[i]
    ensures forall o :: o in r.1 <==> o in orders && o.tableNumber != tableId
    ensures IsSubsequence(r.1, orders)
  {
    FilterIsSubsequence(orders, (o: OrderItem) => o.tableNumber != tableId);
    (seq(|tables|, i requires 0 <= i < |tables| =>
       if tables[i].id == tableId then tables[i].(orders := [], status := Available) else tables[i]),
     Filter(orders, (o: OrderItem) => o.tableNumber != tableId))
  }

  /** The requests the floor sends for a payment, as written: the reset names no `table` parameter. */
  function PaymentRequestsAsWritten(tableId: int): seq<DataApi.PostRequest>
  {
    [DataApi.PostRequest("deleteOrders", None, DataApi.Obj(map["tableId" := DataApi.Num(tableId)])),
     DataApi.PostRequest("updateTableInfo", None, ResetBody(tableId))]
  }

  function ResetBody(tableId: int): DataApi.Value
  {
    DataApi.Obj(map["tableId" := DataApi.Num(tableId), "total" := DataApi.Num(0),
                    "balance" := DataApi.Num(0), "help" := DataApi.Num(0)])
  }

  /**
   * As written, the route deletes the table's orders but refuses the reset
   * with 400 whatever the database would say, so the table's help flag and
   * balance are never cleared.
   */
  lemma PaymentResetRefused(tableId: int, answer: DataApi.DbAnswer)
    ensures var rs := PaymentRequestsAsWritten(tableId);
      && DataApi.Bindings(DataApi.PlanPost(Some(rs[0].kind), rs[0].table, rs[0].body).query,
                          DataApi.PlanPost(Some(rs[0].kind), rs[0].table, rs[0].body).values) == [Some(DataApi.Num(tableId))]
      && DataApi.Send(rs[1], answer) == DataApi.Response(400, DataApi.ErrorBody(DataApi.TableRequired))
  {
  }

  /** The payment requests with the table named in the reset's query string. */
  function PaymentRequests(tableId: int): seq<DataApi.PostRequest>
  {
    [DataApi.PostRequest("deleteOrders", None, DataApi.Obj(map["tableId" := DataApi.Num(tableId)])),
     DataApi.PostRequest("updateTableInfo", Some(IntToString(tableId)), ResetBody(tableId))]
  }

  lemma TableNamed(tableId: int)
    ensures DataApi.TableGiven(PaymentRequests(tableId)[1].table)
  {
    assert IntToString(tableId) != "" by {
      if tableId < 0 {
        assert |IntToString(tableId)| == 1 + |NatToString(-tableId)|;
      }
    }
  }

  /**
   * Naming the table is not enough on its own: the route as written then
   * accepts the reset but binds the total to the help flag and the formatted
   * balance "0.00" to the table id, so the paid table is still not reset.
   */
  lemma PageFixAloneMisbinds(tableId: int, answer: DataApi.DbAnswer)
    ensures var r := PaymentRequests(tableId)[1];
      var p := DataApi.PlanPost(Some(r.kind), r.table, r.body);
      && p.Run? && p.query == DataApi.UpdateTableInfoSql
      && DataApi.Bindings(p.query, p.values) == [Some(DataApi.Num(0)), Some(DataApi.Str("0.00"))]
      && (DataApi.Ok(DataApi.Send(r, answer)) <==> answer.DbRows?)
  {
    TableNamed(tableId);
    DataApi.UpdateTableInfoAsWrittenMisbinds(ResetBody(tableId));
    assert DataApi.FormattedBalance(DataApi.Num(0)) == "0.00";
  }

  /**
   * With the table named and the route's values corrected to the help flag
   * and the table id, the reset clears the help flag of exactly the paid
   * table; the response is the same under either route.
   */
  lemma PaymentResetAccepted(tableId: int, answer: DataApi.DbAnswer)
    ensures var r := PaymentRequests(tableId)[1];
      var p := DataApi.PlanPostCorrected(Some(r.kind), r.table, r.body);
      && p.Run? && p.query == DataApi.UpdateTableInfoSql
      && DataApi.Bindings(p.query, p.values) == [Some(DataApi.Num(0)), Some(DataApi.Num(tableId))]
      && (DataApi.Ok(DataApi.Send(r, answer)) <==> answer.DbRows?)
  {
    TableNamed(tableId);
  }
}
