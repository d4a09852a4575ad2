/**
 * The customer payment page: the table's order listing combined into one
 * entry per menu item with a quantity, the undelivered-orders flag, the tip
 * dialog, and the page state after a payment.
 */
module Pay {
  import opened Wrappers
  import opened Text
  import DataApi

  /** An entry of the combined list: the first listed row of an item and how many rows it stands for. */
  datatype Entry = Entry(order: DataApi.Row, quantity: nat)

  function ItemId(row: DataApi.Row): DataApi.Value
  {
    DataApi.Field(row, "itemId")
  }

  /** `acc.find(o => o.itemId === id)`, as the index of the first such entry. */
  function FindItem(acc: seq<Entry>, id: DataApi.Value): (r: Option<nat>)
    ensures r.None? <==> forall j :: 0 <= j < |acc| ==> ItemId(acc[j].order) != id
    ensures r.Some? ==> r.value < |acc| && ItemId(acc[r.value].order) == id
    ensures r.Some? ==> forall j :: 0 <= j < r.value ==> ItemId(acc[j].order) != id
    decreases |acc|
  {
    if acc == [] then None
    else if ItemId(acc[0].order) == id then Some(0)
    else match FindItem(acc[1..], id)
      case None => None
      case Some(j) => Some(j + 1)
  }

  /** One step of the reduce: count the row against its item, or start an entry for a new item. */
  function AddRow(acc: seq<Entry>, row: DataApi.Row): seq<Entry>
  {
    match FindItem(acc, ItemId(row))
    case Some(j) => acc[j := acc[j].(quantity := acc[j].quantity + 1)]
    case None => acc + [Entry(row, 1)]
  }

  /** The combined list of a listing: the reduce over its rows, from the first to the last. */
  function CombinedOrders(rows: seq<DataApi.Row>): seq<Entry>
    decreases |rows|
  {
    if rows == [] then [] else AddRow(CombinedOrders(rows[..|rows| - 1]), rows[|rows| - 1])
  }

  /** The combined list as the page builds it, with the accumulator updated in place. */
  method CombineOrders(rows: seq<DataApi.Row>) returns (combined: seq<Entry>)
    ensures combined == CombinedOrders(rows)
    ensures forall i, j :: 0 <= i < j < |combined| ==> ItemId(combined[i].order) != ItemId(combined[j].order)
    ensures Total(combined) == |rows|
  {
    combined := [];
    var i := 0;
    while i < |rows|
      invariant 0 <= i <= |rows|
      invariant combined == CombinedOrders(rows[..i])
    {
      var row := rows[i];
      var j := 0;
      while j < |combined| && ItemId(combined[j].order) != ItemId(row)
        invariant 0 <= j <= |combined|
        invariant forall k :: 0 <= k < j ==> ItemId(combined[k].order) != ItemId(row)
      {
        j := j + 1;
      }
      if j < |combined| {
        combined := combined[j := combined[j].(quantity := combined[j].quantity + 1)];
      } else {
        combined := combined + [Entry(row, 1)];
      }
      assert rows[..i + 1][..i] == rows[..i];
      i := i + 1;
    }
    assert rows[..|rows|] == rows;
    CombinedSummary(rows);
  }

  /** The number of rows of an item. */
  function Count(rows: seq<DataApi.Row>, id: DataApi.Value): nat
    decreases |rows|
  {
    if rows == [] then 0
    else Count(rows[..|rows| - 1], id) + (if ItemId(rows[|rows| - 1]) == id then 1 else 0)
  }

  /** The item ids of a listing, each once, in the order they first appear. */
  function FirstOccurrences(rows: seq<DataApi.Row>): seq<DataApi.Value>
    decreases |rows|
  {
    if rows == [] then []
    else
      var seen := FirstOccurrences(rows[..|rows| - 1]);
      if ItemId(rows[|rows| - 1]) in seen then seen else seen + [ItemId(rows[|rows| - 1])]
  }

  /** The sum of the quantities. */
  function Total(entries: seq<Entry>): nat
    decreases |entries|
  {
    if entries == [] then 0 else entries[0].quantity + Total(entries[1..])
  }

  lemma {:induction false} TotalUpdate(entries: seq<Entry>, j: nat, e: Entry)
    requires j < |entries|
    ensures Total(entries[j := e]) == Total(entries) - entries[j].quantity + e.quantity
    decreases j
  {
    if j > 0 {
      assert entries[j := e][1..] == entries[1..][j - 1 := e];
      TotalUpdate(entries[1..], j - 1, e);
    }
  }

  lemma {:induction false} TotalAppend(entries: seq<Entry>, e: Entry)
    ensures Total(entries + [e]) == Total(entries) + e.quantity
    decreases |entries|
  {
    if entries != [] {
      assert (entries + [e])[1..] == entries[1..] + [e];
      TotalAppend(entries[1..], e);
    } else {
      assert [e][1..] == [];
    }
  }

  /** No value appears twice. */
  predicate Distinct(ids: seq<DataApi.Value>)
  {
    forall i, j :: 0 <= i < j < |ids| ==> ids[i] != ids[j]
  }

  /** Each item id appears once among the first occurrences, and every row's item id is there. */
  lemma {:induction false} FirstOccurrencesDistinct(rows: seq<DataApi.Row>)
    ensures Distinct(FirstOccurrences(rows))
    ensures forall k :: 0 <= k < |rows| ==> ItemId(rows[k]) in FirstOccurrences(rows)
    decreases |rows|
  {
    if rows != [] {
      var prefix := rows[..|rows| - 1];
      FirstOccurrencesDistinct(prefix);
      var seen := FirstOccurrences(prefix);
      var ids := FirstOccurrences(rows);
      var last := ItemId(rows[|rows| - 1]);
      if last !in seen {
        assert ids == seen + [last];
        forall i, j | 0 <= i < j < |ids| ensures ids[i] != ids[j] {
          if j == |seen| {
            assert ids[i] == seen[i] && seen[i] in seen;
            assert ids[j] == last;
          } else {
            assert ids[i] == seen[i] && ids[j] == seen[j];
          }
        }
      } else {
        assert ids == seen;
      }
      assert forall x :: x in seen ==> x in ids;
      assert last in ids;
      forall k | 0 <= k < |rows|
        ensures ItemId(rows[k]) in ids
      {
        if k < |rows| - 1 {
          assert rows[k] == prefix[k];
          assert ItemId(prefix[k]) in seen;
        }
      }
    }
  }

  /** An item that is not among the first occurrences has no rows. */
  lemma {:induction false} CountOutside(rows: seq<DataApi.Row>, id: DataApi.Value)
    requires id !in FirstOccurrences(rows)
    ensures Count(rows, id) == 0
    decreases |rows|
  {
    if rows != [] {
      CountOutside(rows[..|rows| - 1], id);
    }
  }

  /** The combined list has one entry per item, in the order the items first appear, each holding a row of its item. */
  lemma {:induction false} CombinedItems(rows: seq<DataApi.Row>)
    ensures var c := CombinedOrders(rows);
      && |c| == |FirstOccurrences(rows)|
      && (forall j :: 0 <= j < |c| ==> ItemId(c[j].order) == FirstOccurrences(rows)[j])
      && (forall j :: 0 <= j < |c| ==> c[j].order in rows)
    decreases |rows|
  {
    if rows != [] {
      var prefix, row := rows[..|rows| - 1], rows[|rows| - 1];
      var c := CombinedOrders(prefix);
      CombinedItems(prefix);
      assert forall j :: 0 <= j < |c| ==> c[j].order in rows by {
        forall j | 0 <= j < |c| ensures c[j].order in rows {
          var k :| 0 <= k < |prefix| && prefix[k] == c[j].order;
          assert rows[k] == prefix[k];
        }
      }
      match FindItem(c, ItemId(row))
      case Some(j) =>
      case None =>
        assert ItemId(row) !in FirstOccurrences(prefix);
    }
  }

  /** Each entry counts the rows of its item. */
  lemma {:induction false} CombinedCounts(rows: seq<DataApi.Row>)
    ensures var c := CombinedOrders(rows);
      forall j :: 0 <= j < |c| ==> c[j].quantity == Count(rows, ItemId(c[j].order))
    decreases |rows|
  {
    if rows != [] {
      var prefix, row := rows[..|rows| - 1], rows[|rows| - 1];
      var c := CombinedOrders(prefix);
      CombinedCounts(prefix);
      CombinedItems(prefix);
      FirstOccurrencesDistinct(prefix);
      var id := ItemId(row);
      match FindItem(c, id)
      case Some(j) =>
        assert forall i :: 0 <= i < |c| && i != j ==> ItemId(c[i].order) != id;
      case None =>
        assert id !in FirstOccurrences(prefix);
        CountOutside(prefix, id);
    }
  }

  /** The quantities add up to the number of rows. */
  lemma {:induction false} CombinedTotal(rows: seq<DataApi.Row>)
    ensures Total(CombinedOrders(rows)) == |rows|
    decreases |rows|
  {
    if rows != [] {
      var prefix, row := rows[..|rows| - 1], rows[|rows| - 1];
      var c := CombinedOrders(prefix);
      CombinedTotal(prefix);
      match FindItem(c, ItemId(row))
      case Some(j) =>
        TotalUpdate(c, j, c[j].(quantity := c[j].quantity + 1));
      case None =>
        TotalAppend(c, Entry(row, 1));
    }
  }

  /**
   * The combined list has one entry per item, in the order the items first
   * appear, each entry holds a row of its item and counts that item's rows,
   * and the quantities add up to the number of rows.
   */
  lemma CombinedSummary(rows: seq<DataApi.Row>)
    ensures var c := CombinedOrders(rows);
      && |c| == |FirstOccurrences(rows)|
      && (forall j :: 0 <= j < |c| ==> ItemId(c[j].order) == FirstOccurrences(rows)[j])
      && (forall i, j :: 0 <= i < j < |c| ==> ItemId(c[i].order) != ItemId(c[j].order))
      && (forall j :: 0 <= j < |c| ==> c[j].order in rows)
      && (forall j :: 0 <= j < |c| ==> c[j].quantity == Count(rows, ItemId(c[j].order)))
      && Total(c) == |rows|
  {
    CombinedItems(rows);
    CombinedCounts(rows);
    CombinedTotal(rows);
    FirstOccurrencesDistinct(rows);
  }

  /** `orders.some(order => order.Status !== 3)`. */
  predicate HasUndeliveredOrders(orders: seq<Entry>)
  {
    exists j :: 0 <= j < |orders| && DataApi.Field(orders[j].order, "Status") != DataApi.Num(3)
  }

  /** The rows the page receives from the order listing. */
  function ListedRows(dbRows: seq<DataApi.Row>): seq<DataApi.Row>
  {
    seq(|dbRows|, i requires 0 <= i < |dbRows| => DataApi.OrderOf(dbRows[i]).fields)
  }

  /** No row of the order listing has a `Status` field. */
  lemma ListedRowsLackStatus(dbRows: seq<DataApi.Row>)
    ensures forall k :: 0 <= k < |dbRows| ==> "Status" !in ListedRows(dbRows)[k]
  {
  }

  /**
   * The listing names the status field `status`, never `Status`, so the flag
   * is raised for every non-empty listing, whatever the stored statuses.
   */
  lemma UndeliveredWheneverListed(dbRows: seq<DataApi.Row>)
    ensures HasUndeliveredOrders(CombinedOrders(ListedRows(dbRows))) <==> dbRows != []
  {
    var rows := ListedRows(dbRows);
    var c := CombinedOrders(rows);
    CombinedItems(rows);
    CombinedTotal(rows);
    ListedRowsLackStatus(dbRows);
    if dbRows != [] {
      assert Total(c) > 0;
      var k :| 0 <= k < |rows| && rows[k] == c[0].order;
      assert DataApi.Field(c[0].order, "Status") == DataApi.Undefined;
    }
  }

  // ---------------------------------------------------------------------------
  // Page state

  datatype PayState = PayState(
    orders: seq<Entry>,
    error: Option<string>,
    balance: int,
    tipPercentage: int,
    isPopupOpen: bool,
    tempTipPercentage: int,
    isThankYouDialogOpen: bool)

  const DefaultTip := 20

  function InitialState(): PayState
  {
    PayState([], None, 0, DefaultTip, false, DefaultTip, false)
  }

  /** Confirming the tip dialog adopts the tip being edited and closes the dialog. */
  function ConfirmTip(s: PayState): (r: PayState)
    ensures r.tipPercentage == s.tempTipPercentage && !r.isPopupOpen
    ensures r.(tipPercentage := s.tipPercentage, isPopupOpen := s.isPopupOpen) == s
  {
    s.(tipPercentage := s.tempTipPercentage, isPopupOpen := false)
  }

  /** Confirming twice is confirming once. */
  lemma ConfirmTipIdempotent(s: PayState)
    ensures ConfirmTip(ConfirmTip(s)) == ConfirmTip(s)
  {
  }

  /**
   * The page after paying: when both requests completed, whatever their
   * status, the orders are cleared, the balance is 0, the tip is back to 20
   * and the thank-you dialog is open; when a request failed only the error is
   * set.
   */
  function PayForTable(s: PayState, requestsCompleted: bool): (r: PayState)
    ensures requestsCompleted ==>
              && r.orders == InitialState().orders && r.balance == InitialState().balance
              && r.tipPercentage == InitialState().tipPercentage && r.isThankYouDialogOpen
              && r.error == s.error && r.isPopupOpen == s.isPopupOpen && r.tempTipPercentage == s.tempTipPercentage
    ensures !requestsCompleted ==> r == s.(error := Some("Error processing payment"))
  {
    if requestsCompleted then
      s.(orders := [], balance := 0, tipPercentage := DefaultTip, isThankYouDialogOpen := true)
    else
      s.(error := Some("Error processing payment"))
  }

  /** Paying again after a completed payment changes nothing. */
  lemma PayForTableIdempotent(s: PayState)
    ensures PayForTable(PayForTable(s, true), true) == PayForTable(s, true)
  {
  }

  // ---------------------------------------------------------------------------
  // The payment requests

  function ResetBody(table: string): DataApi.Value
  {
    DataApi.Obj(map["tableId" := DataApi.Str(table), "total" := DataApi.Num(0),
                    "balance" := DataApi.Num(0), "help" := DataApi.Bool(false)])
  }

  function DeleteOrdersRequest(table: string): DataApi.PostRequest
  {
    DataApi.PostRequest("deleteOrders", None, DataApi.Obj(map["tableId" := DataApi.Str(table)]))
  }

  /** The requests the page sends for a payment, as written: the reset names no `table` parameter. */
  function PaymentRequestsAsWritten(table: string): seq<DataApi.PostRequest>
  {
    [DeleteOrdersRequest(table), DataApi.PostRequest("updateTableInfo", None, ResetBody(table))]
  }

  /**
   * As written, the orders of the table are deleted but the reset is refused
   * with 400 whatever the database would say, and the page still shows the
   * payment as done.
   */
  lemma PaymentResetRefused(table: string, answer: DataApi.DbAnswer, s: PayState)
    ensures var rs := PaymentRequestsAsWritten(table);
      && DataApi.Bindings(DataApi.PlanPost(Some(rs[0].kind), rs[0].table, rs[0].body).query,
                          DataApi.PlanPost(Some(rs[0].kind), rs[0].table, rs[0].body).values) == [Some(DataApi.Str(table))]
      && DataApi.Send(rs[1], answer) == DataApi.Response(400, DataApi.ErrorBody(DataApi.TableRequired))
      && PayForTable(s, true).isThankYouDialogOpen
  {
  }

  /** The payment requests with the table named in the reset's query string. */
  function PaymentRequests(table: string): seq<DataApi.PostRequest>
  {
    [DeleteOrdersRequest(table), DataApi.PostRequest("updateTableInfo", Some(table), ResetBody(table))]
  }

  /**
   * Naming the table is not enough on its own: the route as written accepts
   * the reset but binds the total to the help flag and the formatted balance
   * "0.00" to the table id, so the paid table is still not reset.
   */
  lemma PageFixAloneMisbinds(table: string, answer: DataApi.DbAnswer)
    requires table != ""
    ensures var r := PaymentRequests(table)[1];
      var p := DataApi.PlanPost(Some(r.kind), r.table, r.body);
      && p.Run? && p.query == DataApi.UpdateTableInfoSql
      && DataApi.Bindings(p.query, p.values) == [Some(DataApi.Num(0)), Some(DataApi.Str("0.00"))]
      && (DataApi.Ok(DataApi.Send(r, answer)) <==> answer.DbRows?)
  {
    DataApi.UpdateTableInfoAsWrittenMisbinds(ResetBody(table));
    assert DataApi.FormattedBalance(DataApi.Num(0)) == "0.00";
  }

  /**
   * The page pays only with a table in its address. With it named in the
   * reset and the route's values corrected to the help flag and the table
   * id, the reset clears exactly that table; the response is the same under
   * either route.
   */
  lemma PaymentResetAccepted(table: string, answer: DataApi.DbAnswer)
    requires table != ""
    ensures var r := PaymentRequests(table)[1];
      var p := DataApi.PlanPostCorrected(Some(r.kind), r.table, r.body);
      && p.Run? && p.query == DataApi.UpdateTableInfoSql
      && DataApi.Bindings(p.query, p.values) == [Some(DataApi.Bool(false)), Some(DataApi.Str(table))]
      && (DataApi.Ok(DataApi.Send(r, answer)) <==> answer.DbRows?)
  {
  }
}
