/**
 * The dashboard's data route `/api/data`.
 *
 * A request carries a `type` and an optional `table` query parameter and, for
 * POST, a JSON body. The route first validates the request, then selects one
 * parameterised SQL statement and its parameter list (a `Plan`), then turns
 * the database's answer into an HTTP response. The database itself is a
 * parameter (`DbAnswer`): whatever it replies to the planned statement.
 *
 * SQL statements are written as the text between their `?` placeholders, so
 * a statement's placeholder count is the number of its pieces minus one.
 * White space inside statements is normalised to single spaces.
 */
module DataApi {
  import opened Wrappers
  import opened Text

  /** A JSON value as the route reads it; numbers are integers in this model. */
  datatype Value =
    | Num(n: int)
    | Str(s: string)
    | Bool(b: bool)
    | Null
    | Undefined
    | Arr(items: seq<Value>)
    | Obj(fields: map<string, Value>)

  /** A database row: column name to value. */
  type Row = map<string, Value>

  /** `row.key`: a missing column or property reads as `undefined`. */
  function Field(fields: map<string, Value>, key: string): Value
  {
    if key in fields then fields[key] else Undefined
  }

  /** `v.key`: a TypeError (None) on null and undefined, `undefined` on a non-object. */
  function Prop(v: Value, key: string): (r: Option<Value>)
    ensures r.None? <==> v.Null? || v.Undefined?
  {
    if v.Null? || v.Undefined? then None
    else if v.Obj? then Some(Field(v.fields, key))
    else Some(Undefined)
  }

  /** `const { k0, k1, … } = v`: one property per key, or a TypeError on null and undefined. */
  function Destructure(v: Value, keys: seq<string>): (r: Option<seq<Value>>)
    ensures r.None? <==> v.Null? || v.Undefined?
    ensures r.Some? ==> |r.value| == |keys|
    ensures r.Some? ==> forall i :: 0 <= i < |keys| ==> Some(r.value[i]) == Prop(v, keys[i])
  {
    if v.Null? || v.Undefined? then None
    else Some(seq(|keys|, i requires 0 <= i < |keys| => Prop(v, keys[i]).value))
  }

  // ---------------------------------------------------------------------------
  // SQL statements

  /** A statement written as the text between its placeholders. */
  datatype Sql = Sql(pieces: seq<string>) {
    function Placeholders(): nat
    {
      if pieces == [] then 0 else |pieces| - 1
    }

    function Text(): string
    {
      if pieces == [] then "" else Join(pieces, '?')
    }
  }

  /**
   * The value the driver substitutes for each placeholder: placeholders take
   * the values in order, extra values are ignored and a placeholder left
   * without a value stays unbound.
   */
  function Bindings(q: Sql, values: seq<Value>): (r: seq<Option<Value>>)
    ensures |r| == q.Placeholders()
    ensures forall k :: 0 <= k < |r| ==> (r[k].Some? <==> k < |values|)
    ensures forall k :: 0 <= k < |r| && k < |values| ==> r[k] == Some(values[k])
  {
    seq(q.Placeholders(), k requires 0 <= k < q.Placeholders() =>
      if k < |values| then Some(values[k]) else None)
  }

  const DevicesSql := Sql(["SELECT TableID, DeviceID, Help FROM table_info"])
  const DestinationsSql := Sql(["SELECT DISTINCT destination FROM Menu"])
  const BalanceSql := Sql(["SELECT Balance FROM table_info WHERE TableID = ", ""])
  const MenuSql := Sql(["SELECT ItemID, name, description, Destination, Price, image FROM Menu"])

  const OrdersSelect: string :=
    "SELECT Order_info.OrderID AS id, Order_info.TableID AS tableNumber, Menu.ItemID AS itemId, "
    + "Menu.name AS itemName, Menu.Price AS price, Order_info.Destination AS area, Order_info.Status "
    + "FROM Order_info JOIN Menu ON Order_info.ItemID = Menu.ItemID"

  /** The order listing, restricted to one table by a WHERE clause when `filtered`. */
  function OrdersSql(filtered: bool): Sql
  {
    if filtered then Sql([OrdersSelect + " WHERE Order_info.TableID = ", ""]) else Sql([OrdersSelect])
  }

  const AddDeviceSql := Sql(["INSERT INTO table_info (TableID, DeviceID, Total, Balance, Help) VALUES (", ", ", ", 0.00, 0.00, 0)"])
  const DeleteDeviceSql := Sql(["DELETE FROM table_info WHERE DeviceID = ", ""])
  const UpdateDeviceSql := Sql(["UPDATE table_info SET TableID = ", " WHERE DeviceID = ", ""])
  const UpdateOrderStatusSql := Sql(["UPDATE Order_info SET Status = ", " WHERE OrderID = ", ""])
  const DeleteOrdersSql := Sql(["DELETE FROM Order_info WHERE TableID = ", ""])
  const UpdateTableInfoSql := Sql(["UPDATE table_info SET Total = 0, Balance = 0, Help = ", " WHERE TableID = ", ""])
  const UpdateTableBalanceSql := Sql(["UPDATE table_info SET Balance = ", " WHERE TableID = ", ""])

  const OrdersInsertHead := "INSERT INTO Order_info (TableID, ItemID, Destination, Status) VALUES "
  /** The row group `addOrders` writes once per item. */
  const OrderGroup := "(?, ?, ?, 0)"

  /** `ws.join(sep)`, including the empty list. */
  function JoinWith(ws: seq<string>, sep: string): string
    decreases |ws|
  {
    if ws == [] then "" else if |ws| == 1 then ws[0] else ws[0] + sep + JoinWith(ws[1..], sep)
  }

  /** The pieces after the first `(` of `n` row groups. */
  function GroupPieces(n: nat): (r: seq<string>)
    requires n >= 1
    ensures |r| == 3 * n
    decreases n
  {
    if n == 1 then [", ", ", ", ", 0)"] else [", ", ", ", ", 0), ("] + GroupPieces(n - 1)
  }

  /** The multi-row insert for `n` ordered items. */
  function InsertOrdersSql(n: nat): (q: Sql)
    ensures q.Placeholders() == 3 * n
  {
    if n == 0 then Sql([OrdersInsertHead]) else Sql([OrdersInsertHead + "("] + GroupPieces(n))
  }

  lemma JoinAppend(a: seq<string>, b: seq<string>, sep: char)
    requires |a| >= 1 && |b| >= 1
    ensures Join(a + b, sep) == Join(a, sep) + [sep] + Join(b, sep)
    decreases |a|
  {
    if |a| > 1 {
      assert (a + b)[1..] == a[1..] + b;
      JoinAppend(a[1..], b, sep);
    }
  }

  lemma JoinCons(w: string, ws: seq<string>, sep: char)
    requires |ws| >= 1
    ensures Join([w] + ws, sep) == w + [sep] + Join(ws, sep)
  {
    assert ([w] + ws)[1..] == ws;
  }

  lemma GroupText(x: string, tail: string)
    ensures (x + "(") + "?" + (", " + "?" + (", " + "?" + (", 0), " + tail))) == x + (OrderGroup + ", " + tail)
    ensures (x + "(") + "?" + (", " + "?" + (", " + "?" + ", 0)")) == x + OrderGroup
  {
  }

  lemma {:induction false} GroupPiecesText(x: string, n: nat)
    requires n >= 1
    ensures Join([x + "("] + GroupPieces(n), '?') == x + JoinWith(seq(n, _ => OrderGroup), ", ")
    decreases n
  {
    var t := GroupPieces(n);
    JoinCons(x + "(", t, '?');
    JoinCons(", ", t[1..], '?');
    assert t[1..][1..] == [t[2]] + t[3..];
    assert t[2..] == [t[2]] + t[3..];
    if n == 1 {
      assert Join([t[2]], '?') == ", 0)";
      GroupText(x, "");
    } else {
      var rest := GroupPieces(n - 1);
      var y := ", 0), ";
      assert t[2] == y + "(" && t[3..] == rest;
      JoinCons(t[2], t[3..], '?');
      GroupPiecesText(y, n - 1);
      var tail := JoinWith(seq(n - 1, _ => OrderGroup), ", ");
      assert seq(n, _ => OrderGroup)[1..] == seq(n - 1, _ => OrderGroup);
      GroupText(x, tail);
    }
  }

  /** The insert's text is the head followed by one `(?, ?, ?, 0)` group per item, joined by ", ". */
  lemma InsertOrdersText(n: nat)
    ensures InsertOrdersSql(n).Text() == OrdersInsertHead + JoinWith(seq(n, _ => OrderGroup), ", ")
    ensures InsertOrdersSql(n).Placeholders() == 3 * n
  {
    if n >= 1 {
      GroupPiecesText(OrdersInsertHead, n);
    }
  }

  // ---------------------------------------------------------------------------
  // Requests, plans and responses

  /** What the route does with a request before the database is involved. */
  datatype Plan =
    | Reject(status: int, message: string)   // answered with a JSON error body
    | Crash(error: string)                   // an exception escapes the handler
    | Run(query: Sql, values: seq<Value>)

  /** What the database answers to the planned statement. */
  datatype DbAnswer = DbError | DbRows(rows: seq<Row>)

  datatype Response = Response(status: int, body: Value) | Thrown(error: string)

  function ErrorBody(message: string): Value
  {
    Obj(map["error" := Str(message)])
  }

  const TableRequired := "Table number is required"
  const InvalidType := "Invalid type"
  const ServerError := "Internal Server Error"
  const TypeError := "TypeError"

  /** `!tableNumber` is false: the parameter is present and not empty. */
  predicate TableGiven(table: Option<string>)
  {
    table.Some? && table.value != ""
  }

  const GetKinds: set<string> := {"getDevices", "menuDestinations", "getOrders", "getTableInfo", "getMenu"}

  /** The statement a GET type selects. */
  function GetQuery(kind: string, filtered: bool): Option<Sql>
  {
    if kind == "getDevices" then Some(DevicesSql)
    else if kind == "menuDestinations" then Some(DestinationsSql)
    else if kind == "getOrders" then Some(OrdersSql(filtered))
    else if kind == "getTableInfo" then Some(BalanceSql)
    else if kind == "getMenu" then Some(MenuSql)
    else None
  }

  /** GET: validation, then the statement and its parameters. */
  function PlanGet(kind: Option<string>, table: Option<string>): (p: Plan)
    ensures kind == Some("getTableInfo") && !TableGiven(table) ==> p == Reject(400, TableRequired)
    ensures kind.None? || kind.value !in GetKinds ==> p == Reject(400, InvalidType)
    ensures p.Run? <==> kind.Some? && kind.value in GetKinds && (kind.value == "getTableInfo" ==> TableGiven(table))
    ensures !p.Crash?
    ensures p.Run? ==> p.values == if TableGiven(table) then [Str(table.value)] else []
  {
    if kind == Some("getTableInfo") && !TableGiven(table) then Reject(400, TableRequired)
    else if kind.None? then Reject(400, InvalidType)
    else match GetQuery(kind.value, TableGiven(table))
      case None => Reject(400, InvalidType)
      case Some(q) => Run(q, if TableGiven(table) then [Str(table.value)] else [])
  }

  /** Two different GET types never select the same statement. */
  lemma GetQueriesDistinct(k1: string, k2: string, t1: Option<string>, t2: Option<string>)
    requires PlanGet(Some(k1), t1).Run? && PlanGet(Some(k2), t2).Run? && k1 != k2
    ensures PlanGet(Some(k1), t1).query != PlanGet(Some(k2), t2).query
  {
  }

  /**
   * The order listing has its WHERE clause exactly when a table is given, and
   * the statements that take the table bind it; the others have no placeholder.
   */
  lemma GetPlaceholders(kind: string, table: Option<string>)
    requires PlanGet(Some(kind), table).Run?
    ensures var p := PlanGet(Some(kind), table);
      && (kind == "getOrders" ==>
            p.query.Text() == OrdersSelect + (if TableGiven(table) then " WHERE Order_info.TableID = ?" else ""))
      && (kind in {"getOrders", "getTableInfo"} ==> Bindings(p.query, p.values) == seq(|p.values|, i requires 0 <= i < |p.values| => Some(p.values[i])))
      && (kind !in {"getOrders", "getTableInfo"} ==> p.query.Placeholders() == 0)
  {
  }

  const StatusNames: seq<string> := ["New", "Preparing", "ReadyToDeliver", "Delivered"]

  /** The name of a stored order status; anything but the numbers 0 to 3 is "Unknown". */
  function TranslateStatus(status: Value): (r: string)
    ensures status.Num? && 0 <= status.n < |StatusNames| ==> r == StatusNames[status.n]
    ensures !(status.Num? && 0 <= status.n < |StatusNames|) ==> r == "Unknown"
  {
    match status
    case Num(n) =>
      if n == 0 then "New"
      else if n == 1 then "Preparing"
      else if n == 2 then "ReadyToDeliver"
      else if n == 3 then "Delivered"
      else "Unknown"
    case _ => "Unknown"
  }

  /** The stored code of a status name, the inverse of `TranslateStatus`. */
  function StatusCode(name: string): (r: Option<int>)
    ensures r.Some? <==> name in StatusNames
    ensures r.Some? ==> 0 <= r.value < |StatusNames| && StatusNames[r.value] == name
  {
    if name == "New" then Some(0)
    else if name == "Preparing" then Some(1)
    else if name == "ReadyToDeliver" then Some(2)
    else if name == "Delivered" then Some(3)
    else None
  }

  /** Translating a stored status and looking its name up again gives the code back, exactly for 0 to 3. */
  lemma TranslateStatusRoundTrip(status: Value)
    ensures StatusCode(TranslateStatus(status)).Some? <==> status.Num? && 0 <= status.n < 4
    ensures status.Num? && 0 <= status.n < 4 ==> StatusCode(TranslateStatus(status)) == Some(status.n)
  {
  }

  /** One row of the order listing as the API returns it. */
  function OrderOf(row: Row): Value
  {
    Obj(map[
      "id" := Field(row, "id"),
      "orderNumber" := Field(row, "id"),
      "tableNumber" := Field(row, "tableNumber"),
      "itemId" := Field(row, "itemId"),
      "itemName" := Field(row, "itemName"),
      "price" := Field(row, "price"),
      "status" := Str(TranslateStatus(Field(row, "Status"))),
      "area" := Field(row, "area")])
  }

  /** GET: the response for a request once the database has answered the planned statement. */
  function Get(kind: Option<string>, table: Option<string>, answer: DbAnswer): (r: Response)
    ensures PlanGet(kind, table).Reject? ==> r == Response(400, ErrorBody(PlanGet(kind, table).message))
    ensures PlanGet(kind, table).Run? && answer.DbError? ==> r == Response(500, ErrorBody(ServerError))
    ensures PlanGet(kind, table).Run? && answer.DbRows? ==> r.Response? && r.status == 200
    ensures r.Response? && r.status == 200 ==> PlanGet(kind, table).Run? && answer.DbRows?
    ensures PlanGet(kind, table).Run? && answer.DbRows? && kind.value == "getTableInfo" ==>
              r.body == if answer.rows == [] then Undefined else Obj(answer.rows[0])
  {
    var p := PlanGet(kind, table);
    if p.Reject? then Response(p.status, ErrorBody(p.message))
    else if answer.DbError? then Response(500, ErrorBody(ServerError))
    else
      var rows := answer.rows;
      if kind.value == "getOrders" then
        Response(200, Arr(seq(|rows|, i requires 0 <= i < |rows| => OrderOf(rows[i]))))
      else if kind.value == "getTableInfo" then
        Response(200, if rows == [] then Undefined else Obj(rows[0]))
      else
        Response(200, Arr(seq(|rows|, i requires 0 <= i < |rows| => Obj(rows[i]))))
  }

  /**
   * The order listing returns one order per row, with the row's id as both id
   * and order number and its stored status translated to a name.
   */
  lemma OrdersResponse(table: Option<string>, rows: seq<Row>)
    ensures var r := Get(Some("getOrders"), table, DbRows(rows));
      && r == Response(200, r.body) && r.body.Arr? && |r.body.items| == |rows|
      && forall i :: 0 <= i < |rows| ==>
           && r.body.items[i].Obj?
           && Field(r.body.items[i].fields, "orderNumber") == Field(rows[i], "id")
           && Field(r.body.items[i].fields, "id") == Field(rows[i], "id")
           && Field(r.body.items[i].fields, "status") == Str(TranslateStatus(Field(rows[i], "Status")))
           && Field(r.body.items[i].fields, "area") == Field(rows[i], "area")
  {
  }

  // ---------------------------------------------------------------------------
  // POST

  const PostKinds: set<string> :=
    {"addDevice", "deleteDevice", "updateDevice", "updateOrderStatus",
     "deleteOrders", "updateTableInfo", "updateTableBalance", "addOrders"}

  /** `newStatus === 'Delivered' ? 3 : newStatus`. */
  function StoredStatus(newStatus: Value): Value
  {
    if newStatus == Str("Delivered") then Num(3) else newStatus
  }

  /** `items.flatMap(item => [tableId, item.itemId, item.destination])`; a null item is a TypeError. */
  function ItemValues(tableId: Value, items: seq<Value>): (r: Option<seq<Value>>)
    ensures r.None? <==> exists i :: 0 <= i < |items| && (items[i].Null? || items[i].Undefined?)
    ensures r.Some? ==> |r.value| == 3 * |items|
    decreases |items|
  {
    if items == [] then Some([])
    else if items[0].Null? || items[0].Undefined? then None
    else
      match ItemValues(tableId, items[1..])
      case None =>
        assert forall i :: 1 <= i < |items| ==> items[i] == items[1..][i - 1];
        None
      case Some(rest) =>
        assert forall i :: 1 <= i < |items| ==> items[i] == items[1..][i - 1];
        Some([tableId, Prop(items[0], "itemId").value, Prop(items[0], "destination").value] + rest)
  }

  /** Item i contributes the table id, its item id and its destination, at 3i, 3i+1 and 3i+2. */
  lemma {:induction false} ItemValuesLayout(tableId: Value, items: seq<Value>, i: nat)
    requires ItemValues(tableId, items).Some? && i < |items|
    ensures var vs := ItemValues(tableId, items).value;
      && vs[3 * i] == tableId
      && Some(vs[3 * i + 1]) == Prop(items[i], "itemId")
      && Some(vs[3 * i + 2]) == Prop(items[i], "destination")
    decreases i
  {
    if i > 0 {
      var rest := ItemValues(tableId, items[1..]).value;
      ItemValuesLayout(tableId, items[1..], i - 1);
      assert items[1..][i - 1] == items[i];
      assert ItemValues(tableId, items).value[3 * i..] == rest[3 * (i - 1)..];
    }
  }

  /** `parseFloat(balance).toFixed(2)` for an integer or a string of digits; "NaN" otherwise. */
  function FormattedBalance(balance: Value): string
  {
    match balance
    case Num(n) => IntToString(n) + ".00"
    case Str(s) =>
      if s != [] && forall i :: 0 <= i < |s| ==> IsDigit(s[i]) then NatToString(ParseNat(s)) + ".00"
      else "NaN"
    case _ => "NaN"
  }

  /** The updateTableInfo values as the route writes them: four values for two placeholders. */
  function UpdateTableInfoAsWritten(body: Value): (p: Plan)
    ensures p.Run? <==> !(body.Null? || body.Undefined?)
  {
    match Destructure(body, ["tableId", "total", "balance", "help"])
    case None => Crash(TypeError)
    case Some(f) => Run(UpdateTableInfoSql, [f[1], Str(FormattedBalance(f[2])), f[2 + 1], f[0]])
  }

  /**
   * As written, the table id placeholder receives the formatted balance and
   * the help flag placeholder receives the total, so the reset never reaches
   * the table it names.
   */
  lemma UpdateTableInfoAsWrittenMisbinds(body: Value)
    requires body.Obj?
    ensures var p := UpdateTableInfoAsWritten(body);
      && p.Run? && p.query.Placeholders() == 2 && |p.values| == 4
      && Bindings(p.query, p.values) == [Some(Field(body.fields, "total")), Some(Str(FormattedBalance(Field(body.fields, "balance"))))]
  {
  }

  /** The reset the dashboard sends for table 7 updates the table whose id is "0.00". */
  lemma UpdateTableInfoAsWrittenExample()
    ensures var body := Obj(map["tableId" := Num(7), "total" := Num(0), "balance" := Num(0), "help" := Bool(false)]);
      Bindings(UpdateTableInfoAsWritten(body).query, UpdateTableInfoAsWritten(body).values)
        == [Some(Num(0)), Some(Str("0.00"))]
  {
    var body := Obj(map["tableId" := Num(7), "total" := Num(0), "balance" := Num(0), "help" := Bool(false)]);
    UpdateTableInfoAsWrittenMisbinds(body);
    assert FormattedBalance(Num(0)) == "0.00";
  }

  /** The corrected updateTableInfo values: the help flag, then the table id. */
  function UpdateTableInfoPlan(body: Value): (p: Plan)
    ensures p.Run? <==> !(body.Null? || body.Undefined?)
    ensures p.Run? ==> p.query == UpdateTableInfoSql
                        && Bindings(p.query, p.values) == [Prop(body, "help"), Prop(body, "tableId")]
  {
    match Destructure(body, ["tableId", "help"])
    case None => Crash(TypeError)
    case Some(f) => Run(UpdateTableInfoSql, [f[1], f[0]])
  }

  /** The statement of one POST type over the destructured body, as the route writes it. */
  function PostStatement(kind: string, body: Value): (p: Plan)
    requires kind in PostKinds
    ensures p.Crash? ==> body.Null? || body.Undefined? || kind == "addOrders"
    ensures !p.Reject?
  {
    if kind == "addOrders" then
      match Destructure(body, ["tableId", "items"])
      case None => Crash(TypeError)
      case Some(f) =>
        if !f[1].Arr? then Crash(TypeError)
        else match ItemValues(f[0], f[1].items)
          case None => Crash(TypeError)
          case Some(values) => Run(InsertOrdersSql(|f[1].items|), values)
    else if kind == "updateTableInfo" then UpdateTableInfoAsWritten(body)
    else
      var (q, keys) :=
        if kind == "addDevice" then (AddDeviceSql, ["tableId", "deviceId"])
        else if kind == "deleteDevice" then (DeleteDeviceSql, ["deviceId"])
        else if kind == "updateDevice" then (UpdateDeviceSql, ["newTableId", "deviceId"])
        else if kind == "updateOrderStatus" then (UpdateOrderStatusSql, ["newStatus", "orderId"])
        else if kind == "deleteOrders" then (DeleteOrdersSql, ["tableId"])
        else (UpdateTableBalanceSql, ["newBalance", "tableId"]);
      match Destructure(body, keys)
      case None => Crash(TypeError)
      case Some(f) =>
        if kind == "updateOrderStatus" then Run(q, [StoredStatus(f[0])] + f[1..]) else Run(q, f)
  }

  /** POST: validation, then the statement and its values. */
  function PlanPost(kind: Option<string>, table: Option<string>, body: Value): (p: Plan)
    ensures kind == Some("updateTableInfo") && !TableGiven(table) ==> p == Reject(400, TableRequired)
    ensures kind.None? || kind.value !in PostKinds ==> p == Reject(400, InvalidType)
    ensures p.Reject? ==> kind.None? || kind.value !in PostKinds || (kind.value == "updateTableInfo" && !TableGiven(table))
    ensures p.Crash? ==> kind.Some? && (body.Null? || body.Undefined? || kind.value == "addOrders")
  {
    if kind == Some("updateTableInfo") && !TableGiven(table) then Reject(400, TableRequired)
    else if kind.None? || kind.value !in PostKinds then Reject(400, InvalidType)
    else PostStatement(kind.value, body)
  }

  /**
   * Every statement the route runs receives exactly one value per
   * placeholder, in order, except updateTableInfo's, which receives four
   * values for two placeholders.
   */
  lemma PostBindsEveryPlaceholder(kind: Option<string>, table: Option<string>, body: Value)
    requires PlanPost(kind, table, body).Run?
    ensures var p := PlanPost(kind, table, body);
      && (p.query.Placeholders() == |p.values| <==> kind != Some("updateTableInfo"))
      && (kind != Some("updateTableInfo") ==>
            Bindings(p.query, p.values) == seq(|p.values|, i requires 0 <= i < |p.values| => Some(p.values[i])))
  {
  }

  /**
   * The route with updateTableInfo's values corrected to the help flag and
   * the table id: it validates, crashes and answers as the route does, and
   * differs only in the values of an accepted updateTableInfo.
   */
  function PlanPostCorrected(kind: Option<string>, table: Option<string>, body: Value): (p: Plan)
    ensures p.Reject? <==> PlanPost(kind, table, body).Reject?
    ensures p.Reject? ==> p == PlanPost(kind, table, body)
    ensures p.Crash? <==> PlanPost(kind, table, body).Crash?
    ensures p.Run? && kind == Some("updateTableInfo") ==>
              p.query == UpdateTableInfoSql && Bindings(p.query, p.values) == [Prop(body, "help"), Prop(body, "tableId")]
    ensures kind != Some("updateTableInfo") ==> p == PlanPost(kind, table, body)
  {
    if kind == Some("updateTableInfo") && TableGiven(table) then UpdateTableInfoPlan(body)
    else PlanPost(kind, table, body)
  }

  /** With the correction, every statement receives exactly one value per placeholder, in order. */
  lemma PostCorrectedBindsEveryPlaceholder(kind: Option<string>, table: Option<string>, body: Value)
    requires PlanPostCorrected(kind, table, body).Run?
    ensures var p := PlanPostCorrected(kind, table, body);
      p.query.Placeholders() == |p.values|
      && Bindings(p.query, p.values) == seq(|p.values|, i requires 0 <= i < |p.values| => Some(p.values[i]))
  {
  }

  /** Marking an order "Delivered" stores the code 3; any other status is stored as sent. */
  lemma UpdateOrderStatusStores(table: Option<string>, body: Value)
    requires body.Obj?
    ensures var p := PlanPost(Some("updateOrderStatus"), table, body);
      && p.Run? && p.query == UpdateOrderStatusSql
      && Bindings(p.query, p.values) == [Some(StoredStatus(Field(body.fields, "newStatus"))), Some(Field(body.fields, "orderId"))]
      && (Field(body.fields, "newStatus") == Str("Delivered") ==> p.values[0] == Num(3))
      && (Field(body.fields, "newStatus") != Str("Delivered") ==> p.values[0] == Field(body.fields, "newStatus"))
  {
  }

  /**
   * addOrders with an item list inserts one row group per item and binds, for
   * item i, the table id, the item id and the destination at 3i, 3i+1, 3i+2;
   * a missing list or a null item is a TypeError.
   */
  lemma AddOrdersPlan(table: Option<string>, body: Value)
    requires body.Obj?
    ensures var p := PlanPost(Some("addOrders"), table, body);
      var items := Field(body.fields, "items");
      && (p.Crash? <==> !items.Arr? || exists i :: 0 <= i < |items.items| && (items.items[i].Null? || items.items[i].Undefined?))
      && (p.Run? ==>
            && p.query.Text() == OrdersInsertHead + JoinWith(seq(|items.items|, _ => OrderGroup), ", ")
            && |p.values| == p.query.Placeholders() == 3 * |items.items|
            && forall i :: 0 <= i < |items.items| ==>
                 && p.values[3 * i] == Field(body.fields, "tableId")
                 && Some(p.values[3 * i + 1]) == Prop(items.items[i], "itemId")
                 && Some(p.values[3 * i + 2]) == Prop(items.items[i], "destination"))
  {
    var items := Field(body.fields, "items");
    if items.Arr? {
      InsertOrdersText(|items.items|);
      if ItemValues(Field(body.fields, "tableId"), items.items).Some? {
        forall i | 0 <= i < |items.items|
          ensures var vs := ItemValues(Field(body.fields, "tableId"), items.items).value;
            && vs[3 * i] == Field(body.fields, "tableId")
            && Some(vs[3 * i + 1]) == Prop(items.items[i], "itemId")
            && Some(vs[3 * i + 2]) == Prop(items.items[i], "destination")
        {
          ItemValuesLayout(Field(body.fields, "tableId"), items.items, i);
        }
      }
    }
  }

  /** POST: the response once the database has answered the planned statement. */
  function Post(kind: Option<string>, table: Option<string>, body: Value, answer: DbAnswer): (r: Response)
    ensures PlanPost(kind, table, body).Reject? ==> r == Response(400, ErrorBody(PlanPost(kind, table, body).message))
    ensures PlanPost(kind, table, body).Crash? ==> r.Thrown?
    ensures PlanPost(kind, table, body).Run? && answer.DbError? ==> r == Response(500, ErrorBody(ServerError))
    ensures r == Response(200, Obj(map["success" := Bool(true)])) <==> PlanPost(kind, table, body).Run? && answer.DbRows?
  {
    match PlanPost(kind, table, body)
    case Reject(status, message) => Response(status, ErrorBody(message))
    case Crash(error) => Thrown(error)
    case Run(_, _) =>
      if answer.DbError? then Response(500, ErrorBody(ServerError))
      else Response(200, Obj(map["success" := Bool(true)]))
  }

  /** A POST the dashboard sends: its `type`, its `table` parameter and its JSON body. */
  datatype PostRequest = PostRequest(kind: string, table: Option<string>, body: Value)

  function Send(request: PostRequest, answer: DbAnswer): Response
  {
    Post(Some(request.kind), request.table, request.body, answer)
  }

  /** `response.ok`: a status in the 200 range. */
  predicate Ok(r: Response)
  {
    r.Response? && 200 <= r.status < 300
  }
}
