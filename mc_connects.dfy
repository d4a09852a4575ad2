/**
 * The device table of the dashboard: the listing turned into table rows, the
 * sort a click on a column header requests, the comparator and the sorted
 * copy it produces, and the add, edit and delete dialogs with the requests
 * they send to the data route.
 */
module McConnects {
  import opened Wrappers
  import opened Text
  import DataApi

  /** A row of the device listing: `TableID` and `DeviceID` of `table_info`. */
  datatype DeviceRow = DeviceRow(tableId: int, deviceId: string)

  /** A row of the table; battery, screen and status are fixed placeholders. */
  datatype Device = Device(deviceId: string, table: int, battery: int, screen: string, status: string)

  datatype SortKey = DeviceIdKey | TableKey | BatteryKey
  datatype Direction = Asc | Desc
  datatype SortConfig = SortConfig(key: SortKey, direction: Direction)

  /** The listing as the page shows it: one device per row, in listing order. */
  function FormattedDevices(rows: seq<DeviceRow>): (r: seq<Device>)
    ensures |r| == |rows|
    ensures forall i :: 0 <= i < |rows| ==>
              r[i] == Device(rows[i].deviceId, rows[i].tableId, 100, "QR Menu", "Online")
  {
    seq(|rows|, i requires 0 <= i < |rows| => Device(rows[i].deviceId, rows[i].tableId, 100, "QR Menu", "Online"))
  }

  // ---------------------------------------------------------------------------
  // The comparator

  /** JavaScript's `<` on two strings: the first differing character decides, and a proper prefix is smaller. */
  predicate StringLess(a: string, b: string)
    decreases |a|
  {
    if a == [] then b != []
    else if b == [] then false
    else if a[0] != b[0] then a[0] < b[0]
    else StringLess(a[1..], b[1..])
  }

  /** Of two strings, exactly one is smaller, or they are equal. */
  lemma {:induction false} StringLessTrichotomy(a: string, b: string)
    ensures !(StringLess(a, b) && StringLess(b, a))
    ensures StringLess(a, b) || StringLess(b, a) || a == b
    ensures StringLess(a, b) ==> a != b
    decreases |a|
  {
    if a != [] && b != [] && a[0] == b[0] {
      StringLessTrichotomy(a[1..], b[1..]);
      if a[1..] == b[1..] {
        assert a == [a[0]] + a[1..] && b == [b[0]] + b[1..];
      }
    }
  }

  /** JavaScript's `<` on strings is transitive. */
  lemma {:induction false} StringLessTransitive(a: string, b: string, c: string)
    requires StringLess(a, b) && StringLess(b, c)
    ensures StringLess(a, c)
    decreases |a|
  {
    if a != [] && a[0] == b[0] && b[0] == c[0] {
      StringLessTransitive(a[1..], b[1..], c[1..]);
    }
  }

  /** `a[key] < b[key]`. */
  predicate KeyLess(key: SortKey, a: Device, b: Device)
  {
    match key
    case DeviceIdKey => StringLess(a.deviceId, b.deviceId)
    case TableKey => a.table < b.table
    case BatteryKey => a.battery < b.battery
  }

  /** `a[key] === b[key]`. */
  predicate SameKey(key: SortKey, a: Device, b: Device)
  {
    match key
    case DeviceIdKey => a.deviceId == b.deviceId
    case TableKey => a.table == b.table
    case BatteryKey => a.battery == b.battery
  }

  /** On one key, exactly one device is smaller, or the two share the key. */
  lemma KeyTrichotomy(key: SortKey, a: Device, b: Device)
    ensures !(KeyLess(key, a, b) && KeyLess(key, b, a))
    ensures KeyLess(key, a, b) || KeyLess(key, b, a) || SameKey(key, a, b)
    ensures SameKey(key, a, b) ==> !KeyLess(key, a, b)
  {
    if key.DeviceIdKey? {
      StringLessTrichotomy(a.deviceId, b.deviceId);
    }
  }

  /**
   * The comparator passed to `sort`: 0 without a sort, otherwise -1, 0 or 1
   * as the key orders the two devices, turned round for a descending sort.
   */
  function Compare(config: Option<SortConfig>, a: Device, b: Device): (r: int)
    ensures -1 <= r <= 1
    ensures config.None? ==> r == 0
    ensures config.Some? ==> (r == 0 <==> SameKey(config.value.key, a, b))
    ensures config.Some? && config.value.direction == Asc ==> (r < 0 <==> KeyLess(config.value.key, a, b))
    ensures config.Some? && config.value.direction == Desc ==> (r < 0 <==> KeyLess(config.value.key, b, a))
  {
    if config.None? then 0
    else
      var key := config.value.key;
      KeyTrichotomy(key, a, b);
      if KeyLess(key, a, b) then (if config.value.direction == Asc then -1 else 1)
      else if KeyLess(key, b, a) then (if config.value.direction == Asc then 1 else -1)
      else 0
  }

  /** Descending order is ascending order negated, on the same key. */
  lemma CompareDescNegatesAsc(key: SortKey, a: Device, b: Device)
    ensures Compare(Some(SortConfig(key, Desc)), a, b) == -Compare(Some(SortConfig(key, Asc)), a, b)
  {
  }

  /** Swapping the two devices negates the comparator. */
  lemma CompareAntisymmetric(config: Option<SortConfig>, a: Device, b: Device)
    ensures Compare(config, b, a) == -Compare(config, a, b)
  {
    if config.Some? {
      KeyTrichotomy(config.value.key, a, b);
    }
  }

  /** A device that is not after a second one, which is not after a third, is not after the third. */
  lemma CompareTransitive(config: Option<SortConfig>, a: Device, b: Device, c: Device)
    requires Compare(config, a, b) <= 0 && Compare(config, b, c) <= 0
    ensures Compare(config, a, c) <= 0
  {
    if config.Some? {
      var key := config.value.key;
      KeyTrichotomy(key, a, b);
      KeyTrichotomy(key, b, c);
      KeyTrichotomy(key, a, c);
      if key.DeviceIdKey? {
        var x, y, z := a.deviceId, b.deviceId, c.deviceId;
        if StringLess(x, y) && StringLess(y, z) {
          StringLessTransitive(x, y, z);
        } else if StringLess(y, x) && StringLess(z, y) {
          StringLessTransitive(z, y, x);
        }
      }
    }
  }

  // ---------------------------------------------------------------------------
  // The sorted copy

  /** No device is placed after one the comparator puts before it. */
  predicate Sorted(config: Option<SortConfig>, s: seq<Device>)
  {
    forall i :: 0 < i < |s| ==> Compare(config, s[i - 1], s[i]) <= 0
  }

  /** In a sorted list no device comes after any device placed later, not only after its neighbour. */
  lemma {:induction false} SortedPairwise(config: Option<SortConfig>, s: seq<Device>)
    requires Sorted(config, s)
    ensures forall i, j :: 0 <= i < j < |s| ==> Compare(config, s[i], s[j]) <= 0
  {
    forall i, j | 0 <= i < j < |s|
      ensures Compare(config, s[i], s[j]) <= 0
    {
      var k := i + 1;
      while k < j
        invariant i < k <= j
        invariant Compare(config, s[i], s[k]) <= 0
      {
        CompareTransitive(config, s[i], s[k], s[k + 1]);
        k := k + 1;
      }
    }
  }

  /** Inserts `x` into a sorted list after every device it does not come before. */
  function Insert(config: Option<SortConfig>, x: Device, s: seq<Device>): (r: seq<Device>)
    ensures multiset(r) == multiset(s) + multiset{x}
    ensures |r| == |s| + 1
    ensures r[0] == x || (s != [] && r[0] == s[0])
    ensures Sorted(config, s) ==> Sorted(config, r)
    decreases |s|
  {
    if s == [] then [x]
    else if Compare(config, s[0], x) > 0 then
      CompareAntisymmetric(config, s[0], x);
      [x] + s
    else
      var rest := Insert(config, x, s[1..]);
      assert s == [s[0]] + s[1..];
      [s[0]] + rest
  }

  /**
   * `[...devices].sort(comparator)`: a new, sorted list holding the same
   * devices. Each device is inserted after those it ties with, so ties keep
   * their listing order, as the language's stable sort keeps them.
   */
  function SortedDevices(config: Option<SortConfig>, devices: seq<Device>): (r: seq<Device>)
    ensures multiset(r) == multiset(devices)
    ensures |r| == |devices|
    ensures Sorted(config, r)
    decreases |devices|
  {
    if devices == [] then []
    else
      var n := |devices| - 1;
      assert devices == devices[..n] + [devices[n]];
      Insert(config, devices[n], SortedDevices(config, devices[..n]))
  }

  /** With no sort requested, inserting puts the device last. */
  lemma {:induction false} InsertUnsorted(x: Device, s: seq<Device>)
    ensures Insert(None, x, s) == s + [x]
    decreases |s|
  {
    if s != [] {
      InsertUnsorted(x, s[1..]);
      assert s == [s[0]] + s[1..];
    }
  }

  /** With no sort requested, the table shows the devices in listing order. */
  lemma {:induction false} UnsortedKeepsOrder(devices: seq<Device>)
    ensures SortedDevices(None, devices) == devices
    decreases |devices|
  {
    if devices != [] {
      var n := |devices| - 1;
      UnsortedKeepsOrder(devices[..n]);
      InsertUnsorted(devices[n], devices[..n]);
      assert devices == devices[..n] + [devices[n]];
    }
  }

  // ---------------------------------------------------------------------------
  // Column headers

  /** A click on a column header: descending only when the same column is sorted ascending, ascending otherwise. */
  function RequestSort(config: Option<SortConfig>, key: SortKey): (r: SortConfig)
    ensures r.key == key
    ensures r.direction == Desc <==> config == Some(SortConfig(key, Asc))
  {
    if config.Some? && config.value.key == key && config.value.direction == Asc then SortConfig(key, Desc)
    else SortConfig(key, Asc)
  }

  /** Clicking the same header again turns the order round, and every device pair's comparison with it. */
  lemma RequestSortAlternates(config: Option<SortConfig>, key: SortKey, a: Device, b: Device)
    ensures var first := RequestSort(config, key);
      var second := RequestSort(Some(first), key);
      && second.key == key && second.direction != first.direction
      && Compare(Some(second), a, b) == -Compare(Some(first), a, b)
  {
    CompareDescNegatesAsc(key, a, b);
  }

  // ---------------------------------------------------------------------------
  // Page state and dialogs

  datatype DevicesPage = DevicesPage(
    devices: seq<Device>,
    sortConfig: Option<SortConfig>,
    selectedDevice: Option<Device>,
    isEditDialogOpen: bool,
    editTableNumber: int,
    isAddDialogOpen: bool,
    newDeviceId: string,
    newTableNumber: int)

  function InitialPage(): DevicesPage
  {
    DevicesPage([], None, None, false, 0, false, "", 0)
  }

  /** What the table shows: the sorted copy; the page's own list stays as listed. */
  function Shown(page: DevicesPage): (r: seq<Device>)
    ensures multiset(r) == multiset(page.devices)
    ensures Sorted(page.sortConfig, r)
  {
    SortedDevices(page.sortConfig, page.devices)
  }

  /** Whether the Add Device button is enabled: a non-blank id and a positive table number. */
  predicate AddEnabled(page: DevicesPage)
  {
    !(Trim(page.newDeviceId) == "" || page.newTableNumber <= 0)
  }

  /** The button is enabled exactly when the id has a character other than white space and the table number is positive. */
  lemma AddEnabledIff(page: DevicesPage)
    ensures AddEnabled(page) <==>
              (exists i :: 0 <= i < |page.newDeviceId| && !IsJsSpace(page.newDeviceId[i])) && page.newTableNumber > 0
  {
    TrimEmptyIffAllSpace(page.newDeviceId);
  }

  /** The Add button: opens the dialog and proposes the next table number. */
  function OpenAdd(page: DevicesPage): (r: DevicesPage)
    ensures r.isAddDialogOpen && r.newTableNumber == |page.devices| + 1
    ensures r.(isAddDialogOpen := page.isAddDialogOpen, newTableNumber := page.newTableNumber) == page
  {
    page.(isAddDialogOpen := true, newTableNumber := |page.devices| + 1)
  }

  /** The request Add Device sends. */
  function AddRequest(page: DevicesPage): DataApi.PostRequest
  {
    DataApi.PostRequest("addDevice", None,
      DataApi.Obj(map["tableId" := DataApi.Num(page.newTableNumber), "deviceId" := DataApi.Str(page.newDeviceId)]))
  }

  /** The data route inserts the entered table number and id, and answers ok exactly when the database accepts. */
  lemma AddRequestStored(page: DevicesPage, answer: DataApi.DbAnswer)
    ensures var r := AddRequest(page);
      var p := DataApi.PlanPost(Some(r.kind), r.table, r.body);
      && p.Run? && p.query == DataApi.AddDeviceSql
      && DataApi.Bindings(p.query, p.values) == [Some(DataApi.Num(page.newTableNumber)), Some(DataApi.Str(page.newDeviceId))]
      && (DataApi.Ok(DataApi.Send(r, answer)) <==> answer.DbRows?)
  {
  }

  /**
   * After Add Device: the list is reloaded when the response was ok, the
   * dialog is closed, the id cleared and the table number set to one more
   * than the number of devices the page held when the button was pressed.
   */
  function HandleAdd(page: DevicesPage, ok: bool, listing: seq<DeviceRow>): (r: DevicesPage)
    ensures !r.isAddDialogOpen && r.newDeviceId == "" && r.newTableNumber == |page.devices| + 1
    ensures r.devices == if ok then FormattedDevices(listing) else page.devices
    ensures r.(devices := page.devices, isAddDialogOpen := page.isAddDialogOpen,
               newDeviceId := page.newDeviceId, newTableNumber := page.newTableNumber) == page
  {
    page.(devices := if ok then FormattedDevices(listing) else page.devices,
          isAddDialogOpen := false, newDeviceId := "", newTableNumber := |page.devices| + 1)
  }

  /** After an add the button stays disabled until an id is typed again. */
  lemma AddDisabledAfterAdd(page: DevicesPage, ok: bool, listing: seq<DeviceRow>)
    ensures !AddEnabled(HandleAdd(page, ok, listing))
  {
    TrimEmptyIffAllSpace("");
  }

  /** The Edit button of a row: selects the device and opens the dialog on its table number. */
  function EditClick(page: DevicesPage, device: Device): (r: DevicesPage)
    ensures r.selectedDevice == Some(device) && r.editTableNumber == device.table && r.isEditDialogOpen
    ensures r.(selectedDevice := page.selectedDevice, editTableNumber := page.editTableNumber,
               isEditDialogOpen := page.isEditDialogOpen) == page
  {
    page.(selectedDevice := Some(device), editTableNumber := device.table, isEditDialogOpen := true)
  }

  /** The request Delete Device sends, when a device is selected. */
  function DeleteRequest(page: DevicesPage): Option<DataApi.PostRequest>
  {
    if page.selectedDevice.None? then None
    else Some(DataApi.PostRequest("deleteDevice", None,
      DataApi.Obj(map["deviceId" := DataApi.Str(page.selectedDevice.value.deviceId)])))
  }

  /** The request Save Changes sends, when a device is selected. */
  function SaveRequest(page: DevicesPage): Option<DataApi.PostRequest>
  {
    if page.selectedDevice.None? then None
    else Some(DataApi.PostRequest("updateDevice", None,
      DataApi.Obj(map["deviceId" := DataApi.Str(page.selectedDevice.value.deviceId),
                      "newTableId" := DataApi.Num(page.editTableNumber)])))
  }

  /** Delete removes the selected device's row; Save moves it to the edited table number. */
  lemma EditRequestsStored(page: DevicesPage)
    requires page.selectedDevice.Some?
    ensures var r := DeleteRequest(page).value;
      var p := DataApi.PlanPost(Some(r.kind), r.table, r.body);
      p.Run? && p.query == DataApi.DeleteDeviceSql
      && DataApi.Bindings(p.query, p.values) == [Some(DataApi.Str(page.selectedDevice.value.deviceId))]
    ensures var r := SaveRequest(page).value;
      var p := DataApi.PlanPost(Some(r.kind), r.table, r.body);
      p.Run? && p.query == DataApi.UpdateDeviceSql
      && DataApi.Bindings(p.query, p.values)
         == [Some(DataApi.Num(page.editTableNumber)), Some(DataApi.Str(page.selectedDevice.value.deviceId))]
  {
  }

  /**
   * After Delete Device or Save Changes, whether or not a device was
   * selected: the list is reloaded when a request was sent and answered ok,
   * and the dialog is closed with nothing selected.
   */
  function CloseEdit(page: DevicesPage, ok: bool, listing: seq<DeviceRow>): (r: DevicesPage)
    ensures !r.isEditDialogOpen && r.selectedDevice.None?
    ensures r.devices == if page.selectedDevice.Some? && ok then FormattedDevices(listing) else page.devices
    ensures r.(devices := page.devices, isEditDialogOpen := page.isEditDialogOpen,
               selectedDevice := page.selectedDevice) == page
  {
    page.(devices := if page.selectedDevice.Some? && ok then FormattedDevices(listing) else page.devices,
          isEditDialogOpen := false, selectedDevice := None)
  }
}
