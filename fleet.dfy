/**
 * The webhook server's device fleet: the `Device` objects, the registry they
 * add themselves to, the `/webhook` router and its four handlers, and the
 * start-up that gives every table its own screen graph.
 *
 * The outside world is the `Env` object: the promotion list shared by all
 * devices, the balance each device's table query answers, the text width of
 * the footer font, and the outbox of payloads sent to the mC-Connect cloud.
 * Callbacks run to completion in order, so `setScreen` with its balance query
 * and render is one step. The idle timer is a single slot per device holding
 * the timer's generation, its target and its delay; clearing it bumps the
 * generation, so a firing acts only when it carries the current generation.
 */
module Fleet {
  import opened Wrappers
  import opened Text
  import opened ScreenGraph
  import opened Render

  // ---------------------------------------------------------------------------
  // The outside world

  /** What `SELECT Balance FROM table_info WHERE DeviceID = ?` answers: an error or rows of balances in cents. */
  datatype BalanceQuery = BalanceError | BalanceRows(rows: seq<int>)

  /** The balance `updateBalance` stores: the first row's, or 0 on an error or when no row matches. */
  function BalanceFrom(q: BalanceQuery): (b: int)
    ensures q.BalanceError? || q.rows == [] ==> b == 0
    ensures q.BalanceRows? && q.rows != [] ==> b == q.rows[0]
  {
    if q.BalanceRows? && |q.rows| > 0 then q.rows[0] else 0
  }

  datatype Buzzer = Buzzer(onTime: int, offTime: int, repetitions: int)

  /**
   * The body `pushToConnect` sends to the update-image endpoint. `content` is
   * the device's canvas: `None` while nothing has been drawn on it.
   */
  datatype Payload = Payload(deviceIds: seq<string>, led: int, buzzer: Buzzer, content: Option<Frame>)

  const DefaultLed: int := 2
  const PushBuzzer: Buzzer := Buzzer(150, 250, 0)

  function PushPayload(deviceIds: seq<string>, content: Option<Frame>): Payload
  {
    Payload(deviceIds, DefaultLed, PushBuzzer, content)
  }

  class Env {
    /** The promotion list and rotation index every promotion screen shares. */
    const promos: Promotions
    /** The answer of the balance query, by device id; an id with no entry has no row. */
    var balances: map<string, BalanceQuery>
    /** Every payload pushed so far, oldest first. */
    var outbox: seq<Payload>
    /** Text width in the footer font. */
    const width: TextWidth

    constructor (promos: Promotions, balances: map<string, BalanceQuery>, width: TextWidth)
      ensures this.promos == promos && this.balances == balances && this.width == width
      ensures outbox == []
    {
      this.promos := promos;
      this.balances := balances;
      this.width := width;
      outbox := [];
    }

    ghost predicate Valid()
      reads this, promos
    {
      promos.Valid()
    }

    function BalanceOf(id: string): BalanceQuery
      reads this
    {
      if id in balances then balances[id] else BalanceRows([])
    }
  }

  // ---------------------------------------------------------------------------
  // Devices

  /** A pending idle timer: the generation that armed it, the screen it leads to and its delay. */
  datatype Timer = Timer(gen: nat, target: Screen, delayMs: int)

  class Device {
    const id: string
    var screen: Screen
    var active: bool
    var timeout: Option<Timer>
    /** Bumped by every `ClearTimeout`; only a timer of the current generation can fire. */
    var generation: nat
    /** The table's balance in cents. */
    var balance: int
    /** What the device's canvas holds; `None` before the first render. */
    var canvas: Option<Frame>

    /** A pending timer is the current one: it was armed after the last `ClearTimeout`. */
    ghost predicate Valid()
      reads this
    {
      timeout.Some? ==> timeout.value.gen == generation
    }

    /** A pending timer leads along the idle edge of the current screen, after its idle time. */
    ghost predicate OnIdleEdge()
      reads this, screen
    {
      timeout.Some? ==>
        && screen.idle == timeout.value.target
        && timeout.value.delayMs == screen.idleTime * 1000
    }

    /** A new device starts active, with no timer and balance 0, and adds itself to the registry. */
    constructor (id: string, screen: Screen, reg: Registry)
      modifies reg
      ensures this.id == id && this.screen == screen
      ensures active && timeout == None && generation == 0 && balance == 0 && canvas == None
      ensures Valid() && OnIdleEdge()
      ensures reg.devices == old(reg.devices) + [this]
      ensures reg.customerFacing == old(reg.customerFacing)
    {
      this.id := id;
      this.screen := screen;
      active := true;
      timeout := None;
      generation := 0;
      balance := 0;
      canvas := None;
      new;
      reg.AddDevice(this);
    }

    /** Cancels the pending timer, if any. */
    method ClearTimeout()
      modifies this
      ensures timeout == None && generation == old(generation) + 1
      ensures screen == old(screen) && active == old(active) && balance == old(balance) && canvas == old(canvas)
      ensures Valid() && OnIdleEdge()
    {
      timeout := None;
      generation := generation + 1;
    }

    method SetActive(active: bool)
      modifies this
      ensures this.active == active
      ensures screen == old(screen) && timeout == old(timeout) && generation == old(generation)
      ensures balance == old(balance) && canvas == old(canvas)
    {
      this.active := active;
    }

    /** Refreshes the balance from the table query; an error or a missing row gives 0. */
    method UpdateBalance(env: Env)
      modifies this
      ensures balance == BalanceFrom(env.BalanceOf(id))
      ensures screen == old(screen) && active == old(active) && timeout == old(timeout)
      ensures generation == old(generation) && canvas == old(canvas)
    {
      var q := env.BalanceOf(id);
      balance := BalanceFrom(q);
    }

    /** Sends the canvas to this device, and only to it, when the device is active. */
    method PushCanvasToDevice(env: Env)
      modifies env
      ensures env.outbox == old(env.outbox) + if active then [PushPayload([id], canvas)] else []
      ensures env.balances == old(env.balances)
    {
      if active {
        env.outbox := env.outbox + [PushPayload([id], canvas)];
      }
    }

    /**
     * The state `setScreen(s)` leaves behind: the new screen, a fresh timer
     * exactly when it has an idle edge, the refreshed balance, the frame drawn
     * with it, and one push when the device is active.
     */
    twostate predicate ScreenSet(s: Screen, env: Env)
      reads this, s, env, env.promos
    {
      && screen == s && active == old(active)
      && generation == old(generation) + 1
      && timeout == (if s.idle != null then Some(Timer(generation, s.idle, s.idleTime * 1000)) else None)
      && balance == BalanceFrom(env.BalanceOf(id))
      && old(env.promos.Valid())
      && canvas == Some(ViewFrame(s.view, balance, old(env.promos.items), old(env.promos.index)))
      && env.balances == old(env.balances)
      && env.outbox == old(env.outbox) + (if active then [PushPayload([id], canvas)] else [])
      && env.promos.items == old(env.promos.items)
      && env.promos.index == (if s.view.PromoView? then NextPromoIndex(env.promos.items, old(env.promos.index))
                              else old(env.promos.index))
    }

    method SetScreen(s: Screen, env: Env)
      requires env.Valid()
      modifies this, env, env.promos
      ensures ScreenSet(s, env)
      ensures Valid() && OnIdleEdge() && env.Valid()
    {
      screen := s;
      ClearTimeout();
      if screen.idle != null {
        timeout := Some(Timer(generation, screen.idle, screen.idleTime * 1000));
      }
      UpdateBalance(env);
      var frame := Generate(screen.view, balance, env.promos, env.width);
      canvas := Some(frame);
      PushCanvasToDevice(env);
    }

    /**
     * A press moves along the current screen's edge for the code when the
     * device is active; an unmapped code stays on the screen but still redraws
     * and pushes it. An inactive device ignores the press.
     */
    method ProcessButtonPress(code: int, env: Env)
      requires env.Valid()
      modifies this, env, env.promos
      ensures old(active) ==> ScreenSet(old(screen.ButtonPress(code)), env)
      ensures !old(active) ==> unchanged(this, env, env.promos)
      ensures old(Valid()) ==> Valid()
      ensures old(OnIdleEdge()) ==> OnIdleEdge()
      ensures env.Valid()
    {
      if active {
        SetScreen(screen.ButtonPress(code), env);
      }
    }

    /**
     * The idle timer of generation `gen` going off. A timer that was cleared
     * (another generation) does nothing. The current one is spent; if the
     * device is active it moves along the idle edge of the screen that armed it.
     */
    method FireTimer(gen: nat, env: Env)
      requires Valid() && OnIdleEdge() && env.Valid()
      modifies this, env, env.promos
      ensures old(timeout).None? || old(timeout).value.gen != gen ==> unchanged(this, env, env.promos)
      ensures old(timeout).Some? && old(timeout).value.gen == gen && !old(active) ==>
                timeout == None && generation == old(generation) && screen == old(screen)
                && balance == old(balance) && canvas == old(canvas) && unchanged(env, env.promos)
      ensures old(timeout).Some? && old(timeout).value.gen == gen && old(active) ==>
                ScreenSet(old(timeout).value.target, env)
      ensures Valid() && OnIdleEdge() && env.Valid()
    {
      if timeout.Some? && timeout.value.gen == gen {
        timeout := None;
        if active {
          var next := screen.idle;
          SetScreen(next, env);
        }
      }
    }
  }

  /** `Device.devices`, the static list every new device is pushed onto, and the server's customer-facing list. */
  class Registry {
    var devices: seq<Device>
    var customerFacing: seq<Device>

    constructor ()
      ensures devices == [] && customerFacing == []
    {
      devices := [];
      customerFacing := [];
    }

    ghost predicate Valid()
      reads this, devices
    {
      forall i :: 0 <= i < |devices| ==> devices[i].Valid()
    }

    method AddDevice(d: Device)
      modifies this
      ensures devices == old(devices) + [d] && customerFacing == old(customerFacing)
    {
      devices := devices + [d];
    }

    method AddCustomerFacing(d: Device)
      modifies this
      ensures customerFacing == old(customerFacing) + [d] && devices == old(devices)
    {
      customerFacing := customerFacing + [d];
    }

    /** `getDeviceById`: the first registered device with the id, or nothing. */
    function Find(id: string): (r: Option<Device>)
      reads this
      ensures r.None? <==> forall i :: 0 <= i < |devices| ==> devices[i].id != id
      ensures r.Some? ==> exists i :: 0 <= i < |devices| && devices[i] == r.value && r.value.id == id
                                      && forall j :: 0 <= j < i ==> devices[j].id != id
    {
      match FirstIndex(devices, id)
      case None => None
      case Some(i) => Some(devices[i])
    }
  }

  /** The position of the first device with the id. */
  function FirstIndex(ds: seq<Device>, id: string): (r: Option<nat>)
    ensures r.None? <==> forall i :: 0 <= i < |ds| ==> ds[i].id != id
    ensures r.Some? ==> r.value < |ds| && ds[r.value].id == id
                        && forall j :: 0 <= j < r.value ==> ds[j].id != id
    decreases |ds|
  {
    if ds == [] then None
    else if ds[0].id == id then Some(0)
    else match FirstIndex(ds[1..], id)
      case None => None
      case Some(i) => Some(i + 1)
  }

  // ---------------------------------------------------------------------------
  // The webhook

  /** The fields of a webhook event the handlers act on; the rest is only logged. */
  datatype Event = Event(title: string, id: string, action: int)

  datatype Handler = PushSwitch | ImageUpdated | AppDisconnection | BatteryCapacity

  /** The event title each handler answers to. */
  function TitleOf(h: Handler): string
  {
    match h
    case PushSwitch => "push-switch-on"
    case ImageUpdated => "image-updated"
    case AppDisconnection => "app-disconnection"
    case BatteryCapacity => "battery-capacity"
  }

  const KnownTitles: set<string> := {"push-switch-on", "image-updated", "app-disconnection", "battery-capacity"}

  /** The `switch` on the title: a handler for the four known titles, none for anything else. */
  function Route(title: string): (h: Option<Handler>)
    ensures h.None? <==> title !in KnownTitles
    ensures h.Some? ==> TitleOf(h.value) == title
  {
    if title == "push-switch-on" then Some(PushSwitch)
    else if title == "image-updated" then Some(ImageUpdated)
    else if title == "app-disconnection" then Some(AppDisconnection)
    else if title == "battery-capacity" then Some(BatteryCapacity)
    else None
  }

  /** Every handler is reached by its own title, and by no other. */
  lemma RouteTitleRoundTrip(h: Handler)
    ensures Route(TitleOf(h)) == Some(h)
  {
  }

  /**
   * The HTTP answer: a status and body, or an exception thrown inside the
   * handler (a device id with no device dereferences `undefined`).
   */
  datatype Outcome = Response(status: int, body: string) | Thrown(error: string)

  const Received: Outcome := Response(200, "Webhook received")
  const UnknownEvent: Outcome := Response(400, "Unknown event type")
  const NoSuchDevice: Outcome := Thrown("TypeError: cannot read properties of undefined")

  /** `handlePushSwitch`: press the button of the device when it is active. */
  method HandlePushSwitch(ev: Event, reg: Registry, env: Env) returns (out: Outcome)
    requires reg.Valid() && env.Valid()
    modifies reg.devices, env, env.promos
    ensures reg.Valid() && env.Valid()
    ensures old(reg.Find(ev.id)).None? ==> out == NoSuchDevice && unchanged(reg.devices, env, env.promos)
    ensures old(reg.Find(ev.id)).Some? ==>
              var d := old(reg.Find(ev.id)).value;
              && out == Received
              && (old(d.active) ==> d.ScreenSet(old(d.screen.ButtonPress(ev.action)), env))
              && (!old(d.active) ==> unchanged(d, env, env.promos))
              && forall e :: e in reg.devices && e != d ==> unchanged(e)
  {
    var found := reg.Find(ev.id);
    if found.None? {
      return NoSuchDevice;
    }
    var d := found.value;
    if d.active {
      d.ProcessButtonPress(ev.action, env);
    }
    out := Received;
  }

  /** `handleImageUpdated`: the device has shown its image and becomes active. */
  method HandleImageUpdated(ev: Event, reg: Registry, env: Env) returns (out: Outcome)
    requires reg.Valid()
    modifies reg.devices
    ensures reg.Valid()
    ensures old(reg.Find(ev.id)).None? ==> out == NoSuchDevice && unchanged(reg.devices)
    ensures old(reg.Find(ev.id)).Some? ==>
              var d := old(reg.Find(ev.id)).value;
              && out == Received && d.active
              && d.screen == old(d.screen) && d.timeout == old(d.timeout) && d.generation == old(d.generation)
              && d.balance == old(d.balance) && d.canvas == old(d.canvas)
              && forall e :: e in reg.devices && e != d ==> unchanged(e)
  {
    var found := reg.Find(ev.id);
    if found.None? {
      return NoSuchDevice;
    }
    found.value.SetActive(true);
    out := Received;
  }

  /** The `/webhook` route: dispatch on the title, answer 200 after a handler and 400 for an unknown title. */
  method Webhook(ev: Event, reg: Registry, env: Env) returns (out: Outcome)
    requires reg.Valid() && env.Valid()
    modifies reg.devices, env, env.promos
    ensures reg.Valid() && env.Valid()
    ensures Route(ev.title).None? ==> out == UnknownEvent && unchanged(reg.devices, env, env.promos)
    ensures Route(ev.title) in {Some(AppDisconnection), Some(BatteryCapacity)} ==>
              out == Received && unchanged(reg.devices, env, env.promos)
    ensures Route(ev.title) == Some(ImageUpdated) ==> unchanged(env, env.promos)
    ensures Route(ev.title) == Some(ImageUpdated) && old(reg.Find(ev.id)).Some? ==>
              var d := old(reg.Find(ev.id)).value;
              && out == Received && d.active
              && d.screen == old(d.screen) && d.timeout == old(d.timeout) && d.generation == old(d.generation)
              && d.balance == old(d.balance) && d.canvas == old(d.canvas)
              && forall e :: e in reg.devices && e != d ==> unchanged(e)
    ensures Route(ev.title) == Some(PushSwitch) && old(reg.Find(ev.id)).Some? ==>
              var d := old(reg.Find(ev.id)).value;
              && out == Received
              && (old(d.active) ==> d.ScreenSet(old(d.screen.ButtonPress(ev.action)), env))
              && (!old(d.active) ==> unchanged(d, env, env.promos))
              && forall e :: e in reg.devices && e != d ==> unchanged(e)
    ensures Route(ev.title) in {Some(PushSwitch), Some(ImageUpdated)} && old(reg.Find(ev.id)).None? ==>
              out == NoSuchDevice && unchanged(reg.devices, env, env.promos)
  {
    var handler := Route(ev.title);
    match handler {
      case None =>
        out := UnknownEvent;
      case Some(PushSwitch) =>
        out := HandlePushSwitch(ev, reg, env);
      case Some(ImageUpdated) =>
        out := HandleImageUpdated(ev, reg, env);
      case Some(AppDisconnection) =>
        out := Received;
      case Some(BatteryCapacity) =>
        out := Received;
    }
  }

  /**
   * Two image-updated events for the same device leave it as one does: active,
   * with everything else as before, and every other device and the outside
   * world untouched; both are answered 200 when the device exists.
   */
  method ImageUpdatedTwice(ev: Event, reg: Registry, env: Env) returns (first: Outcome, second: Outcome)
    requires Route(ev.title) == Some(ImageUpdated)
    requires reg.Valid() && env.Valid()
    modifies reg.devices, env, env.promos
    ensures first == second
    ensures unchanged(env, env.promos)
    ensures old(reg.Find(ev.id)).None? ==> first == NoSuchDevice && unchanged(reg.devices)
    ensures old(reg.Find(ev.id)).Some? ==>
              var d := old(reg.Find(ev.id)).value;
              && first == Received && d.active
              && d.screen == old(d.screen) && d.timeout == old(d.timeout) && d.generation == old(d.generation)
              && d.balance == old(d.balance) && d.canvas == old(d.canvas)
              && forall e :: e in reg.devices && e != d ==> unchanged(e)
  {
    first := Webhook(ev, reg, env);
    second := Webhook(ev, reg, env);
  }

  // ---------------------------------------------------------------------------
  // Start-up

  /** The address the menu and pay QR codes of a table encode. */
  function OrderUrl(tableId: int): string { "localhost:3001/order?table=" + IntToString(tableId) }
  function PayUrl(tableId: int): string { "localhost:3001/pay?table=" + IntToString(tableId) }

  const QrSize: int := 100

  /**
   * The registration callback for one table: build its four screens around
   * QR codes for its order and pay pages, create the device on the promotion
   * screen and list it as customer-facing.
   */
  method NewTableDevice(deviceId: string, tableId: int, reg: Registry) returns (d: Device, g: Graph)
    requires reg.Valid()
    modifies reg
    ensures fresh(d) && fresh(g.promo) && fresh(g.menu) && fresh(g.pay) && fresh(g.help)
    ensures reg.devices == old(reg.devices) + [d] && reg.customerFacing == old(reg.customerFacing) + [d]
    ensures Wired(g) && g.menu.view == MenuView(QrImage(OrderUrl(tableId), QrSize))
                     && g.pay.view == PayView(QrImage(PayUrl(tableId), QrSize))
    ensures d.id == deviceId && d.screen == g.promo && d.active && d.timeout == None && d.generation == 0
    ensures reg.Valid()
  {
    var menuQr := QrImage(OrderUrl(tableId), QrSize);
    var payQr := QrImage(PayUrl(tableId), QrSize);
    g := BuildGraph(menuQr, payQr);
    d := new Device(deviceId, g.promo, reg);
    reg.AddCustomerFacing(d);
  }

  /**
   * One row of `SELECT DeviceID, TableID FROM table_info`: register the
   * table's device, then press 5 so that it draws and pushes its first frame
   * and arms the promotion screen's 20-second timer.
   */
  method StartDevice(deviceId: string, tableId: int, reg: Registry, env: Env) returns (d: Device, g: Graph)
    requires reg.Valid() && env.Valid()
    modifies reg, env, env.promos
    ensures fresh(d) && d.id == deviceId
    ensures reg.devices == old(reg.devices) + [d] && reg.customerFacing == old(reg.customerFacing) + [d]
    ensures Wired(g) && g.menu.view == MenuView(QrImage(OrderUrl(tableId), QrSize))
                     && g.pay.view == PayView(QrImage(PayUrl(tableId), QrSize))
    ensures d.active && d.screen == g.promo && d.balance == BalanceFrom(env.BalanceOf(deviceId))
    ensures d.timeout == Some(Timer(1, g.promo, 20000))
    ensures d.canvas == Some(ViewFrame(PromoView, d.balance, old(env.promos.items), old(env.promos.index)))
    ensures env.outbox == old(env.outbox) + [PushPayload([deviceId], d.canvas)]
    ensures Started(d, deviceId, old(env.BalanceOf(deviceId)), old(env.promos.items), old(env.promos.index))
    ensures env.balances == old(env.balances) && env.promos.items == old(env.promos.items)
    ensures env.promos.index == NextPromoIndex(old(env.promos.items), old(env.promos.index))
    ensures reg.Valid() && env.Valid()
  {
    d, g := NewTableDevice(deviceId, tableId, reg);
    assert g.promo.ButtonPress(5) == g.promo;
    assert g.promo.idle == g.promo && g.promo.idleTime == 20;
    d.ProcessButtonPress(5, env);
    assert d.generation == 1 && g.promo.idle == g.promo;
  }

  /** What the start-up query answers: an error, or (DeviceID, TableID) rows. */
  datatype TableQuery = TableQueryError | TableRows(rows: seq<(string, int)>)

  /** The device `StartDevice` leaves for a row: started on a promotion screen that idles back to itself. */
  ghost predicate Started(d: Device, deviceId: string, answer: BalanceQuery, items: seq<Promotion>, index: nat)
    reads d, d.screen
  {
    && d.id == deviceId && d.active && d.generation == 1
    && d.screen.view == PromoView && d.screen.idle == d.screen && d.screen.idleTime == 20
    && d.timeout == Some(Timer(1, d.screen, 20000))
    && d.balance == BalanceFrom(answer)
    && (items == [] || index < |items|)
    && d.canvas == Some(ViewFrame(PromoView, d.balance, items, index))
  }

  /** One start-up row, as `StartFleet` relies on it: a new device, started, and its one push. */
  method StartRow(deviceId: string, tableId: int, reg: Registry, env: Env) returns (d: Device)
    requires reg.Valid() && env.Valid()
    modifies reg, env, env.promos
    ensures fresh(d)
    ensures Started(d, deviceId, old(env.BalanceOf(deviceId)), old(env.promos.items), old(env.promos.index))
    ensures reg.devices == old(reg.devices) + [d] && reg.customerFacing == old(reg.customerFacing) + [d]
    ensures env.outbox == old(env.outbox) + [PushPayload([deviceId], d.canvas)]
    ensures env.balances == old(env.balances) && env.promos.items == old(env.promos.items)
    ensures env.promos.index == NextPromoIndex(old(env.promos.items), old(env.promos.index))
    ensures reg.Valid() && env.Valid()
  {
    var g;
    d, g := StartDevice(deviceId, tableId, reg, env);
  }

  /**
   * Starts a device for every row, in row order; a failed query starts none.
   * Each row gets its own new device, started on its promotion screen with
   * the rotation index the renders before it left, and pushes one frame.
   */
  method StartFleet(q: TableQuery, reg: Registry, env: Env) returns (added: seq<Device>)
    requires reg.Valid() && env.Valid()
    modifies reg, env, env.promos
    ensures reg.Valid() && env.Valid()
    ensures q.TableQueryError? ==> added == [] && unchanged(env, env.promos)
    ensures q.TableRows? ==> |added| == |q.rows|
    ensures forall i :: 0 <= i < |added| ==> fresh(added[i])
    ensures forall i, j :: 0 <= i < j < |added| ==> added[i] != added[j]
    ensures forall i {:trigger added[i]} :: 0 <= i < |added| ==>
              Started(added[i], q.rows[i].0, env.BalanceOf(q.rows[i].0), old(env.promos.items),
                      Iterate(old(env.promos.items), old(env.promos.index), i))
    ensures |env.outbox| == |old(env.outbox)| + |added| && env.outbox[..|old(env.outbox)|] == old(env.outbox)
    ensures forall i :: 0 <= i < |added| ==> env.outbox[|old(env.outbox)| + i] == PushPayload([q.rows[i].0], added[i].canvas)
    ensures env.balances == old(env.balances) && env.promos.items == old(env.promos.items)
    ensures env.promos.index == Iterate(old(env.promos.items), old(env.promos.index), |added|)
    ensures reg.devices == old(reg.devices) + added
    ensures reg.customerFacing == old(reg.customerFacing) + added
  {
    added := [];
    if q.TableQueryError? {
      return;
    }
    var i := 0;
    while i < |q.rows|
      invariant 0 <= i <= |q.rows| && |added| == i
      invariant reg.Valid() && env.Valid()
      invariant forall k :: 0 <= k < i ==> fresh(added[k])
      invariant forall k, l :: 0 <= k < l < i ==> added[k] != added[l]
      invariant env.balances == old(env.balances) && env.promos.items == old(env.promos.items)
      invariant env.promos.index == Iterate(old(env.promos.items), old(env.promos.index), i)
      invariant forall k {:trigger added[k]} :: 0 <= k < i ==>
                  Started(added[k], q.rows[k].0, old(env.BalanceOf(q.rows[k].0)), old(env.promos.items),
                          Iterate(old(env.promos.items), old(env.promos.index), k))
      invariant |env.outbox| == |old(env.outbox)| + i && env.outbox[..|old(env.outbox)|] == old(env.outbox)
      invariant forall k :: 0 <= k < i ==> env.outbox[|old(env.outbox)| + k] == PushPayload([q.rows[k].0], added[k].canvas)
      invariant reg.devices == old(reg.devices) + added
      invariant reg.customerFacing == old(reg.customerFacing) + added
    {
      ghost var prev := added;
      var d := StartRow(q.rows[i].0, q.rows[i].1, reg, env);
      added := added + [d];
      forall k {:trigger added[k]} | 0 <= k < i + 1
        ensures Started(added[k], q.rows[k].0, old(env.BalanceOf(q.rows[k].0)), old(env.promos.items),
                        Iterate(old(env.promos.items), old(env.promos.index), k))
      {
        if k < i {
          assert added[k] == prev[k];
        }
      }
      i := i + 1;
    }
  }
}
