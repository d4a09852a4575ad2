/**
 * The screens of an mC-Connect table device and the edges between them.
 *
 * A `Screen` is an object: it is created with some of its edges and the
 * remaining edges are wired afterwards with `SetSingle`, `SetHold` and
 * `SetIdle`, which is how a screen can point at itself. Each device gets its
 * own four screens (promotion, menu, pay, help); `BuildGraph` performs that
 * wiring and `Wired` states its result. `NextPage` is the transition table
 * written out by hand, and `StepMatchesTable` / `WalkMatchesTable` prove that
 * the object graph follows it.
 */
module ScreenGraph {
  import opened Wrappers

  /** An opaque image produced by the QR encoder for a value at a pixel size. */
  datatype Image = QrImage(value: string, size: int)

  /** The drawing routine a screen's generate function runs, with the QR image it closes over. */
  datatype View = PromoView | MenuView(qr: Image) | PayView(qr: Image) | HelpView

  /** Button codes reported by the device: a short press and a long (hold) press. */
  const SinglePressCode: int := 1
  const LongPressCode: int := 129

  class Screen {
    const view: View
    var singlePress: Screen?
    var longPress: Screen?
    var idle: Screen?
    /** Seconds of inactivity before the idle edge is taken. */
    const idleTime: int

    constructor (view: View, singlePress: Screen?, longPress: Screen?, idle: Screen?, idleTime: int)
      ensures this.view == view && this.idleTime == idleTime
      ensures this.singlePress == singlePress && this.longPress == longPress && this.idle == idle
    {
      this.view := view;
      this.singlePress := singlePress;
      this.longPress := longPress;
      this.idle := idle;
      this.idleTime := idleTime;
    }

    method SetSingle(screen: Screen?)
      modifies this
      ensures singlePress == screen && longPress == old(longPress) && idle == old(idle)
    {
      singlePress := screen;
    }

    method SetHold(screen: Screen?)
      modifies this
      ensures longPress == screen && singlePress == old(singlePress) && idle == old(idle)
    {
      longPress := screen;
    }

    method SetIdle(screen: Screen?)
      modifies this
      ensures idle == screen && singlePress == old(singlePress) && longPress == old(longPress)
    {
      idle := screen;
    }

    /**
     * The screen a button code leads to: a short press follows `singlePress`
     * and a long press `longPress` when that edge is set; every other code,
     * and a press whose edge is missing, stays on this screen.
     */
    function ButtonPress(code: int): (r: Screen)
      reads this
      ensures code == SinglePressCode && singlePress != null ==> r == singlePress
      ensures code == LongPressCode && longPress != null ==> r == longPress
      ensures ((code == SinglePressCode ==> singlePress == null)
               && (code == LongPressCode ==> longPress == null)) ==> r == this
    {
      if code == SinglePressCode && singlePress != null then singlePress
      else if code == LongPressCode && longPress != null then longPress
      else this
    }
  }

  /** The four screens built for one device. */
  datatype Graph = Graph(promo: Screen, menu: Screen, pay: Screen, help: Screen) {
    function Screens(): set<Screen> { {promo, menu, pay, help} }
  }

  /** Promotion, menu, pay and help screens wired as a device's graph is. */
  ghost predicate Wired(g: Graph)
    reads g.Screens()
  {
    && g.promo != g.menu && g.promo != g.pay && g.promo != g.help
    && g.menu != g.pay && g.menu != g.help && g.pay != g.help
    && g.promo.view == PromoView && g.menu.view.MenuView? && g.pay.view.PayView? && g.help.view == HelpView
    // promotion: press -> menu, idle -> itself after 20 s
    && g.promo.singlePress == g.menu && g.promo.longPress == null && g.promo.idle == g.promo
    && g.promo.idleTime == 20
    // menu: press -> pay, hold -> help, idle -> promotion after 40 s
    && g.menu.singlePress == g.pay && g.menu.longPress == g.help && g.menu.idle == g.promo
    && g.menu.idleTime == 40
    // pay: press -> menu, hold -> help, idle -> promotion after 40 s
    && g.pay.singlePress == g.menu && g.pay.longPress == g.help && g.pay.idle == g.promo
    && g.pay.idleTime == 40
    // help: hold -> menu, no idle edge
    && g.help.singlePress == null && g.help.longPress == g.menu && g.help.idle == null
    && g.help.idleTime == 0
  }

  /** Creates and wires the four screens of one device, as its registration callback does. */
  method BuildGraph(menuQr: Image, payQr: Image) returns (g: Graph)
    ensures Wired(g)
    ensures fresh(g.promo) && fresh(g.menu) && fresh(g.pay) && fresh(g.help)
    ensures g.menu.view == MenuView(menuQr) && g.pay.view == PayView(payQr)
  {
    var promoScreen := new Screen(PromoView, null, null, null, 20);
    var menuScreen := new Screen(MenuView(menuQr), null, null, promoScreen, 40);
    var payScreen := new Screen(PayView(payQr), null, null, promoScreen, 40);
    var helpScreen := new Screen(HelpView, null, null, null, 0);

    promoScreen.SetSingle(menuScreen);
    promoScreen.SetIdle(promoScreen);
    menuScreen.SetSingle(payScreen);
    menuScreen.SetHold(helpScreen);
    payScreen.SetSingle(menuScreen);
    payScreen.SetHold(helpScreen);
    helpScreen.SetHold(menuScreen);

    g := Graph(promoScreen, menuScreen, payScreen, helpScreen);
  }

  // ---------------------------------------------------------------------------
  // The transition table written out by hand

  datatype Page = PromoPage | MenuPage | PayPage | HelpPage

  function NextPage(p: Page, code: int): Page
  {
    match p
    case PromoPage => if code == SinglePressCode then MenuPage else PromoPage
    case MenuPage =>
      if code == SinglePressCode then PayPage
      else if code == LongPressCode then HelpPage
      else MenuPage
    case PayPage =>
      if code == SinglePressCode then MenuPage
      else if code == LongPressCode then HelpPage
      else PayPage
    case HelpPage => if code == LongPressCode then MenuPage else HelpPage
  }

  /** Where the idle timer of each page leads, and after how many seconds. */
  function IdlePage(p: Page): Option<(Page, int)>
  {
    match p
    case PromoPage => Some((PromoPage, 20))
    case MenuPage => Some((PromoPage, 40))
    case PayPage => Some((PromoPage, 40))
    case HelpPage => None
  }

  function PageWalk(p: Page, codes: seq<int>): Page
    decreases |codes|
  {
    if codes == [] then p else PageWalk(NextPage(p, codes[0]), codes[1..])
  }

  function PageOf(g: Graph, s: Screen): Page
    requires s in g.Screens()
  {
    if s == g.promo then PromoPage
    else if s == g.menu then MenuPage
    else if s == g.pay then PayPage
    else HelpPage
  }

  function ScreenOf(g: Graph, p: Page): Screen
  {
    match p
    case PromoPage => g.promo
    case MenuPage => g.menu
    case PayPage => g.pay
    case HelpPage => g.help
  }

  /** Pressing a button on a wired screen moves exactly as the hand table says. */
  lemma StepMatchesTable(g: Graph, s: Screen, code: int)
    requires Wired(g) && s in g.Screens()
    ensures s.ButtonPress(code) == ScreenOf(g, NextPage(PageOf(g, s), code))
  {
  }

  /** The idle edge and delay of every wired screen agree with the hand table. */
  lemma IdleMatchesTable(g: Graph, s: Screen)
    requires Wired(g) && s in g.Screens()
    ensures IdlePage(PageOf(g, s)).None? <==> s.idle == null
    ensures IdlePage(PageOf(g, s)).Some? ==>
              s.idle == ScreenOf(g, IdlePage(PageOf(g, s)).value.0)
              && s.idleTime == IdlePage(PageOf(g, s)).value.1
  {
  }

  /** The screen reached from `s` after pressing the buttons in `codes`. */
  function Walk(g: Graph, s: Screen, codes: seq<int>): (r: Screen)
    requires Wired(g) && s in g.Screens()
    reads g.Screens()
    ensures r in g.Screens()
    decreases |codes|
  {
    if codes == [] then s else Walk(g, s.ButtonPress(codes[0]), codes[1..])
  }

  /** Walking the object graph lands on the screen the hand table predicts. */
  lemma {:induction false} WalkMatchesTable(g: Graph, s: Screen, codes: seq<int>)
    requires Wired(g) && s in g.Screens()
    ensures Walk(g, s, codes) == ScreenOf(g, PageWalk(PageOf(g, s), codes))
    decreases |codes|
  {
    if codes != [] {
      var t := s.ButtonPress(codes[0]);
      StepMatchesTable(g, s, codes[0]);
      WalkMatchesTable(g, t, codes[1..]);
    }
  }

  /**
   * A scripted session: the start-up press 5, then press, press, hold, hold,
   * press, hold — promotion, promotion, menu, pay, help, menu, pay, help.
   */
  lemma ScriptedSession(g: Graph)
    requires Wired(g)
    ensures Walk(g, g.promo, [5, 1, 1, 129, 129, 1, 129]) == g.help
  {
    WalkMatchesTable(g, g.promo, [5, 1, 1, 129, 129, 1, 129]);
  }
}
