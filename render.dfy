/**
 * The render pipeline of a table device: what each screen draws, as an
 * abstract frame record rather than pixels.
 *
 * Every screen shares one footer bar (`drawMenuBar`): a caption word-wrapped
 * to the bar's width, an optional arrow, an invert flag and a right-aligned
 * "Balance: $X.XX" label. Text width is a parameter, since it comes from the
 * canvas's font metrics. The promotion screen rotates through a list of
 * promotions with one index shared by every device (`Promotions`).
 */
module Render {
  import opened Wrappers
  import opened Text
  import opened ScreenGraph

  /** The canvas every device draws on, and the footer bar's height. */
  const CanvasWidth: int := 400
  const CanvasHeight: int := 300
  const BarHeight: int := 100
  /** A footer line is broken when it would get wider than this. */
  const WrapWidth: real := 350.0

  /** Width of a string in the footer's font, as the canvas measures it. */
  type TextWidth = string -> real

  // ---------------------------------------------------------------------------
  // Balance label

  /** `(cents / 100).toFixed(2)`: an optional minus sign, the whole units, a point, two digits. */
  function FormatCents(cents: int): (r: string)
    ensures |r| >= 4 && r[|r| - 3] == '.' && IsDigit(r[|r| - 2]) && IsDigit(r[|r| - 1])
    ensures forall i :: 0 <= i < |r| - 3 ==> r[i] != '.'
  {
    var a := if cents < 0 then -cents else cents;
    (if cents < 0 then "-" else "") + NatToString(a / 100) + "." + [DigitChar(a % 100 / 10), DigitChar(a % 10)]
  }

  /** Reads back a label produced by `FormatCents`; anything else is rejected. */
  function ParseUnsignedCents(t: string): Option<nat>
  {
    if |t| >= 4 && t[|t| - 3] == '.' && IsDigit(t[|t| - 2]) && IsDigit(t[|t| - 1])
       && forall i :: 0 <= i < |t| - 3 ==> IsDigit(t[i])
    then Some(ParseNat(t[..|t| - 3]) * 100 + DigitValue(t[|t| - 2]) * 10 + DigitValue(t[|t| - 1]))
    else None
  }

  function ParseCents(s: string): Option<int>
  {
    if |s| > 0 && s[0] == '-' then
      match ParseUnsignedCents(s[1..])
      case Some(v) => Some(-(v as int))
      case None => None
    else
      match ParseUnsignedCents(s)
      case Some(v) => Some(v)
      case None => None
  }

  lemma DecimalSplit(a: nat)
    ensures a == (a / 100) * 100 + (a % 100 / 10) * 10 + a % 10
  {
    var h, r := a / 100, a % 100;
    assert a == h * 100 + r;
    assert r == (r / 10) * 10 + r % 10;
    assert a % 10 == r % 10 by {
      assert a == (h * 10) * 10 + r;
      ModUnique(a, h * 10 + r / 10, r % 10, 10);
    }
  }

  lemma ModUnique(y: int, d: int, r: int, m: int)
    requires m > 0 && 0 <= r < m && y == d * m + r
    ensures y % m == r && y / m == d
  {
    var d', r' := y / m, y % m;
    var e := d' - d;
    assert e * m == r - r' by {
      assert y == d' * m + r';
      assert d' * m == d * m + e * m;
    }
    MulBounds(e, m);
  }

  /** A multiple of `m` strictly between `-m` and `m` is zero. */
  lemma {:induction false} MulBounds(e: int, m: int)
    requires m > 0
    ensures e >= 1 ==> e * m >= m
    ensures e <= -1 ==> e * m <= -m
    decreases if e < 0 then -e else e
  {
    if e > 1 {
      MulBounds(e - 1, m);
      assert e * m == (e - 1) * m + m;
    } else if e < -1 {
      MulBounds(e + 1, m);
      assert e * m == (e + 1) * m - m;
    }
  }

  /** Digits, a point and two more digits read back digit by digit. */
  lemma ParseUnsignedCentsOf(whole: string, d1: char, d2: char)
    requires |whole| >= 1 && forall i :: 0 <= i < |whole| ==> IsDigit(whole[i])
    requires IsDigit(d1) && IsDigit(d2)
    ensures ParseUnsignedCents(whole + "." + [d1, d2])
            == Some(ParseNat(whole) * 100 + DigitValue(d1) * 10 + DigitValue(d2))
  {
    var t := whole + "." + [d1, d2];
    assert t == whole + ['.', d1, d2];
    var w := t[..|t| - 3];
    assert w == whole;
    assert forall i :: 0 <= i < |w| ==> IsDigit(w[i]);
    assert t[|t| - 3] == '.' && t[|t| - 2] == d1 && t[|t| - 1] == d2;
  }

  lemma UnsignedDigitsRoundTrip(h: nat, t: nat, u: nat)
    requires t < 10 && u < 10
    ensures ParseUnsignedCents(NatToString(h) + "." + [DigitChar(t), DigitChar(u)]) == Some(h * 100 + t * 10 + u)
  {
    ParseUnsignedCentsOf(NatToString(h), DigitChar(t), DigitChar(u));
    ParseNatToString(h);
    DigitRoundTrip(t);
    DigitRoundTrip(u);
  }

  lemma UnsignedRoundTrip(a: nat)
    ensures ParseUnsignedCents(NatToString(a / 100) + "." + [DigitChar(a % 100 / 10), DigitChar(a % 10)]) == Some(a)
  {
    UnsignedDigitsRoundTrip(a / 100, a % 100 / 10, a % 10);
    DecimalSplit(a);
  }

  /** The label text determines the balance: formatting loses nothing. */
  lemma {:induction false} FormatCentsRoundTrip(cents: int)
    ensures ParseCents(FormatCents(cents)) == Some(cents)
  {
    var a := if cents < 0 then -cents else cents;
    var t := NatToString(a / 100) + "." + [DigitChar(a % 100 / 10), DigitChar(a % 10)];
    UnsignedRoundTrip(a);
    if cents < 0 {
      assert FormatCents(cents) == "-" + t;
      assert ("-" + t)[1..] == t;
    } else {
      assert FormatCents(cents) == t;
      assert IsDigit(t[0]);
    }
  }

  /** The text drawn in the bar's top right corner. */
  function BalanceLabel(cents: int): string
  {
    "Balance: $" + FormatCents(cents)
  }

  /** The label is "Balance: $" followed by an amount with two decimals that reads back as the balance. */
  lemma BalanceLabelReadsBack(cents: int)
    ensures |BalanceLabel(cents)| >= 14 && BalanceLabel(cents)[..10] == "Balance: $"
    ensures ParseCents(BalanceLabel(cents)[10..]) == Some(cents)
  {
    FormatCentsRoundTrip(cents);
    assert BalanceLabel(cents)[10..] == FormatCents(cents);
  }

  // ---------------------------------------------------------------------------
  // Footer caption wrapping

  /**
   * The wrap loop from word `n` on, with the current `line` and the finished
   * `lines`: a word goes onto the current line unless the line would then be
   * wider than `WrapWidth` and it is not the first word.
   */
  function WrapFrom(words: seq<string>, width: TextWidth, n: nat, line: string, lines: seq<string>): seq<string>
    requires n <= |words|
    decreases |words| - n
  {
    if n == |words| then lines + [line]
    else
      var testLine := line + words[n] + " ";
      if width(testLine) > WrapWidth && n > 0 then
        WrapFrom(words, width, n + 1, words[n] + " ", lines + [line])
      else
        WrapFrom(words, width, n + 1, testLine, lines)
  }

  /** The footer lines for a list of words. */
  function Wrap(words: seq<string>, width: TextWidth): seq<string>
  {
    WrapFrom(words, width, 0, "", [])
  }

  lemma {:induction false} WrapFromConcat(words: seq<string>, width: TextWidth, n: nat, line: string, lines: seq<string>)
    requires n <= |words|
    ensures Concat(WrapFrom(words, width, n, line, lines)) == Concat(lines) + line + Spaced(words[n..])
    ensures |WrapFrom(words, width, n, line, lines)| > |lines|
    decreases |words| - n
  {
    if n == |words| {
      ConcatAppend(lines, [line]);
      assert words[n..] == [];
    } else {
      var w, rest := words[n] + " ", Spaced(words[n + 1..]);
      assert words[n..][1..] == words[n + 1..];
      assert Spaced(words[n..]) == w + rest;
      if width(line + words[n] + " ") > WrapWidth && n > 0 {
        WrapFromConcat(words, width, n + 1, w, lines + [line]);
        ConcatAppend(lines, [line]);
        AppendAssoc(Concat(lines) + line, w, rest);
      } else {
        WrapFromConcat(words, width, n + 1, line + words[n] + " ", lines);
        assert line + words[n] + " " == line + w;
        AppendAssoc(Concat(lines), line, w);
        AppendAssoc(Concat(lines) + line, w, rest);
      }
    }
  }

  lemma AppendAssoc(x: string, y: string, z: string)
    ensures x + y + z == x + (y + z)
  {
  }

  /** Lines already finished stay first; otherwise the first line extends the current one. */
  lemma {:induction false} WrapFromFirst(words: seq<string>, width: TextWidth, n: nat, line: string, lines: seq<string>)
    requires n <= |words|
    ensures |WrapFrom(words, width, n, line, lines)| > 0
    ensures lines != [] ==> WrapFrom(words, width, n, line, lines)[0] == lines[0]
    ensures lines == [] ==> line <= WrapFrom(words, width, n, line, lines)[0]
    decreases |words| - n
  {
    if n < |words| {
      var testLine := line + words[n] + " ";
      if width(testLine) > WrapWidth && n > 0 {
        WrapFromFirst(words, width, n + 1, words[n] + " ", lines + [line]);
      } else {
        WrapFromFirst(words, width, n + 1, testLine, lines);
      }
    }
  }

  /**
   * The wrapped lines put back together are the caption followed by one
   * space, and the first word always stays on the first line: a break is
   * never taken before it.
   */
  lemma WrapCaptionProperties(text: string, width: TextWidth)
    ensures |Wrap(Split(text, ' '), width)| >= 1
    ensures Concat(Wrap(Split(text, ' '), width)) == text + " "
    ensures Split(text, ' ')[0] + " " <= Wrap(Split(text, ' '), width)[0]
  {
    var words := Split(text, ' ');
    WrapFromConcat(words, width, 0, "", []);
    assert words[0..] == words;
    SpacedIsJoin(words);
    JoinSplit(text, ' ');
    var first := words[0] + " ";
    WrapFromFirst(words, width, 1, first, []);
    assert WrapFrom(words, width, 0, "", []) == WrapFrom(words, width, 1, first, []) by {
      assert "" + words[0] + " " == first;
    }
  }

  /** The wrap loop of `drawMenuBar`: split the caption on spaces and fill lines greedily. */
  method WrapCaption(text: string, width: TextWidth) returns (lines: seq<string>)
    ensures lines == Wrap(Split(text, ' '), width)
    ensures |lines| >= 1 && Concat(lines) == text + " "
    ensures Split(text, ' ')[0] + " " <= lines[0]
  {
    var words := Split(text, ' ');
    var line := "";
    lines := [];
    var n := 0;
    while n < |words|
      invariant 0 <= n <= |words|
      invariant WrapFrom(words, width, n, line, lines) == Wrap(words, width)
    {
      var testLine := line + words[n] + " ";
      if width(testLine) > WrapWidth && n > 0 {
        lines := lines + [line];
        line := words[n] + " ";
      } else {
        line := testLine;
      }
      n := n + 1;
    }
    lines := lines + [line];
    WrapCaptionProperties(text, width);
  }

  // ---------------------------------------------------------------------------
  // Frames

  /** What a screen shows above the footer. */
  datatype MainArea =
    | PromoArea(title: string, description: string)
    | NoPromotions(message: string)
    | QrArea(heading: string, qr: Image, footnote: string)
    | HelpArea(headline: string, message: string)

  /**
   * The footer bar: its caption, colours, arrow, height and the balance shown
   * in its corner. The caption is drawn as `Lines`, the label as `Label`.
   */
  datatype MenuBar = MenuBar(caption: string, invert: bool, arrow: bool, height: int, balance: int)
  {
    /** The caption broken into the lines drawn on the bar. */
    function Lines(width: TextWidth): seq<string>
    {
      Wrap(Split(caption, ' '), width)
    }

    /** The text drawn in the bar's top right corner. */
    function Label(): string
    {
      BalanceLabel(balance)
    }
  }

  datatype Frame = Frame(main: MainArea, bar: MenuBar)

  /**
   * `drawMenuBar`: the bar record and the caption lines the wrap loop draws
   * on it, which put back together give the caption, and the label, which
   * reads back as the balance.
   */
  method DrawMenuBar(text: string, invert: bool, arrow: bool, balance: int, width: TextWidth)
    returns (bar: MenuBar, lines: seq<string>)
    ensures bar == MenuBar(text, invert, arrow, BarHeight, balance)
    ensures lines == bar.Lines(width) && |lines| >= 1 && Concat(lines) == text + " "
    ensures bar.Label()[..10] == "Balance: $" && ParseCents(bar.Label()[10..]) == Some(balance)
  {
    lines := WrapCaption(text, width);
    bar := MenuBar(text, invert, arrow, BarHeight, balance);
    BalanceLabelReadsBack(balance);
  }

  /** The caption each screen passes to its footer. */
  function Caption(view: View): string
  {
    match view
    case PromoView => "Press button to view menu"
    case MenuView(_) => "Press to pay, or hold for help"
    case PayView(_) => "Press for menu, or hold for help"
    case HelpView => "Hold button to cancel help request"
  }

  // ---------------------------------------------------------------------------
  // Promotions

  datatype Promotion = Promotion(title: string, description: string)

  /** A row of `SELECT name, Price, description FROM Menu`; the price is the database's decimal text. */
  datatype MenuRow = MenuRow(name: string, price: string, description: string)

  datatype MenuQuery = MenuQueryError | MenuRows(rows: seq<MenuRow>)

  function PromotionOf(row: MenuRow): Promotion
  {
    Promotion(row.name + " for $" + row.price, row.description)
  }

  function PromotionsOf(rows: seq<MenuRow>): (ps: seq<Promotion>)
    ensures |ps| == |rows|
    ensures forall i :: 0 <= i < |rows| ==> ps[i] == PromotionOf(rows[i])
    decreases |rows|
  {
    if rows == [] then [] else [PromotionOf(rows[0])] + PromotionsOf(rows[1..])
  }

  /** The main area of the promotion screen for the list and the shared index. */
  function PromoMain(items: seq<Promotion>, index: nat): MainArea
    requires items == [] || index < |items|
  {
    if items == [] then NoPromotions("No promotions available")
    else PromoArea(items[index].title, items[index].description)
  }

  /** The index after one render of the promotion screen. */
  function NextPromoIndex(items: seq<Promotion>, index: nat): (r: nat)
    ensures items == [] ==> r == index
    ensures items != [] ==> r < |items|
  {
    if items == [] then index else (index + 1) % |items|
  }

  /** Taking the next index modulo `m` commutes with reducing modulo `m` first. */
  lemma ModStep(x: nat, m: int)
    requires m > 0
    ensures (x % m + 1) % m == (x + 1) % m
  {
    var p, d := x % m, x / m;
    if p + 1 < m {
      ModUnique(x + 1, d, p + 1, m);
      ModUnique(p + 1, 0, p + 1, m);
    } else {
      ModUnique(x + 1, d + 1, 0, m);
      ModUnique(p + 1, 1, 0, m);
    }
  }

  /** After `k` renders of the promotion screen the shared index has moved on by `k`, modulo the length. */
  lemma {:induction false} RotationAdvances(items: seq<Promotion>, index: nat, k: nat)
    requires index < |items|
    ensures Iterate(items, index, k) == (index + k) % |items|
    decreases k
  {
    if k == 0 {
      ModUnique(index, 0, index, |items|);
    } else {
      RotationAdvances(items, index, k - 1);
      ModStep(index + k - 1, |items|);
    }
  }

  /** One render per promotion brings the index back where it started. */
  lemma RotationFullCycle(items: seq<Promotion>, index: nat)
    requires index < |items|
    ensures Iterate(items, index, |items|) == index
  {
    RotationAdvances(items, index, |items|);
    ModUnique(index + |items|, 1, index, |items|);
  }

  /** The index after `k` promotion renders. */
  function Iterate(items: seq<Promotion>, index: nat, k: nat): nat
    decreases k
  {
    if k == 0 then index else NextPromoIndex(items, Iterate(items, index, k - 1))
  }

  /** The frame a screen draws for a balance, given the promotion list and index. */
  function ViewFrame(view: View, balance: int, items: seq<Promotion>, index: nat): Frame
    requires items == [] || index < |items|
  {
    var main := match view
      case PromoView => PromoMain(items, index)
      case MenuView(qr) => QrArea("SCAN FOR", qr, "MENU")
      case PayView(qr) => QrArea("SCAN FOR", qr, "PAY")
      case HelpView => HelpArea("Help has been requested", "A member of our staff will be with you shortly");
    Frame(main, MenuBar(Caption(view), false, true, BarHeight, balance))
  }

  /**
   * The process-wide promotion list and the single rotation index every
   * device's promotion screen advances.
   */
  class Promotions {
    var items: seq<Promotion>
    var index: nat

    /** The index points at a promotion whenever there is one. */
    ghost predicate Valid()
      reads this
    {
      items == [] || index < |items|
    }

    constructor ()
      ensures items == [] && index == 0 && Valid()
    {
      items := [];
      index := 0;
    }

    /** `loadPromotions`: replace the list from the menu query; a failed query keeps it. */
    method Load(q: MenuQuery)
      modifies this
      ensures index == old(index)
      ensures q.MenuQueryError? ==> items == old(items)
      ensures q.MenuRows? ==> items == PromotionsOf(q.rows)
      ensures old(index) == 0 ==> Valid()
    {
      if q.MenuRows? {
        items := PromotionsOf(q.rows);
      }
    }

    /**
     * The main area of `drawPromo`: show the promotion at the index and
     * advance it by one modulo the list length; an empty list shows the
     * default message and leaves the index alone.
     */
    method DrawPromoMain() returns (main: MainArea)
      requires Valid()
      modifies this
      ensures Valid() && items == old(items)
      ensures main == PromoMain(items, old(index))
      ensures index == NextPromoIndex(items, old(index))
    {
      if |items| > 0 {
        var promotion := items[index];
        index := (index + 1) % |items|;
        main := PromoArea(promotion.title, promotion.description);
      } else {
        main := NoPromotions("No promotions available");
      }
    }
  }

  /** `screen.generate(balance)`: draw a screen's frame; only the promotion screen moves the index. */
  method Generate(view: View, balance: int, promos: Promotions, width: TextWidth) returns (frame: Frame)
    requires promos.Valid()
    modifies promos
    ensures promos.Valid() && promos.items == old(promos.items)
    ensures frame == ViewFrame(view, balance, old(promos.items), old(promos.index))
    ensures promos.index == if view.PromoView? then NextPromoIndex(promos.items, old(promos.index))
                            else old(promos.index)
  {
    ghost var expected := ViewFrame(view, balance, promos.items, promos.index);
    var main: MainArea;
    match view {
      case PromoView =>
        main := promos.DrawPromoMain();
      case MenuView(qr) =>
        main := QrArea("SCAN FOR", qr, "MENU");
      case PayView(qr) =>
        main := QrArea("SCAN FOR", qr, "PAY");
      case HelpView =>
        main := HelpArea("Help has been requested", "A member of our staff will be with you shortly");
    }
    assert main == expected.main;
    var bar, lines := DrawMenuBar(Caption(view), false, true, balance, width);
    frame := Frame(main, bar);
  }
}
