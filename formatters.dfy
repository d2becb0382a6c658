/** The tiered dollar formatters `formatPrice` and `formatMarketCap`. The market table, the
    watchlist page and the coin page each carry an identical copy; this module is all three. */
module Formatters {

  /** The magnitude suffix appended to a scaled figure. */
  datatype Suffix = Trillion | Billion | Million | NoSuffix

  /** How the digits are rendered: `toFixed(places)`, or `toLocaleString` with digit grouping
      and between `minPlaces` and `maxPlaces` fraction digits. */
  datatype Digits = Fixed(places: nat) | Grouped(minPlaces: nat, maxPlaces: nat)

  /** A rendered dollar amount: `$`, the amount in the chosen digits, then the suffix; or the
      literal "$0". */
  datatype Display = Dollars(amount: real, digits: Digits, suffix: Suffix) | ZeroDollars

  /** The power of ten a suffix stands for. */
  function Scale(s: Suffix): real
  {
    match s
    case Trillion => 1e12
    case Billion => 1e9
    case Million => 1e6
    case NoSuffix => 1.0
  }

  /** The most fraction digits a rendering can show. */
  function MaxPlaces(d: Digits): nat
  {
    match d
    case Fixed(n) => n
    case Grouped(_, n) => n
  }

  /** The suffix tier of a figure: T from 1e12, B from 1e9, M from 1e6, none below. */
  function SuffixFor(value: real): (s: Suffix)
    ensures s == Trillion <==> value >= 1e12
    ensures s == Billion <==> 1e9 <= value < 1e12
    ensures s == Million <==> 1e6 <= value < 1e9
    ensures s == NoSuffix <==> value < 1e6
  {
    if value >= 1e12 then Trillion
    else if value >= 1e9 then Billion
    else if value >= 1e6 then Million
    else NoSuffix
  }

  /** A figure divided by the power of its suffix is at least 1, and below 1000 except for T. */
  lemma ScaledFigureInRange(value: real)
    requires value >= 1e6
    ensures var s := SuffixFor(value);
      1.0 <= value / Scale(s) && (s != Trillion ==> value / Scale(s) < 1000.0)
  {
  }

  /** `formatPrice`: 6 decimals below $1, 4 decimals below $100, and 2 grouped decimals from
      $100 up; the price itself is shown, without a suffix. */
  function FormatPrice(price: real): (d: Display)
    ensures d.Dollars? && d.amount == price && d.suffix == NoSuffix
    ensures d.digits == Fixed(6) <==> price < 1.0
    ensures d.digits == Fixed(4) <==> 1.0 <= price < 100.0
    ensures d.digits == Grouped(2, 2) <==> price >= 100.0
  {
    if price < 1.0 then Dollars(price, Fixed(6), NoSuffix)
    else if price < 100.0 then Dollars(price, Fixed(4), NoSuffix)
    else Dollars(price, Grouped(2, 2), NoSuffix)
  }

  /** A dearer coin is never shown with more decimals than a cheaper one. */
  lemma FormatPriceDecimalsShrink(cheaper: real, dearer: real)
    requires cheaper <= dearer
    ensures MaxPlaces(FormatPrice(dearer).digits) <= MaxPlaces(FormatPrice(cheaper).digits)
  {
  }

  /** `formatMarketCap`: 2 decimals with the T, B or M suffix of the figure's tier, the figure
      divided by that suffix's power; below a million, the figure with the default grouped
      rendering (up to 3 decimals). */
  function FormatMarketCap(value: real): (d: Display)
    ensures d.Dollars? && d.suffix == SuffixFor(value)
    ensures d.amount * Scale(d.suffix) == value
    ensures d.digits == (if value >= 1e6 then Fixed(2) else Grouped(0, 3))
  {
    if value >= 1e12 then Dollars(value / 1e12, Fixed(2), Trillion)
    else if value >= 1e9 then Dollars(value / 1e9, Fixed(2), Billion)
    else if value >= 1e6 then Dollars(value / 1e6, Fixed(2), Million)
    else Dollars(value, Grouped(0, 3), NoSuffix)
  }
}
