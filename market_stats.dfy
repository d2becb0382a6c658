/** The market summary strip: global figures and the fear-and-greed gauge. */
module MarketStats {
  import opened Optional
  import opened Formatters

  /** `formatNumber`: "$0" for a missing or zero figure; otherwise the T, B or M tier with 2
      decimals and the figure divided by the tier's power, or the plain figure with 2 decimals. */
  function FormatNumber(num: Option<real>): (d: Display)
    ensures d == ZeroDollars <==> num == None || num == Some(0.0)
    ensures d.Dollars? ==> (d.digits == Fixed(2) && d.suffix == SuffixFor(num.value)
                            && d.amount * Scale(d.suffix) == num.value)
  {
    if num.None? || num.value == 0.0 then ZeroDollars
    else if num.value >= 1e12 then Dollars(num.value / 1e12, Fixed(2), Trillion)
    else if num.value >= 1e9 then Dollars(num.value / 1e9, Fixed(2), Billion)
    else if num.value >= 1e6 then Dollars(num.value / 1e6, Fixed(2), Million)
    else Dollars(num.value, Fixed(2), NoSuffix)
  }

  /** For a non-zero figure, `formatNumber` and `formatMarketCap` pick the same tier and amount;
      they differ only in how a figure below a million is rendered. */
  lemma FormatNumberAgreesWithMarketCap(value: real)
    requires value != 0.0
    ensures FormatNumber(Some(value)).suffix == FormatMarketCap(value).suffix
    ensures FormatNumber(Some(value)).amount == FormatMarketCap(value).amount
    ensures value >= 1e6 <==> FormatNumber(Some(value)).digits == FormatMarketCap(value).digits
  {
  }

  /** `getFearGreedColor`: red below 25, orange below 45, yellow below 55, green from 55 up. */
  function FearGreedColor(value: int): (c: string)
    ensures c == "text-destructive" <==> value < 25
    ensures c == "text-orange-500" <==> 25 <= value < 45
    ensures c == "text-yellow-500" <==> 45 <= value < 55
    ensures c == "text-success" <==> value >= 55
  {
    if value < 25 then "text-destructive"
    else if value < 45 then "text-orange-500"
    else if value < 55 then "text-yellow-500"
    else if value < 75 then "text-success"
    else "text-success"
  }

  /** An entry of the fear-and-greed feed; either field may be missing. */
  datatype FearGreedEntry = FearGreedEntry(value: Option<string>, classification: Option<string>)

  /** What the gauge falls back to when the feed cannot be read. */
  const Fallback := FearGreedEntry(Some("50"), Some("Neutral"))

  /** `fetchFearGreedIndex`: the first entry of the feed's `data` list (undefined when the list is
      empty), or the fallback when the request, its status, the body or the field access failed. */
  function FetchFearGreedIndex(response: Fetch<seq<FearGreedEntry>>): (r: Option<FearGreedEntry>)
    ensures response.Failed? ==> r == Some(Fallback)
    ensures response.Loaded? ==> (r.Some? <==> response.value != []) && (r.Some? ==> r.value == response.value[0])
  {
    match response
    case Failed => Some(Fallback)
    case Loaded(entries) => if |entries| > 0 then Some(entries[0]) else None
  }

  /** The gauge's value text, `fearGreed?.value || "50"`: a missing or empty value shows 50. */
  function GaugeValueText(fearGreed: Option<FearGreedEntry>): (t: string)
    ensures t != ""
    ensures fearGreed.Some? && fearGreed.value.value.Some? && fearGreed.value.value.value != "" ==> t == fearGreed.value.value.value
  {
    if fearGreed.Some? && fearGreed.value.value.Some? && fearGreed.value.value.value != "" then fearGreed.value.value.value
    else "50"
  }

  /** The gauge's label, `fearGreed?.value_classification || "Neutral"`. */
  function GaugeLabel(fearGreed: Option<FearGreedEntry>): (t: string)
    ensures t != ""
    ensures fearGreed.Some? && fearGreed.value.classification.Some? && fearGreed.value.classification.value != ""
      ==> t == fearGreed.value.classification.value
  {
    if fearGreed.Some? && fearGreed.value.classification.Some? && fearGreed.value.classification.value != "" then
      fearGreed.value.classification.value
    else "Neutral"
  }

  /** Whether the feed fails or has not answered yet, the gauge shows a neutral 50, in yellow. */
  lemma GaugeDefaultsToNeutral(fearGreed: Option<FearGreedEntry>)
    requires fearGreed == None || fearGreed == FetchFearGreedIndex(Failed)
    ensures GaugeValueText(fearGreed) == "50" && GaugeLabel(fearGreed) == "Neutral"
    ensures FearGreedColor(50) == "text-yellow-500"
  {
  }
}
