/** The page of one coin: its description, link cards, price chart and chart range. */
module CoinDetails {

  // ---------------------------------------------------------------------------------------
  // Description

  const Separator: string := ". "

  /** No ". " occurs in `t`. */
  predicate FreeOfSeparator(t: string)
  {
    forall j :: 0 <= j < |t| - 1 ==> !(t[j] == '.' && t[j + 1] == ' ')
  }

  /** `s.split(". ")`: scanning from the left, every occurrence of ". " ends a segment. */
  function Split(s: string): (parts: seq<string>)
    ensures |parts| >= 1
    decreases |s|
  {
    if |s| < 2 then [s]
    else if s[..2] == Separator then [""] + Split(s[2..])
    else
      var rest := Split(s[1..]);
      [[s[0]] + rest[0]] + rest[1..]
  }

  /** `parts.join(". ")`. */
  function Join(parts: seq<string>): string
  {
    if parts == [] then ""
    else if |parts| == 1 then parts[0]
    else parts[0] + Separator + Join(parts[1..])
  }

  /** Putting `c` in front of the first segment puts it in front of the joined text. */
  lemma {:induction false} JoinConsFirst(c: char, parts: seq<string>)
    requires |parts| >= 1
    ensures Join([[c] + parts[0]] + parts[1..]) == [c] + Join(parts)
  {
    var longer := [[c] + parts[0]] + parts[1..];
    assert |longer| == |parts| && longer[0] == [c] + parts[0];
    if |parts| > 1 {
      assert longer[1..] == parts[1..];
      var tail := Join(parts[1..]);
      assert Join(longer) == ([c] + parts[0]) + Separator + tail;
      assert Join(parts) == parts[0] + Separator + tail;
      assert ([c] + parts[0]) + Separator + tail == [c] + (parts[0] + Separator + tail);
    }
  }

  /** Joining the segments with ". " gives back the text. */
  lemma {:induction false} JoinSplit(s: string)
    ensures Join(Split(s)) == s
    decreases |s|
  {
    if |s| >= 2 {
      if s[..2] == Separator {
        JoinSplit(s[2..]);
        assert s == Separator + s[2..];
      } else {
        JoinSplit(s[1..]);
        JoinConsFirst(s[0], Split(s[1..]));
        assert s == [s[0]] + s[1..];
      }
    }
  }

  /** The first segment is the text up to the first ". ". */
  lemma {:induction false} FirstSegmentIsPrefix(s: string)
    ensures |Split(s)[0]| <= |s| && Split(s)[0] == s[..|Split(s)[0]|]
    decreases |s|
  {
    if |s| >= 2 && s[..2] != Separator {
      FirstSegmentIsPrefix(s[1..]);
    }
  }

  /** Putting `c` in front of a segment free of ". " keeps it free, unless `c` and the segment's
      first character `next` form ". ". */
  lemma ConsStaysFree(c: char, t: string, next: char)
    requires FreeOfSeparator(t) && (|t| > 0 ==> t[0] == next)
    requires !(c == '.' && next == ' ')
    ensures FreeOfSeparator([c] + t)
  {
    var first := [c] + t;
    forall j | 0 <= j < |first| - 1 ensures !(first[j] == '.' && first[j + 1] == ' ') {
      if j > 0 {
        assert first[j] == t[j - 1] && first[j + 1] == t[j];
      }
    }
  }

  /** No segment contains ". ". With JoinSplit, this pins Split down. */
  lemma {:induction false} SegmentsAreFreeOfSeparator(s: string)
    ensures forall i :: 0 <= i < |Split(s)| ==> FreeOfSeparator(Split(s)[i])
    decreases |s|
  {
    if |s| >= 2 {
      if s[..2] == Separator {
        SegmentsAreFreeOfSeparator(s[2..]);
        assert forall i :: 1 <= i < |Split(s)| ==> Split(s)[i] == Split(s[2..])[i - 1];
      } else {
        var rest := Split(s[1..]);
        SegmentsAreFreeOfSeparator(s[1..]);
        FirstSegmentIsPrefix(s[1..]);
        assert |rest[0]| > 0 ==> rest[0][0] == s[1];
        assert !(s[0] == '.' && s[1] == ' ') by {
          assert s[..2] == [s[0], s[1]];
        }
        ConsStaysFree(s[0], rest[0], s[1]);
        assert forall i :: 1 <= i < |Split(s)| ==> Split(s)[i] == rest[i];
      }
    }
  }

  /** Joining a list cut after m segments: the first m joined, ". ", the rest joined. */
  lemma {:induction false} JoinCut(parts: seq<string>, m: nat)
    requires 1 <= m < |parts|
    ensures Join(parts) == Join(parts[..m]) + Separator + Join(parts[m..])
  {
    if m > 1 {
      JoinCut(parts[1..], m - 1);
      assert parts[1..][..m - 1] == parts[..m][1..];
      assert parts[1..][m - 1..] == parts[m..];
    }
  }

  /** The About text: `description.split(". ").slice(0, 3).join(". ") + "."`. */
  function Truncate(description: string): string
  {
    var parts := Split(description);
    Join(parts[..if |parts| < 3 then |parts| else 3]) + "."
  }

  /** A description of at most three segments is shown whole, followed by ".". */
  lemma ShortDescriptionShownWhole(description: string)
    requires |Split(description)| <= 3
    ensures Truncate(description) == description + "."
  {
    JoinSplit(description);
    assert Split(description)[..|Split(description)|] == Split(description);
  }

  /** A longer description is cut just before its third ". ": the text is what is shown, without
      the final ".", then ". ", then the remaining segments. */
  lemma LongDescriptionCutAtThirdSeparator(description: string)
    requires |Split(description)| > 3
    ensures var shown := Truncate(description);
      description == shown[..|shown| - 1] + Separator + Join(Split(description)[3..])
  {
    var parts := Split(description);
    JoinSplit(description);
    JoinCut(parts, 3);
    var shown := Truncate(description);
    assert shown[..|shown| - 1] == Join(parts[..3]);
  }

  /** The card flags of the page. */
  datatype Cards = Cards(about: bool, links: bool, website: bool, explorer: bool)

  /** `list[0]` is truthy. */
  predicate FirstIsSet(list: seq<string>)
  {
    |list| > 0 && list[0] != ""
  }

  /** Which cards and buttons appear: About for a non-empty description; Links, with its website
      button, for a set homepage; the explorer button only inside the Links card. */
  function VisibleCards(description: string, homepage: seq<string>, blockchainSite: seq<string>): (c: Cards)
    ensures c.about <==> description != ""
    ensures c.links <==> |homepage| > 0 && homepage[0] != ""
    ensures c.website == c.links
    ensures c.explorer <==> c.links && |blockchainSite| > 0 && blockchainSite[0] != ""
  {
    var links := FirstIsSet(homepage);
    Cards(description != "", links, links && FirstIsSet(homepage), links && FirstIsSet(blockchainSite))
  }

  // ---------------------------------------------------------------------------------------
  // Price chart

  /** One point of the price chart (its display date, a locale rendering of the timestamp, is
      not kept). */
  datatype ChartPoint = ChartPoint(timestamp: int, price: real)

  /** The map over the fetched `[timestamp, price]` pairs in `fetchChartData`. */
  function ToChartPoints(pairs: seq<(int, real)>): (points: seq<ChartPoint>)
    ensures |points| == |pairs|
    ensures forall i :: 0 <= i < |pairs| ==> points[i].timestamp == pairs[i].0 && points[i].price == pairs[i].1
  {
    if pairs == [] then [] else [ChartPoint(pairs[0].0, pairs[0].1)] + ToChartPoints(pairs[1..])
  }

  /** A button of the chart-range selector. */
  datatype RangeOption = RangeOption(caption: string, days: nat)

  const RangeOptions: seq<RangeOption> :=
    [RangeOption("1D", 1), RangeOption("7D", 7), RangeOption("1M", 30), RangeOption("1Y", 365)]

  /** The offered ranges have distinct lengths, so exactly one button is highlighted for any
      offered range. */
  lemma OneButtonHighlighted(days: nat)
    requires exists i :: 0 <= i < |RangeOptions| && RangeOptions[i].days == days
    ensures forall i, j ::
      (0 <= i < |RangeOptions| && 0 <= j < |RangeOptions| && RangeOptions[i].days == days && RangeOptions[j].days == days)
      ==> i == j
  {
  }

  /** The page's `chartDays` state. */
  class ChartRange {
    var chartDays: nat

    /** The range is one of the offered ones. */
    ghost predicate Valid()
      reads this
    {
      exists i :: 0 <= i < |RangeOptions| && RangeOptions[i].days == chartDays
    }

    /** `useState(7)`. */
    constructor ()
      ensures chartDays == 7 && Valid()
    {
      chartDays := 7;
      new;
      assert RangeOptions[1].days == chartDays;
    }

    /** Whether the button of `option` is drawn as selected. */
    predicate IsHighlighted(option: RangeOption)
      reads this
    {
      chartDays == option.days
    }

    /** `setChartDays(option.days)` from one of the buttons. */
    method Select(option: RangeOption)
      requires option in RangeOptions
      modifies this
      ensures chartDays == option.days && Valid()
      ensures IsHighlighted(option)
    {
      chartDays := option.days;
    }
  }
}
