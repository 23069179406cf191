/** The daily summary (`format_message`): the cheapest hour, the dearest hour
    and the mean price of one price area, and the three lines of text that
    report them in DKK/MWh. */
module Summary {
  import opened Outcomes
  import opened Text

  /** One hour's price as the service delivers it: the `HourDK` text and the
      `SpotPriceDKK` value, which the service may leave null. */
  type Quote = (string, Option<real>)

  /** One hour with a known price in DKK/MWh. */
  datatype PricePoint = PricePoint(hour: string, price: real)

  /** The lowest and highest hour and the mean price of a day. */
  datatype DailySummary = DailySummary(lowest: PricePoint, highest: PricePoint, mean: real)

  /** The index `min(points, key=price)` returns: a cheapest point, the first
      one when several tie. */
  function ArgMin(points: seq<PricePoint>): (k: nat)
    requires |points| > 0
    ensures k < |points|
    ensures forall j :: 0 <= j < |points| ==> points[k].price <= points[j].price
    ensures forall j :: 0 <= j < k ==> points[j].price > points[k].price
    decreases |points|
  {
    if |points| == 1 then 0
    else
      var k := ArgMin(points[..|points| - 1]);
      if points[|points| - 1].price < points[k].price then |points| - 1 else k
  }

  /** The index `max(points, key=price)` returns: a dearest point, the first
      one when several tie. */
  function ArgMax(points: seq<PricePoint>): (k: nat)
    requires |points| > 0
    ensures k < |points|
    ensures forall j :: 0 <= j < |points| ==> points[k].price >= points[j].price
    ensures forall j :: 0 <= j < k ==> points[j].price < points[k].price
    decreases |points|
  {
    if |points| == 1 then 0
    else
      var k := ArgMax(points[..|points| - 1]);
      if points[|points| - 1].price > points[k].price then |points| - 1 else k
  }

  function Sum(points: seq<PricePoint>): real
    decreases |points|
  {
    if |points| == 0 then 0.0
    else Sum(points[..|points| - 1]) + points[|points| - 1].price
  }

  /** `statistics.mean` of the prices. */
  function Mean(points: seq<PricePoint>): (m: real)
    requires |points| > 0
    ensures (|points| as real) * m == Sum(points)
  {
    Sum(points) / (|points| as real)
  }

  /** Prices between two bounds sum to between `n` times each bound. */
  lemma {:induction false} SumBounds(points: seq<PricePoint>, lo: real, hi: real)
    requires forall j :: 0 <= j < |points| ==> lo <= points[j].price <= hi
    ensures (|points| as real) * lo <= Sum(points) <= (|points| as real) * hi
    decreases |points|
  {
    if |points| > 0 {
      var init := points[..|points| - 1];
      assert forall j :: 0 <= j < |init| ==> init[j] == points[j];
      SumBounds(init, lo, hi);
      assert (|points| as real) * lo == (|init| as real) * lo + lo;
      assert (|points| as real) * hi == (|init| as real) * hi + hi;
    }
  }

  /** Prices between two bounds have their mean between them. */
  lemma MeanBetweenBounds(points: seq<PricePoint>, lo: real, hi: real)
    requires |points| > 0
    requires forall j :: 0 <= j < |points| ==> lo <= points[j].price <= hi
    ensures lo <= Mean(points) <= hi
  {
    SumBounds(points, lo, hi);
    QuotientBounds(Sum(points), |points|, lo, hi);
  }

  /** The mean lies between the lowest and the highest price. */
  lemma MeanWithinRange(points: seq<PricePoint>)
    requires |points| > 0
    ensures points[ArgMin(points)].price <= Mean(points) <= points[ArgMax(points)].price
  {
    var lo, hi := ArgMin(points), ArgMax(points);
    MeanBetweenBounds(points, points[lo].price, points[hi].price);
  }

  lemma QuotientBounds(total: real, count: nat, lo: real, hi: real)
    requires count > 0
    requires (count as real) * lo <= total <= (count as real) * hi
    ensures lo <= total / (count as real) <= hi
  {
    var n := count as real;
    var q := total / n;
    assert total == q * n;
    assert (q - lo) * n >= 0.0;
    assert (hi - q) * n >= 0.0;
  }

  /** The three figures `format_message` reports; `min` on an empty list raises. */
  function Summarize(points: seq<PricePoint>): (r: Result<DailySummary>)
    ensures r.Err? <==> |points| == 0
    ensures r.Err? ==> r.error == EmptySequence
    ensures r.Ok? ==> r.value.lowest in points && r.value.highest in points
    ensures r.Ok? ==> forall p :: p in points ==> r.value.lowest.price <= p.price <= r.value.highest.price
    ensures r.Ok? ==> exists k :: 0 <= k < |points| && points[k] == r.value.lowest
                        && forall j :: 0 <= j < k ==> points[j].price > r.value.lowest.price
    ensures r.Ok? ==> exists k :: 0 <= k < |points| && points[k] == r.value.highest
                        && forall j :: 0 <= j < k ==> points[j].price < r.value.highest.price
    ensures r.Ok? ==> r.value.mean == Sum(points) / (|points| as real)
    ensures r.Ok? ==> r.value.lowest.price <= r.value.mean <= r.value.highest.price
  {
    if |points| == 0 then Err(EmptySequence)
    else
      var lo, hi := ArgMin(points), ArgMax(points);
      MeanWithinRange(points);
      Ok(DailySummary(points[lo], points[hi], Mean(points)))
  }

  /** The spot price list from the two-hour scenario: 100000 at the first hour
      and 500000 at the second give those two as lowest and highest and a mean
      of 300000. */
  lemma TwoHourScenario(h0: string, h1: string)
    ensures Summarize([PricePoint(h0, 100000.0), PricePoint(h1, 500000.0)])
      == Ok(DailySummary(PricePoint(h0, 100000.0), PricePoint(h1, 500000.0), 300000.0))
  {
    var points := [PricePoint(h0, 100000.0), PricePoint(h1, 500000.0)];
    var first := [PricePoint(h0, 100000.0)];
    assert points[..|points| - 1] == first;
    assert first[..|first| - 1] == [];
    assert Sum(first) == 100000.0;
    assert Sum(points) == 600000.0;
  }

  /** On equal prices the earlier hour is reported as both lowest and highest. */
  lemma TiesPickEarliest(h0: string, h1: string, price: real)
    ensures Summarize([PricePoint(h0, price), PricePoint(h1, price)]).value.lowest == PricePoint(h0, price)
    ensures Summarize([PricePoint(h0, price), PricePoint(h1, price)]).value.highest == PricePoint(h0, price)
  {
    var points := [PricePoint(h0, price), PricePoint(h1, price)];
    assert points[..1] == [PricePoint(h0, price)];
  }

  /** Python's `round` of a number: the nearest integer, and the even one of
      two equally near. */
  function RoundHalfEven(x: real): (n: int)
    ensures -0.5 <= (n as real) - x <= 0.5
    ensures ((n as real) - x == 0.5 || x - (n as real) == 0.5) ==> n % 2 == 0
  {
    var f := x.Floor;
    var frac := x - f as real;
    if frac < 0.5 then f
    else if frac > 0.5 then f + 1
    else if f % 2 == 0 then f
    else f + 1
  }

  /** The two properties of `round` leave no choice of result. */
  lemma RoundHalfEvenUnique(x: real, n: int)
    requires -0.5 <= (n as real) - x <= 0.5
    requires ((n as real) - x == 0.5 || x - (n as real) == 0.5) ==> n % 2 == 0
    ensures n == RoundHalfEven(x)
  {
  }

  /** A whole number rounds to itself. */
  lemma RoundWhole(n: int)
    ensures RoundHalfEven(n as real) == n
  {
    RoundHalfEvenUnique(n as real, n);
  }

  function LowestLine(s: DailySummary): string {
    "Lowest price: " + IntToDecimal(RoundHalfEven(s.lowest.price)) + " DKK/MWh (" + s.lowest.hour + ")"
  }

  function HighestLine(s: DailySummary): string {
    "Highest price: " + IntToDecimal(RoundHalfEven(s.highest.price)) + " DKK/MWh (" + s.highest.hour + ")"
  }

  function AverageLine(s: DailySummary): string {
    "Average price: " + IntToDecimal(RoundHalfEven(s.mean)) + " DKK/MWh"
  }

  /** Each line carries its price as a whole number that `int()` reads back as
      the rounded price, followed by the unit and, for the lowest and highest
      price, the hour. */
  lemma LineFigures(s: DailySummary)
    ensures exists figure :: LowestLine(s) == "Lowest price: " + figure + " DKK/MWh (" + s.lowest.hour + ")"
                            && ParseInt(figure) == Some(RoundHalfEven(s.lowest.price))
    ensures exists figure :: HighestLine(s) == "Highest price: " + figure + " DKK/MWh (" + s.highest.hour + ")"
                            && ParseInt(figure) == Some(RoundHalfEven(s.highest.price))
    ensures exists figure :: AverageLine(s) == "Average price: " + figure + " DKK/MWh"
                            && ParseInt(figure) == Some(RoundHalfEven(s.mean))
  {
    ParseIntOfIntToDecimal(RoundHalfEven(s.lowest.price));
    ParseIntOfIntToDecimal(RoundHalfEven(s.highest.price));
    ParseIntOfIntToDecimal(RoundHalfEven(s.mean));
  }

  /** The text of a summary: three lines, prices rounded to whole DKK/MWh. */
  function Render(s: DailySummary): string {
    Join([LowestLine(s), HighestLine(s), AverageLine(s)], "\n")
  }

  /** The known prices of a list of quotes; defined when none is null. */
  predicate AllPriced(quotes: seq<Quote>) {
    forall i :: 0 <= i < |quotes| ==> quotes[i].1.Some?
  }

  function Points(quotes: seq<Quote>): (points: seq<PricePoint>)
    requires AllPriced(quotes)
    ensures |points| == |quotes|
    ensures forall i :: 0 <= i < |quotes| ==> points[i] == PricePoint(quotes[i].0, quotes[i].1.value)
  {
    seq(|quotes|, i requires 0 <= i < |quotes| && AllPriced(quotes) => PricePoint(quotes[i].0, quotes[i].1.value))
  }

  /** `format_message`: an empty list makes `min` raise; a null price makes
      the comparisons (or, for a single hour, the mean) raise. */
  function FormatMessage(quotes: seq<Quote>): (r: Result<string>)
    ensures r.Err? <==> |quotes| == 0 || !AllPriced(quotes)
    ensures r.Err? ==> r.error == (if |quotes| == 0 then EmptySequence else MissingPrice)
    ensures r.Ok? ==> exists s :: Summarize(Points(quotes)) == Ok(s) && r.value == Render(s)
  {
    if |quotes| == 0 then Err(EmptySequence)
    else if !AllPriced(quotes) then Err(MissingPrice)
    else
      Ok(Render(Summarize(Points(quotes)).value))
  }

  lemma NoNewlineInDecimal(n: int)
    ensures '\n' !in IntToDecimal(n)
  {
    var digits := NatToDecimal(if n < 0 then -n else n);
    assert forall i :: 0 <= i < |digits| ==> IsDigit(digits[i]);
  }

  /** The summary text has exactly one lowest-price line, one highest-price
      line and one average line, in that order, when the hour texts have no
      line breaks. */
  lemma RenderHasThreeLines(s: DailySummary)
    requires '\n' !in s.lowest.hour && '\n' !in s.highest.hour
    ensures Split(Render(s), '\n') == [LowestLine(s), HighestLine(s), AverageLine(s)]
    ensures "Lowest price: " <= LowestLine(s) && "Highest price: " <= HighestLine(s)
    ensures "Average price: " <= AverageLine(s)
  {
    NoNewlineInDecimal(RoundHalfEven(s.lowest.price));
    NoNewlineInDecimal(RoundHalfEven(s.highest.price));
    NoNewlineInDecimal(RoundHalfEven(s.mean));
    SplitJoin([LowestLine(s), HighestLine(s), AverageLine(s)], '\n');
  }
}
