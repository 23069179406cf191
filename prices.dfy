/** The price records the service returns and how the script reads them:
    `get_prices` keeps each record's hour and DKK price; `parse_price`, which
    nothing calls, was meant to fall back on the EUR price. Fetching and
    decoding the response are left to the caller. */
module Prices {
  import opened Outcomes
  import opened Summary

  /** One record of the service's `Elspotprices` list, as far as the script reads it. */
  datatype PriceRecord = PriceRecord(hourDK: string, spotPriceDKK: Option<real>, spotPriceEUR: Option<real>)

  /** `get_prices` once the response is decoded: each record's `HourDK` and
      `SpotPriceDKK`, in the order the service delivered them. */
  function GetPrices(records: seq<PriceRecord>): (quotes: seq<Quote>)
    ensures |quotes| == |records|
    ensures forall i :: 0 <= i < |records| ==> quotes[i] == (records[i].hourDK, records[i].spotPriceDKK)
  {
    seq(|records|, i requires 0 <= i < |records| => (records[i].hourDK, records[i].spotPriceDKK))
  }

  predicate AllDKKPublished(records: seq<PriceRecord>) {
    forall i :: 0 <= i < |records| ==> records[i].spotPriceDKK.Some?
  }

  /** Formatting an area's records succeeds exactly when there is at least one
      record and every record carries a DKK price; otherwise it raises. */
  lemma FormatRecordsSucceedsIff(records: seq<PriceRecord>)
    ensures FormatMessage(GetPrices(records)).Ok? <==> |records| > 0 && AllDKKPublished(records)
    ensures |records| == 0 ==> FormatMessage(GetPrices(records)) == Err(EmptySequence)
    ensures |records| > 0 && !AllDKKPublished(records) ==> FormatMessage(GetPrices(records)) == Err(MissingPrice)
  {
    var quotes := GetPrices(records);
    assert AllPriced(quotes) <==> AllDKKPublished(records) by {
      assert forall i :: 0 <= i < |records| ==> quotes[i].1 == records[i].spotPriceDKK;
    }
  }

  /** The cheapest hour reported for an area is one of its records, its price
      is that record's DKK price, and no record is cheaper. */
  lemma LowestComesFromRecords(records: seq<PriceRecord>)
    requires |records| > 0 && AllDKKPublished(records)
    ensures Summarize(Points(GetPrices(records))).Ok?
    ensures var low := Summarize(Points(GetPrices(records))).value.lowest;
      (exists i :: 0 <= i < |records| && records[i].hourDK == low.hour && records[i].spotPriceDKK == Some(low.price))
      && forall i :: 0 <= i < |records| ==> low.price <= records[i].spotPriceDKK.value
  {
    var points := Points(GetPrices(records));
    var low := Summarize(points).value.lowest;
    assert forall i :: 0 <= i < |records| ==> points[i] == PricePoint(records[i].hourDK, records[i].spotPriceDKK.value);
    var k :| 0 <= k < |points| && points[k] == low;
    assert records[k].hourDK == low.hour && records[k].spotPriceDKK == Some(low.price);
    assert forall i :: 0 <= i < |records| ==> points[i] in points;
  }

  /** The dearest hour reported for an area is one of its records, and no record is dearer. */
  lemma HighestComesFromRecords(records: seq<PriceRecord>)
    requires |records| > 0 && AllDKKPublished(records)
    ensures Summarize(Points(GetPrices(records))).Ok?
    ensures var high := Summarize(Points(GetPrices(records))).value.highest;
      (exists i :: 0 <= i < |records| && records[i].hourDK == high.hour && records[i].spotPriceDKK == Some(high.price))
      && forall i :: 0 <= i < |records| ==> high.price >= records[i].spotPriceDKK.value
  {
    var points := Points(GetPrices(records));
    var high := Summarize(points).value.highest;
    assert forall i :: 0 <= i < |records| ==> points[i] == PricePoint(records[i].hourDK, records[i].spotPriceDKK.value);
    var k :| 0 <= k < |points| && points[k] == high;
    assert records[k].hourDK == high.hour && records[k].spotPriceDKK == Some(high.price);
    assert forall i :: 0 <= i < |records| ==> points[i] in points;
  }

  /** What `parse_price` gives back: a Python value that is either a bool or a number. */
  datatype PyValue = PyBool(b: bool) | PyNumber(x: real)

  /** `parse_price` as written. The walrus binds `r` to the comparison
      `record["SpotPriceDKK"] is not None`, so when the DKK price is present
      the function returns `True`; otherwise it multiplies the EUR price by the
      exchange rate, which raises when that price is null too. The rate, which
      the function fetches, is a parameter. */
  function ParsePriceAsWritten(record: PriceRecord, dkkPerEur: real): (r: Result<PyValue>)
    ensures record.spotPriceDKK.Some? ==> r == Ok(PyBool(true))
    ensures r.Ok? && record.spotPriceDKK.None? ==> r.value.PyNumber?
  {
    if record.spotPriceDKK.Some? then Ok(PyBool(true))
    else if record.spotPriceEUR.None? then Err(MissingPrice)
    else Ok(PyNumber(record.spotPriceEUR.value * dkkPerEur))
  }

  /** `parse_price` as its comment intends: the DKK price when the service
      published one, else the EUR price converted at the given rate. */
  function ParsePrice(record: PriceRecord, dkkPerEur: real): (r: Result<real>)
    ensures record.spotPriceDKK.Some? ==> r == Ok(record.spotPriceDKK.value)
    ensures record.spotPriceDKK.None? && record.spotPriceEUR.Some? ==> r == Ok(record.spotPriceEUR.value * dkkPerEur)
    ensures r.Err? <==> record.spotPriceDKK.None? && record.spotPriceEUR.None?
  {
    if record.spotPriceDKK.Some? then Ok(record.spotPriceDKK.value)
    else if record.spotPriceEUR.Some? then Ok(record.spotPriceEUR.value * dkkPerEur)
    else Err(MissingPrice)
  }

  /** Where the DKK price is published, the intended reading agrees with the
      pair `get_prices` keeps. */
  lemma ParsePriceAgreesWithGetPrices(records: seq<PriceRecord>, i: nat, dkkPerEur: real)
    requires i < |records| && records[i].spotPriceDKK.Some?
    ensures ParsePrice(records[i], dkkPerEur) == Ok(GetPrices(records)[i].1.value)
  {
  }

  /** The two readings differ exactly on records with a DKK price: the written
      one returns `True` there, never the price. On the EUR fallback they agree. */
  lemma ParsePriceAsWrittenLosesPrice(record: PriceRecord, dkkPerEur: real)
    ensures record.spotPriceDKK.Some? ==>
      ParsePrice(record, dkkPerEur).Ok? && ParsePriceAsWritten(record, dkkPerEur) != Ok(PyNumber(ParsePrice(record, dkkPerEur).value))
    ensures record.spotPriceDKK.None? ==>
      ParsePriceAsWritten(record, dkkPerEur) ==
        (match ParsePrice(record, dkkPerEur) case Ok(x) => Ok(PyNumber(x)) case Err(e) => Err(e))
  {
  }

  /** An input that shows it: a record priced at 500 DKK/MWh. */
  lemma ParsePriceCounterexample(hour: string)
    ensures ParsePrice(PriceRecord(hour, Some(500.0), Some(67.2)), 7.44) == Ok(500.0)
    ensures ParsePriceAsWritten(PriceRecord(hour, Some(500.0), Some(67.2)), 7.44) == Ok(PyBool(true))
  {
  }
}
