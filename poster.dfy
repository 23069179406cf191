/** The run (`update`): build the message from the DK1 prices and then the DK2
    prices, post it to one webhook, and only then overwrite the stored
    last-update time. The stored time and the webhook are the fields of a
    `Bot`; the webhook is an append-only outbox of posted messages. */
module Poster {
  import opened Outcomes
  import opened Calendar
  import opened Text
  import opened Summary
  import opened Prices
  import Gate
  import DataDate

  /** The price areas, in the order their parts appear in the message. */
  const PriceAreas: seq<string> := ["DK1", "DK2"]

  /** A message posted to a webhook: its URL and the text of the JSON body. */
  datatype Post = Post(url: string, text: string)

  function Header(area: string): string {
    "Tomorrow's electricity prices for " + area + ":\n"
  }

  /** One area's part of the message: the header, then its summary. */
  function Segment(area: string, records: seq<PriceRecord>): (r: Result<string>)
    ensures var body := FormatMessage(GetPrices(records));
      && (r.Ok? <==> body.Ok?)
      && (r.Err? ==> r.error == body.error)
      && (r.Ok? ==> r.value == Header(area) + body.value)
  {
    var body :- FormatMessage(GetPrices(records));
    Ok(Header(area) + body)
  }

  /** Each area's part, for the price records `feed` gives each area. */
  function SegmentOf(feed: string -> seq<PriceRecord>): string -> Result<string> {
    area => Segment(area, feed(area))
  }

  /** The parts for a list of areas, built in order; the first area whose
      part raises stops the run with that error. */
  function Segments(areas: seq<string>, segment: string -> Result<string>): Result<seq<string>>
    decreases |areas|
  {
    if |areas| == 0 then Ok([])
    else
      var init :- Segments(areas[..|areas| - 1], segment);
      var last :- segment(areas[|areas| - 1]);
      Ok(init + [last])
  }

  /** The message `update` posts, for the price records `feed` gives each area. */
  function Message(feed: string -> seq<PriceRecord>): (r: Result<string>)
    ensures r.Err? ==> r.error == EmptySequence || r.error == MissingPrice
  {
    SegmentsOfTwo("DK1", "DK2", SegmentOf(feed));
    var parts :- Segments(PriceAreas, SegmentOf(feed));
    Ok(Join(parts, "\n\n"))
  }

  /** Once the parts for a prefix of the areas raise, so do the parts for all of them. */
  lemma {:induction false} SegmentsPrefixErr(areas: seq<string>, k: nat, segment: string -> Result<string>)
    requires k <= |areas| && Segments(areas[..k], segment).Err?
    ensures Segments(areas, segment) == Segments(areas[..k], segment)
    decreases |areas| - k
  {
    if k < |areas| {
      var n := |areas|;
      assert areas[..n][..n - 1] == areas[..n - 1];
      assert areas[..n - 1][..k] == areas[..k];
      SegmentsPrefixErr(areas[..n - 1], k, segment);
      assert areas[..n] == areas;
    } else {
      assert areas[..k] == areas;
    }
  }

  /** The parts for two areas: the first one's, then the second one's, or the first error. */
  lemma SegmentsOfTwo(a: string, b: string, segment: string -> Result<string>)
    ensures var s1, s2 := segment(a), segment(b);
      Segments([a, b], segment) ==
        if s1.Err? then Err(s1.error) else if s2.Err? then Err(s2.error) else Ok([s1.value, s2.value])
  {
    var areas := [a, b];
    var s1, s2 := segment(a), segment(b);
    var first := areas[..|areas| - 1];
    assert first == [a];
    assert first[..|first| - 1] == [];
    assert Segments([], segment) == Ok([]);
    assert first[|first| - 1] == a;
    if s1.Ok? {
      assert [] + [s1.value] == [s1.value];
      assert Segments(first, segment) == Ok([s1.value]);
      assert areas[|areas| - 1] == b;
      if s2.Ok? {
        assert [s1.value] + [s2.value] == [s1.value, s2.value];
      }
    } else {
      assert Segments(first, segment) == Err(s1.error);
    }
  }

  lemma JoinTwo(x: string, y: string, sep: string)
    ensures Join([x, y], sep) == x + sep + y
  {
    assert [x, y][1..] == [y];
  }

  /** The message joins the DK1 part and the DK2 part with a blank line, and
      raises the DK1 part's error first. */
  lemma MessageOfParts(feed: string -> seq<PriceRecord>)
    ensures var s1, s2 := Segment("DK1", feed("DK1")), Segment("DK2", feed("DK2"));
      Message(feed) ==
        if s1.Err? then Err(s1.error) else if s2.Err? then Err(s2.error) else Ok(s1.value + "\n\n" + s2.value)
  {
    SegmentsOfTwo("DK1", "DK2", SegmentOf(feed));
    var s1, s2 := Segment("DK1", feed("DK1")), Segment("DK2", feed("DK2"));
    assert SegmentOf(feed)("DK1") == s1 && SegmentOf(feed)("DK2") == s2;
    var parts := Segments(PriceAreas, SegmentOf(feed));
    if s1.Ok? && s2.Ok? {
      assert parts == Ok([s1.value, s2.value]);
      JoinTwo(s1.value, s2.value, "\n\n");
    }
  }

  /** The message is DK1's header and summary, a blank line, then DK2's header
      and summary; it exists exactly when both summaries do, and otherwise
      the run raises DK1's error first. */
  lemma MessageLayout(feed: string -> seq<PriceRecord>)
    ensures var dk1, dk2 := FormatMessage(GetPrices(feed("DK1"))), FormatMessage(GetPrices(feed("DK2")));
      && (Message(feed).Ok? <==> dk1.Ok? && dk2.Ok?)
      && (dk1.Err? ==> Message(feed) == Err(dk1.error))
      && (dk1.Ok? && dk2.Err? ==> Message(feed) == Err(dk2.error))
      && (Message(feed).Ok? ==>
            Message(feed).value == Header("DK1") + dk1.value + "\n\n" + Header("DK2") + dk2.value)
  {
    var dk1, dk2 := FormatMessage(GetPrices(feed("DK1"))), FormatMessage(GetPrices(feed("DK2")));
    MessageOfParts(feed);
    var s1, s2 := Segment("DK1", feed("DK1")), Segment("DK2", feed("DK2"));
    if dk1.Err? {
      assert s1 == Err(dk1.error);
    } else if dk2.Err? {
      assert s1.Ok? && s2 == Err(dk2.error);
    } else {
      assert s1 == Ok(Header("DK1") + dk1.value) && s2 == Ok(Header("DK2") + dk2.value);
      assert Message(feed) == Ok(s1.value + "\n\n" + s2.value);
    }
  }

  /** The bot's state: what the pickle file holds, and what has been posted. */
  class Bot {
    /** The time of the last update; `None` while the file does not exist. */
    var lastUpdate: Option<DateTime>
    /** Every message posted so far, oldest first. */
    var outbox: seq<Post>

    constructor (stored: Option<DateTime>)
      ensures lastUpdate == stored && outbox == []
    {
      lastUpdate := stored;
      outbox := [];
    }

    /** `get_last_update`. */
    method GetLastUpdate() returns (stored: Option<DateTime>)
      ensures stored == lastUpdate
    {
      stored := lastUpdate;
    }

    /** `set_last_update`: the new time replaces the old one. */
    method SetLastUpdate(t: DateTime)
      modifies this
      ensures lastUpdate == Some(t) && outbox == old(outbox)
    {
      lastUpdate := Some(t);
    }

    /** `post_message`: the request either returns, and the message is
        delivered, or raises. The response status is not checked. */
    method PostMessage(url: string, text: string, raises: bool) returns (r: Result<()>)
      modifies this
      ensures r == if raises then Err(DeliveryFailed) else Ok(())
      ensures outbox == if raises then old(outbox) else old(outbox) + [Post(url, text)]
      ensures lastUpdate == old(lastUpdate)
    {
      if raises {
        return Err(DeliveryFailed);
      }
      outbox := outbox + [Post(url, text)];
      r := Ok(());
    }

    /** `update_available` with the stored time, the current local time and the
        `HourDK` text of the newest published record. */
    method UpdateAvailable(now: DateTime, latestHourDK: string) returns (r: Result<bool>)
      ensures r == Gate.CheckUpdate(lastUpdate, now, latestHourDK)
    {
      var stored := GetLastUpdate();
      if stored.None? {
        return Ok(true);
      }
      if Gate.SameDay(stored.value, now) {
        return Ok(false);
      }
      if Gate.BeforeCutoff(now) {
        return Ok(false);
      }
      var latest := DataDate.ParseDataDate(latestHourDK);
      if latest.Err? {
        return Err(latest.error);
      }
      r := Ok(Gate.UpdateAvailable(stored, now, latest.value));
    }

    /** `update`: one message for both areas, posted to `webhookUrl`; the
        stored time becomes `now` only once the post has returned. `feed`
        stands for the service's answer for each area and `postRaises` for a
        post that raises. */
    method Update(webhookUrl: string, feed: string -> seq<PriceRecord>, postRaises: bool, now: DateTime)
      returns (r: Result<()>)
      modifies this
      ensures Message(feed).Err? ==>
        r == Err(Message(feed).error) && lastUpdate == old(lastUpdate) && outbox == old(outbox)
      ensures Message(feed).Ok? && postRaises ==>
        r == Err(DeliveryFailed) && lastUpdate == old(lastUpdate) && outbox == old(outbox)
      ensures Message(feed).Ok? && !postRaises ==>
        r == Ok(()) && lastUpdate == Some(now) && outbox == old(outbox) + [Post(webhookUrl, Message(feed).value)]
    {
      var parts: seq<string> := [];
      for i := 0 to |PriceAreas|
        invariant Segments(PriceAreas[..i], SegmentOf(feed)) == Ok(parts)
        invariant lastUpdate == old(lastUpdate) && outbox == old(outbox)
      {
        var area := PriceAreas[i];
        var segment := Segment(area, feed(area));
        assert PriceAreas[..i + 1][..i] == PriceAreas[..i];
        if segment.Err? {
          SegmentsPrefixErr(PriceAreas, i + 1, SegmentOf(feed));
          return Err(segment.error);
        }
        parts := parts + [segment.value];
      }
      assert PriceAreas[..|PriceAreas|] == PriceAreas;
      var message := Join(parts, "\n\n");
      r := PostMessage(webhookUrl, message, postRaises);
      if r.Err? {
        return;
      }
      SetLastUpdate(now);
    }

    /** The script's entry point: ask the gate at `askedAt`, and only when it
        answers `True` run `update`, which stores `postedAt`. `r` is whether a
        message was posted. A run on the day of the stored update posts
        nothing and changes nothing. */
    method Run(askedAt: DateTime, latestHourDK: string, webhookUrl: string,
               feed: string -> seq<PriceRecord>, postRaises: bool, postedAt: DateTime)
      returns (r: Result<bool>)
      modifies this
      ensures old(lastUpdate).Some? && Gate.SameDay(old(lastUpdate).value, askedAt) ==>
        r == Ok(false) && lastUpdate == old(lastUpdate) && outbox == old(outbox)
      ensures Gate.CheckUpdate(old(lastUpdate), askedAt, latestHourDK) == Ok(false) ==>
        r == Ok(false) && lastUpdate == old(lastUpdate) && outbox == old(outbox)
      ensures Gate.CheckUpdate(old(lastUpdate), askedAt, latestHourDK).Err? ==>
        r == Err(Gate.CheckUpdate(old(lastUpdate), askedAt, latestHourDK).error)
        && lastUpdate == old(lastUpdate) && outbox == old(outbox)
      ensures Gate.CheckUpdate(old(lastUpdate), askedAt, latestHourDK) == Ok(true) ==>
        if Message(feed).Err? then
          r == Err(Message(feed).error) && lastUpdate == old(lastUpdate) && outbox == old(outbox)
        else if postRaises then
          r == Err(DeliveryFailed) && lastUpdate == old(lastUpdate) && outbox == old(outbox)
        else
          r == Ok(true) && lastUpdate == Some(postedAt) && outbox == old(outbox) + [Post(webhookUrl, Message(feed).value)]
    {
      var open := UpdateAvailable(askedAt, latestHourDK);
      if open.Err? {
        return Err(open.error);
      }
      if !open.value {
        return Ok(false);
      }
      var done := Update(webhookUrl, feed, postRaises, postedAt);
      if done.Err? {
        return Err(done.error);
      }
      r := Ok(true);
    }
  }
}
