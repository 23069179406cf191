# Daily electricity spot price poster, in Dafny

A model of `post.py`, a script that posts tomorrow's Danish electricity spot
prices to a chat webhook once a day. Each run does three things. First it
asks whether an update is due (`update_available`). Then it summarises the
24 hourly prices of the DK1 and DK2 price areas: lowest hour, highest hour
and mean (`format_message`). Last, it posts one message and records the time
of the run (`update`).

Modules, one file each:

- `outcomes.dfy`, module `Outcomes`: `Option`, and `Result` with the exceptions the script can raise.
- `text.dfy`, module `Text`: `str.split` on one character, `str.join`, `int()` of decimal text, `str()` of an `int`, and the round trips between them.
- `calendar.dfy`, module `Calendar`: dates and local times to the minute, their chronological order, and the dates `datetime` accepts.
- `data_date.dfy`, module `DataDate`: the date of the newest published record, read from its `HourDK` text (`get_latest_data_date`).
- `gate.dfy`, module `Gate`: the daily gate. It comes in two forms: as intended, and as written (the written one raises on its last branch).
- `summary.dfy`, module `Summary`: lowest, highest and mean, Python's `round`, and the three lines of text.
- `prices.dfy`, module `Prices`: price records, the `(HourDK, SpotPriceDKK)` pairs `get_prices` keeps, and `parse_price` in both forms.
- `poster.dfy`, module `Poster`: the message for both areas, and the class `Bot`. Its field `lastUpdate` is the stored last-update time. Its field `outbox` is the append-only list of posted messages. Its methods `UpdateAvailable` and `Update` are the two steps of a run.

Timestamps are Europe/Copenhagen local times. The current time, the price
service's answers, the exchange rate and whether a post raises are all
parameters.

Facts about `post.py` that shape the model:
- It posts to one webhook URL, the first command-line argument.
- If the post raises, the exception propagates and the last-update time is not stored.
- Prices are rounded to whole DKK/MWh.
- `get_prices` takes `SpotPriceDKK` as it comes and has no EUR fallback. A null price makes `format_message` raise.
- In `parse_price` the EUR branch is reachable, and the DKK branch returns `True` instead of the price.

## Model

| member | source | states |
|---|---|---|
| Text.Split | post.py:33 | `s.split(c)` gives at least one piece, and no piece contains `c` |
| Text.JoinSplit | post.py:33 | joining the pieces of `s.split(c)` with `c` gives back `s` |
| Text.SplitJoin | post.py:33 | splitting a join of `c`-free pieces on `c` gives back exactly those pieces |
| Text.FirstPiece | post.py:33 | `s.split("T")[0]` is a prefix of `s` that ends at the first `T`, or is all of `s` |
| Text.ParseIntOfZeroPadded | post.py:33 | `int()` reads zero-padded digits such as "09" as their value |
| Text.ParseInt | post.py:33 | `int()` accepts exactly an optional sign followed by ASCII digits, and reads plain digits as their decimal value |
| Text.JoinLeads | post.py:64 | `sep.join` of no pieces is empty, of one piece is that piece, and of more starts with the first piece and the separator; `Text.JoinSplit` and `Text.SplitJoin` make `Join` the inverse of `Split` |
| Text.IntToDecimal | post.py:73 | `str()` of an `int` is digits, with a leading minus sign exactly when it is negative |
| Text.ParseIntOfIntToDecimal | post.py:73 | the decimal text of an `int` in the f-string reads back as that `int` |
| Calendar.DaysInMonth | post.py:34 | February has 29 days exactly in Gregorian leap years and 28 otherwise; April, June, September and November have 30; the rest 31 |
| Calendar.Midnight | post.py:34 | `datetime(year, month, day)` is the start of that date: hour and minute 0 |
| Calendar.MidnightAfter | post.py:54 | midnight of a date is after a moment exactly when the date is after that moment's day |
| Calendar.DateBeforeIsStrictOrder | post.py:54 | the order on dates is irreflexive, transitive and total |
| DataDate.ParseDataDate | post.py:31-34 | it gives a date exactly when the date part has three `-`-separated fields that `int()` reads as the year, month and day of a valid calendar date, and then that date |
| DataDate.ParseFormatHourDK | post.py:31-34 | for every valid hour, parsing the service's "YYYY-MM-DDTHH:MM:00" text gives that hour's date; the time part is ignored |
| DataDate.ParseIgnoresTime | post.py:33-34 | a valid date's text followed by `T` and any text at all parses to that date |
| DataDate.ParseExample | post.py:32-33 | "2022-09-17T23:00:00" parses to 17 September 2022 |
| DataDate.ParseWithoutTime | post.py:33 | text with no `T` is parsed whole, so a bare "YYYY-MM-DD" is accepted |
| DataDate.TwoFieldsRejected | post.py:33 | a date part with two fields raises from the unpacking into year, month, day |
| Gate.UpdateAvailable | post.py:37-54 | the gate opens exactly when nothing is stored, or on a new day from 12:30 on with a published date after today |
| Gate.CheckUpdate | post.py:37-54 | `True` with nothing stored, `False` on the day of the stored update or before 12:30; only past those checks is the newest record's text parsed, raising only for text that does not parse, and the answer is "published date after today" |
| Gate.UpdateAvailableAsWritten | post.py:52-54 | as written, no call that reaches the last branch returns a value |
| Gate.FirstRunOpens | post.py:39-41 | with no stored update the gate opens, whatever the time and the data |
| Gate.SameDayShut | post.py:42-48 | a stored update with today's year, month and day keeps the gate shut |
| Gate.BeforeCutoffShut | post.py:49-51 | on a new day before 12:30 the gate is shut and the published date is not consulted |
| Gate.AfterCutoffOpensIffNewData | post.py:52-54 | on a new day from 12:30 on, the gate opens iff the newest date's midnight is after now, iff that date is after today |
| Gate.AtMostOncePerDay | post.py:43-48 | once the stored time is set, the gate stays shut for the rest of that day |
| Gate.AsWrittenNeverReopens | post.py:52-54 | as written, the gate never returns `True` once an update has been stored |
| Gate.AsWrittenDiffersOnlyOnLastBranch | post.py:37-54 | the written gate raises on the last branch and agrees with the intended one everywhere else |
| Gate.NaiveAwareCounterexample | post.py:52-54 | stored 16 Sep 2022, asked 13:00 on 17 Sep, data for 18 Sep: the intended gate opens, the written one raises |
| Summary.ArgMin | post.py:70 | `min(..., key=price)` gives an index whose price is at most every price, with every earlier price strictly higher |
| Summary.ArgMax | post.py:71 | `max(..., key=price)` gives an index whose price is at least every price, with every earlier price strictly lower |
| Summary.SumBounds | post.py:72 | prices between two bounds sum to between count times each bound |
| Summary.Mean | post.py:72 | `statistics.mean` times the number of prices is their sum |
| Summary.MeanBetweenBounds | post.py:72 | prices between two bounds have their mean between them |
| Summary.MeanWithinRange | post.py:70-72 | the mean lies between the lowest and the highest price |
| Summary.Summarize | post.py:69-72 | empty input raises; otherwise lowest and highest are input entries, the first on ties; they bound every price; the mean is sum over count and lies between them |
| Summary.TwoHourScenario | post.py:69-72 | 100000 then 500000 gives lowest the first hour, highest the second, mean 300000 |
| Summary.TiesPickEarliest | post.py:70-71 | on equal prices the earlier hour is both lowest and highest |
| Summary.RoundHalfEven | post.py:73 | `round` gives an integer within one half of its argument, and the even one on a tie |
| Summary.RoundHalfEvenUnique | post.py:73 | those two properties determine `round`'s result |
| Summary.RoundWhole | post.py:73 | a whole number rounds to itself |
| Summary.FormatMessage | post.py:69-73 | raises for an empty list or a null price; otherwise the text is the rendering of the list's summary |
| Summary.LineFigures | post.py:73 | each line of `LowestLine`, `HighestLine` and `AverageLine` holds its label, a figure that `int()` reads back as the rounded price, the unit, and for the first two the hour |
| Summary.RenderHasThreeLines | post.py:73 | `Render`'s text is exactly three lines, the lowest-price line, then the highest-price line, then the average line |
| Prices.GetPrices | post.py:102 | one `(HourDK, SpotPriceDKK)` pair per record, in delivery order |
| Prices.FormatRecordsSucceedsIff | post.py:102 | an area's message exists iff it has records and all carry a DKK price; otherwise the run raises the matching error |
| Prices.LowestComesFromRecords | post.py:70 | the reported lowest hour and price belong to one record, and no record is cheaper |
| Prices.HighestComesFromRecords | post.py:71 | the reported highest hour and price belong to one record, and no record is dearer |
| Prices.ParsePriceAsWritten | post.py:84-92 | as written, `True` whenever the DKK price is present; otherwise EUR times the rate, which raises if EUR is null |
| Prices.ParsePrice | post.py:84-92 | as intended: the DKK price when present, else EUR times the rate, raising only when both are null |
| Prices.ParsePriceAgreesWithGetPrices | post.py:86-87 | where DKK is present, the intended reading equals the price `get_prices` keeps |
| Prices.ParsePriceAsWrittenLosesPrice | post.py:86-87 | with a DKK price the written reading is never that price; without one, the two readings agree |
| Prices.ParsePriceCounterexample | post.py:86-87 | a record at 500 DKK/MWh reads as 500 as intended and as `True` as written |
| Poster.SegmentsPrefixErr | post.py:59-63 | an error raised while building an early area's part is the run's error |
| Poster.SegmentsOfTwo | post.py:59-63 | the parts of two areas are the first's then the second's, or the first error met |
| Poster.Segment | post.py:61-63 | an area's part exists exactly when its summary does, is the header "Tomorrow's electricity prices for AREA:" and a line break followed by the summary, and otherwise raises the summary's error |
| Poster.Message | post.py:59-64 | building the message raises only `ValueError` (no records) or `TypeError` (a null price); its layout is `Poster.MessageLayout` |
| Poster.MessageOfParts | post.py:59-64 | the message is the DK1 part, a blank line, then the DK2 part; a DK1 error comes first |
| Poster.MessageLayout | post.py:57-64 | the message exists iff both summaries do, and is the DK1 header and summary, "\n\n", then the DK2 header and summary |
| Poster.Bot.constructor | post.py:16-20 | the bot starts with the stored time it is given and an empty outbox |
| Poster.Bot.GetLastUpdate | post.py:16-20 | returns the stored time, `None` when nothing is stored |
| Poster.Bot.SetLastUpdate | post.py:23-25 | the stored time is replaced and nothing is posted |
| Poster.Bot.PostMessage | post.py:76-81 | a post that returns appends exactly that message to the outbox; one that raises changes nothing |
| Poster.Bot.UpdateAvailable | post.py:37-54 | answers the gate for the stored time, the current time and the newest record's text |
| Poster.Bot.Update | post.py:57-66 | if the message raises or the post raises, nothing changes; otherwise exactly one post of the message is appended, then the stored time becomes `now` |
| Poster.Bot.Run | post.py:105-108 | `update` runs only when the gate answers `True`; a gate that raises or answers `False` changes nothing; a run on the day of the stored update posts nothing; otherwise the outcome and new state are those of `update` |

## Left out

- HTTP requests and JSON decoding (post.py:29-30, 78-80, 89-91, 96-101) are left out. The service's answers (the newest record's `HourDK`, each area's records), the exchange rate and whether a post raises are parameters. A payload without `records`, or a record without `HourDK` or `SpotPriceDKK`, raises `KeyError`; an empty `records` list makes `get_latest_data_date` raise `IndexError` (post.py:31). In `get_prices` (post.py:102) an empty list gives `[]`, and `format_message` then raises `ValueError`, which the model covers as `EmptySequence`.
- The pickle file (post.py:16-25) is the field `Bot.lastUpdate`. An unreadable file is not modelled.
- `datetime.now(ZONE)` and time-zone conversion (post.py:13, 42, 66) are left out. The two current times are parameters, already local. Seconds and microseconds are dropped: no decision depends on them.
- `print` (post.py:81) is left out. The command-line argument `sys.argv[1]` (post.py:107) is the parameter `webhookUrl` of `Poster.Bot.Run`.
- Summary.RoundHalfEven: works on the exact value, not a binary float. Float rounding in `statistics.mean` and float representation are not modelled.
- Summary.Summarize: prices are exact reals, so NaN is not modelled.
- Text.ParseInt: accepts an optional sign and ASCII digits only. The surrounding whitespace, underscores and non-ASCII digits that `int()` also accepts are not modelled.
- Poster.Bot.PostMessage: a post that returns counts as delivered, as in the code. The HTTP status is never checked.
- `parse_price` (post.py:84-92) is modelled but nothing calls it, as in the code. `Prices.ParsePrice` therefore stands alone.

## Findings

| source | as written | input that shows it | evidently intended | confidence | as-written member | corrected member |
|---|---|---|---|---|---|---|
| post.py:34, post.py:54 | `get_latest_data_date` returns a naive `datetime(year, month, day)`, and line 54 orders it against the zone-aware `datetime.now(ZONE)`. Python raises `TypeError` for that, so the gate can never open again once an update has been stored. | stored update 2022-09-16 13:00, now 2022-09-17 13:00, newest record "2022-09-18T23:00:00" | open the gate when the newest published date is after today | high; not executed | Gate.UpdateAvailableAsWritten (Gate.NaiveAwareCounterexample, Gate.AsWrittenNeverReopens) | Gate.UpdateAvailable (Gate.AfterCutoffOpensIffNewData), used by Poster.Bot.UpdateAvailable |
| post.py:86 | `if r := record["SpotPriceDKK"] is not None` binds `r` to the comparison, not to the price, so the function returns `True` whenever a DKK price is present | a record with `SpotPriceDKK` 500.0 | return the DKK price itself | high; not executed | Prices.ParsePriceAsWritten (Prices.ParsePriceCounterexample) | Prices.ParsePrice (Prices.ParsePriceAgreesWithGetPrices) |
