# CAISO OASIS LMP scraper: a Dafny model of the range orchestrator

`caiso_scraper.py` downloads locational marginal prices (LMPs) for one pricing node
from the CAISO OASIS API over a date range. The OASIS API limits how long a single
query may be, so `scrape_daterange` does four things:

- it cuts the range into windows of 1 (RT5), 15 (RT15) or 30 (DA) days;
- it queries each window in a round-robin loop until every window has succeeded or
  has used up its attempts;
- it keeps only the total-LMP rows of each answer;
- it concatenates and sorts what it has collected and writes it to a CSV file.

`get_query_params` builds the parameters of one query from a fixed market table.
`format_time` prints a timestamp in the layout `%Y%m%dT%H:%M%z`.

This project models those three functions and proves properties of them.

- **Dates and stamps.** Dates are integer day numbers. The calendar date of a day
  (`dateOf`) and its zone-converted timestamp (`stampOf`) are parameters of the model.
- **The network.** The HTTP request and the zip, CSV and XML decoding are one oracle,
  `fetch`. It takes the request number and the query parameters. It answers either with
  a table of rows (`Table`) or with something that makes `set_index` raise (`NoTable`).
- **Prices.** A price is an opaque value `P`. A null price is `None`.

Files:

- `wrappers.dfy`: `Option` and `Result`.
- `times.dfy`: the `format_time` layout and the `YYYY-MM-DD` date layout. Each has a
  parser and a round-trip lemma.
- `markets.dfy`: the supported markets, chunk periods, price columns, the
  `get_query_params` table and its span advisories.
- `windows.dfy`: the chunk starts (as `pd.date_range` computes them) and the window
  ends `te`. Lemmas cover their shape, bounds and coverage.
- `prices.dfy`: filtering rows to the LMP series, sorting by timestamp, and merging the
  stored window series.
- `orchestrator.dfy`: the loop as a pure state machine.
  - `Step` is one pass of the `while` body; `Run` iterates it to the end.
  - `Valid` is the invariant `Step` preserves.
  - The lemmas are about attempt accounting, termination, what is stored, and the
    output file name.
- `scraper.dfy`: `scrape_daterange` itself, as an imperative method.
  - `attempt_srs` and `completion_srs` are arrays updated in place; `results_dict` is
    a map.
  - Each pass of the loop is proved to perform one `Step`. So the method returns
    exactly what `Run` computes from the initial state.

Where the code does something other than a plain reading of its intent, the model
follows the code:

- **Shared endpoints.** A window's end is the next chunk start, so neighbouring windows
  share an endpoint. The last window can be the single day `[end, end]`, for example
  the windows `[1,2]`, `[2,3]`, `[3,3]` for RT5 from day 1 to day 3.
- **Nulls are stored first.** A window's series is stored under its chunk start
  before the null check. A failed attempt can therefore leave a series with nulls
  stored.
- **Without continuous caching nothing is merged.** The test `cache_continuously or
  completion_srs.all()` at line 175 is meant to merge once every window is complete.
  But the completion flags are refreshed only after that test, at line 190, so
  `completion_srs.all()` is never true there. With `cache_continuously=False`, nothing is
  merged and no file is written. The returned series is the one extracted last. The
  "## Findings" section below gives this case and the corrected pass.
- **Unknown markets.** A market other than RT5, RT15 or DA fails the source's `assert`.
  Here that is a `Failure(InvalidMarket(name))` result.

## Model

| member | source | states |
|---|---|---|
| Times.Digits | caiso_scraper.py:46 | the zero-padded decimal field of a strftime directive is exactly `width` characters, all digits |
| Times.DigitsRoundTrip | caiso_scraper.py:46 | a number below 10^width printed zero-padded to that width reads back as the same number |
| Times.ParseTime | caiso_scraper.py:46 | only a 19-character string can be read as a `%Y%m%dT%H:%M%z` stamp |
| Times.FormatTime | caiso_scraper.py:46 | no contract of its own; its layout is stated by `FormatTimeFields` and `FormatTimeRoundTrip` |
| Times.OffsetSplit | caiso_scraper.py:46 | an offset of less than a day in minutes splits into two-digit `%z` hours and minutes that recombine to it |
| Times.FormatTimeFields | caiso_scraper.py:46 | the formatted stamp is 19 characters: 4-digit year, 2-digit month, day, `T`, hour, `:`, minute, sign, offset hours and minutes, each at its fixed position |
| Times.ParseTimeFields | caiso_scraper.py:46 | a string with the fields of a valid stamp at their positions parses to that stamp |
| Times.FormatTimeRoundTrip | caiso_scraper.py:39-46 | every valid stamp formatted with `%Y%m%dT%H:%M%z` parses back to itself, so the layout loses nothing |
| Times.FormatDate | caiso_scraper.py:181 | no contract of its own; its layout and round trip are stated by `FormatDateRoundTrip` |
| Times.ParseDate | caiso_scraper.py:181 | only a 10-character string can be read as a `YYYY-MM-DD` date |
| Times.FormatDateRoundTrip | caiso_scraper.py:181 | `date()` printed as `YYYY-MM-DD` is 10 characters and parses back to the same date |
| Markets.MarketName | caiso_scraper.py:56 | no contract of its own; the name of each supported market, which `ParseMarket` inverts and `OutputName` writes into the file name |
| Markets.ParseMarket | caiso_scraper.py:56 | a market name is accepted exactly when it is RT5, RT15 or DA, and the accepted market's name is the input |
| Markets.ParseMarketName | caiso_scraper.py:56 | every supported market's name passes the line-56 assert and is read back as that market |
| Markets.ChunkPeriod | caiso_scraper.py:125 | the chunk period is 1 day for RT5, 15 for RT15 and 30 for DA |
| Markets.PriceColumnOf | caiso_scraper.py:156 | the price column is PRC exactly for RT15, MW for DA and RT5 |
| Markets.SpanLimit | caiso_scraper.py:72-81 | no contract of its own; the span above which a query raises an advisory: none for DA, 1 day for RT5, 15 days for RT15, which the advisory clauses of `QueryFor` use |
| Markets.QueryFor | caiso_scraper.py:57-83 | the parameters carry the node, version 1, result format 6 and both formatted times; DA gives PRC_LMP/DAM, RT5 PRC_INTVL_LMP/RTM, RT15 PRC_RTPD_LMP/RTPD; an advisory is raised exactly when an RT5 span exceeds 1 day or an RT15 span exceeds 15 days |
| Markets.GetQueryParams | caiso_scraper.py:49-83 | fails with the market's name exactly when the market is not RT5, RT15 or DA; otherwise gives that market's query |
| Markets.ReportTableInjective | caiso_scraper.py:67-79 | different markets never send the same report name and market run id |
| Markets.QueryTimesRoundTrip | caiso_scraper.py:59-60 | the start and end parameters parse back to the stamps of the window's ends |
| Windows.ChunkStarts | caiso_scraper.py:126 | no contract of its own; its shape is stated by `ChunkStartsShape`, `ChunkStartsClosedForm` and `ChunkStartsIncreasing` |
| Windows.ChunkStartsShape | caiso_scraper.py:126 | the chunk starts are empty exactly when start is after end; otherwise the first is start, consecutive starts differ by the period, all lie in [start, end], and the last is within one period of end |
| Windows.ChunkStartsClosedForm | caiso_scraper.py:126 | the j-th chunk start is start + j·k |
| Windows.ChunkStartsIncreasing | caiso_scraper.py:126 | chunk starts are strictly increasing, so no two windows share a key |
| Windows.Window | caiso_scraper.py:142-147 | `ts` is the chunk start; start ≤ ts ≤ te ≤ end and te − ts ≤ k; te is the next chunk start when end − ts > k and end otherwise; the last window ends at end |
| Windows.WindowShift | caiso_scraper.py:142-147 | window i+1 of a range is window i of the same range started one period later, so windows are computed the same way at every position |
| Windows.WindowsCover | caiso_scraper.py:142-147 | every day of [start, end] lies in some window |
| Windows.NoSpanAdvisory | caiso_scraper.py:73-81 | no window that `scrape_daterange` queries raises a span advisory |
| Windows.ThreeDaysOfRt5 | caiso_scraper.py:125-147 | RT5 from day 1 to day 3 has starts 1, 2, 3 and windows [1,2], [2,3], [3,3] |
| Windows.ShortDayAheadRange | caiso_scraper.py:125-147 | a DA range shorter than 30 days is a single window from start to end |
| Prices.PriceIn | caiso_scraper.py:162 | no contract of its own; the `[pricecol]` projection of a row: its MW price for `MW`, its PRC price for `PRC` |
| Prices.PointOf | caiso_scraper.py:162 | no contract of its own; a row's timestamp with its price on the given column, the point `LmpPointsMembers` speaks of |
| Prices.NoNulls | caiso_scraper.py:164 | no contract of its own; the `not isna().any()` assert: every point of the series has a price, as `NextAttempt` and `RunSeries` use it |
| Prices.Sorted | caiso_scraper.py:158 | no contract of its own; the order `sort_index()` leaves: timestamps never decrease along the series |
| Prices.Insert | caiso_scraper.py:158 | inserting a point adds exactly that point to the series' multiset |
| Prices.InsertSorted | caiso_scraper.py:158 | inserting a point into a time-sorted series keeps it sorted |
| Prices.SortByTime | caiso_scraper.py:158 | the result is sorted by timestamp and is a permutation of the input |
| Prices.LmpPoints | caiso_scraper.py:162 | the filtered series has at most as many points as there are rows; which points it keeps is stated by `LmpPointsMembers` |
| Prices.LmpPointsMembers | caiso_scraper.py:162 | a point is kept exactly when some row has type `LMP` and that point's timestamp and market price column |
| Prices.LmpSeries | caiso_scraper.py:158-162 | the window series is sorted by timestamp and holds, as a multiset, exactly the points of the `LMP` rows on the market's price column |
| Prices.LmpSeriesMembers | caiso_scraper.py:158-162 | a point is in the window series exactly when an `LMP` row gives it |
| Prices.Gather | caiso_scraper.py:180 | no contract of its own; its points are stated by `GatherMembers` and `GatherNothing` |
| Prices.GatherMembers | caiso_scraper.py:180 | a point is in the concatenation exactly when it is in the series stored under some chunk start |
| Prices.GatherNothing | caiso_scraper.py:180 | concatenating when nothing is stored gives nothing |
| Prices.Merge | caiso_scraper.py:180 | the merged series is time-sorted and is, as a multiset, the concatenation of the stored series |
| Prices.MergeMembers | caiso_scraper.py:180 | a point is in the merged series exactly when it is in some stored window series |
| Prices.MergeNothing | caiso_scraper.py:180 | merging an empty store gives the empty series |
| Orchestrator.Done | caiso_scraper.py:190 | no contract of its own; the completion test: succeeded (counter below 0) or at least max_n_attempts attempts |
| Orchestrator.AllComplete | caiso_scraper.py:135 | no contract of its own; `completion_srs.all()`: every completion flag is set, the exit test of the loop and the second half of the line-175 test |
| Orchestrator.Starts | caiso_scraper.py:126 | no contract of its own; `chunk_starts` for the whole range: `ChunkStarts` with the market's chunk period |
| Orchestrator.Cap | caiso_scraper.py:190 | the counter value at which a failing window stops, max(max_n_attempts, 1), is at least 1 and at least max_n_attempts, and equals max_n_attempts when that is positive |
| Orchestrator.Init | caiso_scraper.py:126-134 | the initial state satisfies the loop invariant, has one counter per chunk start, no request sent, an empty result and no file |
| Orchestrator.WindowQuery | caiso_scraper.py:142-154 | no contract of its own; the parameters of window `i`'s query, `QueryFor` on `Window`'s ends, whose properties `Window`, `QueryFor` and `NoSpanAdvisory` state |
| Orchestrator.Attempt | caiso_scraper.py:138-169 | no contract of its own; its effect on a pass is stated field by field by `StepQuerying` |
| Orchestrator.Answer | caiso_scraper.py:155 | no contract of its own; the answer of the `scrape_singlezip` call for window `i`: the oracle applied to the request number and `WindowQuery`'s parameters |
| Orchestrator.NextAttempt | caiso_scraper.py:157-169 | the counter becomes −1 exactly when the answer is a table whose LMP series has no null, and otherwise grows by exactly 1 |
| Orchestrator.Persist | caiso_scraper.py:179-186 | with something stored, the result and the written file become the merge of it; with nothing stored, both are kept |
| Orchestrator.Step | caiso_scraper.py:138-190 | one loop pass keeps one counter, flag and request count per window and `i` on a window |
| Orchestrator.Output | caiso_scraper.py:175-186 | no contract of its own; the line-175 test as it always evaluates inside the loop: `Persist` when caching continuously, otherwise the result and file as they were |
| Orchestrator.PersistOnlyWhenCaching | caiso_scraper.py:175 | without continuous caching a pass never writes the file |
| Orchestrator.StepAdvances | caiso_scraper.py:170-173 | `i` advances by one and wraps to 0 after the last window |
| Orchestrator.StepKeepsCompleted | caiso_scraper.py:138-190 | a complete window keeps its flag, counter, request count and stored series; only window `i` can change its counter; one request is sent exactly when window `i` is pending |
| Orchestrator.Skipped | caiso_scraper.py:138-190 | no contract of its own; the pass over a complete window, field by field: only `i` advances and, when caching, the result and file become what `Persist` gives |
| Orchestrator.Queried | caiso_scraper.py:138-190 | no contract of its own; the pass over a pending window, field by field: one request, the counter and the refreshed flag of window `i`, the series stored before the null check and the line-175 test on the unrefreshed flags |
| Orchestrator.StepSkipping | caiso_scraper.py:138-190 | a pass over a complete window changes nothing but `i` and, when caching, the merged result and file |
| Orchestrator.StepQuerying | caiso_scraper.py:138-190 | a pass over a pending window sends one request, overwrites that window's stored series when a table comes back, updates its counter, and sets the flag of the window just queried from the new counter |
| Orchestrator.DistinctKeys | caiso_scraper.py:163 | distinct windows are stored under distinct chunk starts |
| Orchestrator.QueryKeeps | caiso_scraper.py:138-190 | a query of window `i` leaves every other window's counter and request count, and every complete window's flag and stored series, as they were |
| Orchestrator.NullSeriesStored | caiso_scraper.py:158-169 | a table whose LMP series holds a null is stored anyway, and the attempt counts as a failure |
| Orchestrator.SkipValid | caiso_scraper.py:138-190 | passing over a complete window keeps the loop invariant |
| Orchestrator.QueryWindowsOk | caiso_scraper.py:138-190 | a query keeps every window's counter, flag, request count and stored series consistent |
| Orchestrator.QueryOutputOk | caiso_scraper.py:163-186 | a query keeps every stored series sorted and keyed by a chunk start; when caching, the result stays the merge of the stored series and, once anything is stored, the file holds it |
| Orchestrator.QueryValid | caiso_scraper.py:138-190 | a query of a pending window keeps the loop invariant |
| Orchestrator.StepValid | caiso_scraper.py:135-190 | a pass preserves the loop invariant |
| Orchestrator.StepProgress | caiso_scraper.py:135-190 | every pass decreases the termination measure: remaining attempt budget, then distance to the next pending window |
| Orchestrator.RunStep | caiso_scraper.py:135-190 | a pass keeps the invariant, lowers the termination measure and leaves the final state of the run unchanged |
| Orchestrator.Run | caiso_scraper.py:135 | the loop terminates, every window ends complete, the invariant holds at the end, and windows complete at the start keep their counters, request counts and stored series |
| Orchestrator.RunAttempts | caiso_scraper.py:128-190 | at the end every counter is −1 or the cap; each window was requested at least once and at most max(max_n_attempts, 1) times; the requests number between n and n·cap |
| Orchestrator.RunSeries | caiso_scraper.py:163-186 | at the end every succeeded window holds a null-free series, every stored series is sorted and keyed by a chunk start, and when caching the result is the sorted merge of all of them and, once anything is stored, the file holds that merge; without caching no file is written |
| Orchestrator.EmptyRange | caiso_scraper.py:126-135 | start after end: no request, an empty result and no file |
| Orchestrator.StepReliable | caiso_scraper.py:138-190 | with an oracle that always returns null-free tables, complete windows have one request each and pending ones none |
| Orchestrator.QueryReliable | caiso_scraper.py:157-169 | with such an oracle a query completes its window with one request |
| Orchestrator.RunReliable | caiso_scraper.py:135-190 | with such an oracle every window succeeds with exactly one request |
| Orchestrator.AbsentFailures | caiso_scraper.py:135-190 | absent failures the run sends exactly one request per window and every counter ends at −1 |
| Orchestrator.IntendedStep | caiso_scraper.py:138-190 | the corrected pass sends the same request and leaves the same counters, flags and stored series as `Step`; it differs from `Step` only on the pass that completes the last window, which, once anything is stored, ends with the merge of everything stored as result and file |
| Orchestrator.IntendedRun | caiso_scraper.py:135-190 | the corrected loop terminates with every window complete |
| Orchestrator.IntendedRunAgrees | caiso_scraper.py:135-190 | from any state inside the loop, the corrected run sends the same requests and stores the same series as the run as written, and ends with the merge of the stored series as its result and file whenever something is stored |
| Orchestrator.IntendedRunWrites | caiso_scraper.py:175 | for either value of `cache_continuously`, the corrected run from the initial state ends with the sorted merge of all stored series as result and file content, once anything is stored |
| Orchestrator.UncachedRunWritesNothing | caiso_scraper.py:175 | without continuous caching, when every request is answered with a null-free table, every window succeeds and has a series stored, yet no file is written |
| Orchestrator.OutputName | caiso_scraper.py:181 | no contract of its own; its head, tail and dates are stated by `OutputNameRange` |
| Orchestrator.OutputNameRange | caiso_scraper.py:181 | the file name starts with `LMP_`, ends with `.csv`, and the start and end dates read back from its tail |
| Scraper.QueryWindow | caiso_scraper.py:142-169 | querying window `i` sets only its counter, to `NextAttempt` of the answer, and stores and returns the LMP series when a table comes back |
| Scraper.QueriedPass | caiso_scraper.py:142-190 | a pass that queries window `i` changes the arrays and variables as `Queried` describes |
| Scraper.SkippedPass | caiso_scraper.py:138-190 | a pass over a complete window changes the arrays and variables as `Skipped` describes |
| Scraper.LoopPass | caiso_scraper.py:138-190 | one pass over the arrays and variables performs exactly one `Step` |
| Scraper.Loop | caiso_scraper.py:135-190 | the loop, from any state satisfying the invariant, leaves the arrays and variables exactly as `Run` computes |
| Scraper.ScrapeDaterange | caiso_scraper.py:108-191 | fails exactly for an unknown market; otherwise returns the series, file name, written content, counters and request count of `Run` from the initial state |

## Left out

- The HTTP request, zip, CSV and XML decoding, and the error-description lookup (`scrape_singlezip`, lines 86-105) are the `fetch` oracle. A table that lacks the timestamp, type or price column is a `NoTable` answer.
- Exceptions that `scrape_singlezip` lets escape: any exception from `requests.get` (line 88) or from the XML fallback (lines 100-101), such as malformed XML or an empty archive. These end the whole run in the source. The oracle always answers, so the model does not capture them.
- `time.sleep(5)` (line 174) has no logical effect. The prints have none either.
- `to_csv` is I/O, and so is the join with `store_path` (lines 123-124, 181-182). The model records the written content and the file name; the directory is not kept.
- `parse_args` and `main` (lines 14-36, 194-220) are command-line glue over argparse and pandas date parsing.
- pytz localisation and conversion in `format_time` (lines 43-45) depend on the tz database. They are the parameter `stampOf`; the calendar date of a day is the parameter `dateOf`.
- Times.FormatTimeRoundTrip: covers years 0-9999 zero-padded to four digits and offsets in whole minutes. `%z` with seconds, and platforms that do not pad years below 1000, are not modelled.
- The retention-horizon warning (line 63) needs `datetime.now()` and the float factor 30.3.
- Prices are floats in the source; here they are opaque values with an optional null.
- `result_freq` (line 130) is never used, and the validation at line 187 is only a TODO.
- Prices.LmpSeries: sorts after filtering, while the source sorts the whole table and then filters. Both keep the same points in timestamp order. They can differ only in the order of rows with equal timestamps, which pandas' default sort does not fix either.
- Prices.Merge: concatenates the stored series in chunk-start order, not in dict insertion order. So it too is fixed only up to the order of equal timestamps.
- Strictly increasing timestamps across window boundaries are not proved. Neighbouring windows share an endpoint, and whether the provider returns the boundary interval twice lies outside the model.

## Findings

| source | as written | input that shows it | evidently intended | confidence | as-written member | corrected member |
|---|---|---|---|---|---|---|
| caiso_scraper.py:175 | `completion_srs.all()` is tested before the flag refresh at line 190, so it is never true there and, without continuous caching, nothing is merged or written | `cache_continuously=False`, any range with start ≤ end, every request answered with a null-free table | once every window is complete, merge the stored series, return the merge and write it to the file (docstring line 119, comment lines 176-178) | high; not executed | Orchestrator.UncachedRunWritesNothing | Orchestrator.IntendedRunWrites |

`Scraper.ScrapeDaterange` and `Orchestrator.Run` keep modelling the code as written. The
corrected pass `Orchestrator.IntendedStep` refreshes the flag of the window just queried
before the line-175 test. `Orchestrator.IntendedRunAgrees` shows that the change affects
only the final result and file.
