# Vapi call-log exporter: verified model of the fetch and filter core

The exporter is a batch job. For each configured assistant it pages through
the Vapi call-log API. It then keeps the calls that are long enough and not
from an excluded number, and writes them, under a header row, to one tab of
a Google spreadsheet.

This project models the logic between the network and the spreadsheet:

- `call_records.dfy`: the call object as the API returns it. Every key the
  code reads is an `Option`. The module also holds the `"N/A"` defaults for
  the customer number, summary and success evaluation, and the fixed list of
  excluded phone numbers.
- `duration.dfy`: `calculate_duration`. Every `Z` is rewritten to `+00:00`.
  Then both timestamps go through an ISO-8601 parser, and the result is end
  minus start in seconds. The parser is a parameter `string -> Option<real>`;
  `None` stands for the `ValueError` that `datetime.fromisoformat` raises.
- `filter.dfy`: `filter_calls` as a `for` loop that appends rows
  (`FilterCalls`). It is proved equal to the specification function
  `Filtered`, and order, threshold, exclusion, row shape and per-record
  failure tolerance are proved about `Filtered`. `Classify` names the
  outcome of each branch of the loop body.
- `pagination.dfy`: `fetch_call_logs` as a `while true` loop. The loop
  extends the result and moves the `createdAtLt` cursor. The HTTP endpoint
  is a function from the query (`Request`) to the page it answers. The
  method returns the requests it sent, and `IsTrace` states what that
  sequence must be. `PaginationScenario` works through a server that
  answers pages of 100, 100 and 37 calls.
- `sheet.dfy`: the payload (header row plus rows), the per-sheet export up
  to the write (`update_*`), and `main`'s choice of sheets by name.

API timestamps end in a UTC `Z`. `str.replace('Z', '+00:00')` rewrites every
`Z`, not only a trailing one, and `NormalizeZ` follows the code.
`TrailingZIsUtc` and `ZuluMeansUtc` state the trailing case.

Durations are `real`, because `total_seconds()` returns a float. The
threshold is a `real` parameter whose default, `Filter.DefaultMinDuration`,
is 20.

## Model

| member | source | states |
|---|---|---|
| `CallRecords.PhoneNumber` | main.py:79 | the phone number is the customer's `number` when there is one, otherwise "N/A" |
| `CallRecords.Summary` | main.py:81-88 | the summary is the analysis' `summary` when there is one, otherwise "N/A" |
| `CallRecords.SuccessEvaluation` | main.py:81-89 | the success evaluation is the analysis' `successEvaluation` when there is one, otherwise "N/A" |
| `CallRecords.MissingNumberIsNotExcluded` | main.py:79-80 | a missing customer or number is reported as "N/A", and "N/A" is not an excluded number |
| `CallRecords.PresentFieldsAreCopied` | main.py:79-89 | a present number, summary or success evaluation is used as it is; a missing analysis object gives "N/A" for both of its fields, and a present analysis without `summary` or `successEvaluation` gives "N/A" for that field |
| `Duration.NormalizeZ` | main.py:67-68 | no 'Z' is left after the rewrite, and the text never gets shorter |
| `Duration.NormalizeZAppend` | main.py:67-68 | the rewrite works character by character, so it distributes over concatenation |
| `Duration.NormalizeZWithoutZ` | main.py:67-68 | a timestamp without 'Z' reaches the parser unchanged |
| `Duration.NormalizeZIdempotent` | main.py:67-68 | rewriting twice is the same as rewriting once |
| `Duration.TrailingZIsUtc` | main.py:67-68 | a trailing 'Z' becomes the offset "+00:00" |
| `Duration.ZuluNormalizesAsOffset` | main.py:67-68 | "…Z" and "…+00:00" reach the parser as the same text |
| `Duration.CalculateDuration` | main.py:66-70 | the duration exists exactly when both normalised timestamps parse, and then start plus duration equals end |
| `Duration.ZuluMeansUtc` | main.py:66-70 | for any parser, a trailing 'Z' on either timestamp gives the same duration as "+00:00" |
| `Filter.Row` | main.py:82-91 | a row has 8 cells, the duration in the third as a number and text in the other seven |
| `Filter.Classify` | main.py:76-93 | the fate of one call: skipped exactly when a timestamp is missing; a parse error only when the duration does not parse and `id` exists; too short only when the duration is at most the threshold; excluded only for a listed number; KeyError only when `id` or `transcript` is missing; a row only when `id` and `transcript` exist and the number is not listed |
| `Filter.Filtered` | main.py:73-94 | the output has at most one row per input call |
| `Filter.FilterCalls` | main.py:73-94 | the loop's output equals `Filtered` of the whole input, provided no qualifying call lacks `id` or `transcript` and no unparseable call lacks `id` |
| `Filter.KeptIndices` | main.py:74-94 | the indices of the emitting calls, strictly increasing, each one emitting, and every emitting index present |
| `Filter.KeptIndicesSnoc` | main.py:75-91 | one more call adds its own index when it emits, and nothing otherwise |
| `Filter.FilteredSelectsInOrder` | main.py:74-94 | the output is the rows of exactly the emitting calls, in input order: a subsequence of the input mapped to rows |
| `Filter.FilteredAppend` | main.py:75-94 | each record is handled on its own: the output for `a + b` is the output for `a` then the output for `b` |
| `Filter.SkippedCallLeavesOthers` | main.py:76-93 | a call that the loop skips (missing timestamp, parse error, too short, excluded; not one that raises KeyError) leaves the rows of the calls before and after it as they were; processing continues after a ValueError |
| `Filter.FilteredSingleton` | main.py:75-91 | one call contributes its own row or nothing |
| `Filter.ClassifyEmitsExactly` | main.py:76-91 | a call is emitted if and only if both timestamps are present, the duration parses, it is strictly above the threshold, the number is not excluded, and `id` and `transcript` exist; its row is then `Row` |
| `Filter.EmittedRowShape` | main.py:81-91 | an emitted row has 8 cells in this order: id, phone, duration (above the threshold and equal to the computed duration), startedAt, endedAt, summary or "N/A", successEvaluation or "N/A", transcript |
| `Filter.EveryRowQualifies` | main.py:80-91 | every output row has 8 cells, a number in the duration column strictly above the threshold, and a phone number not on the exclusion list |
| `Filter.AtThresholdIsDropped` | main.py:73-80 | a duration exactly equal to the threshold is excluded; the output is as if the call were absent |
| `Filter.ExcludedNumberIsDropped` | main.py:79-80 | a call from an excluded number (and with the `id` a parse warning would read) is never emitted, however long it is, and the output is as if it were absent |
| `Filter.DroppedCallIsInvisible` | main.py:75-94 | removing a call that the loop skips (not one that raises KeyError) does not change the output |
| `Filter.MissingTimestampsNeverRaise` | main.py:76 | calls missing `startedAt` or `endedAt` need no other key (nothing can raise) and produce no rows |
| `Pagination.FirstRequest` | main.py:34-37 | the first request names the assistant, asks for 100 calls and carries no cursor |
| `Pagination.NextRequest` | main.py:60 | the next request keeps the assistant and the limit; its cursor is the `createdAt` of the last call of the page |
| `Pagination.Pages` | main.py:49 | the k-th page is the server's answer to the k-th request |
| `Pagination.FetchCallLogs` | main.py:30-63 | the requests sent form the trace: the first has no cursor; each later one carries the `createdAt` of the last call of the previous, full page; the last page is the first one shorter than 100. The result is the concatenation of the pages in request order |
| `Pagination.FetchGoesOn` | main.py:49-60 | after a full page the loop's state moves one request further along the cursor chain: the page is appended and the cursor advanced |
| `Pagination.FetchEnds` | main.py:49-54 | after a short page the requests sent form the whole trace and the result holds every page |
| `Pagination.TraceGoesOn` | main.py:53-60 | a full page whose last call has `createdAt` extends a trace prefix by one request |
| `Pagination.TraceEnds` | main.py:53-54 | a short page completes a trace prefix into a trace |
| `Pagination.ChainStep` | main.py:60 | after a non-empty page the chain's next request carries that page's last `createdAt` |
| `Pagination.ChainKeepsQuery` | main.py:34-60 | every request of the cursor chain names the same assistant and asks for 100 calls |
| `Pagination.TraceAt` | main.py:40-60 | the k-th request of a trace is the k-th request of the cursor chain |
| `Pagination.PagesSnoc` | main.py:42-49 | sending one more request adds its answer as the last page |
| `Pagination.FlattenSnoc` | main.py:49 | extending the result by one page appends that page's calls |
| `Pagination.TraceKeepsQuery` | main.py:34-37 | every request carries the same `assistantId` and `limit` 100; only `createdAtLt` changes |
| `Pagination.TraceFollowsChain` | main.py:40-60 | the k-th request of a run is the k-th request of the cursor chain, and the run ends at the first short page |
| `Pagination.TraceIsUnique` | main.py:40-60 | the server's answers determine the run: there is only one trace |
| `Pagination.ShortFirstPageIsOnlyRequest` | main.py:51-54 | when the first page has fewer than 100 calls, exactly one request is sent |
| `Pagination.FlattenAppend` | main.py:49 | extending with more pages appends their calls |
| `Pagination.FlattenLength` | main.py:49 | the result holds as many calls as all the pages together |
| `PaginationScenario.StubServerPaginates` | main.py:40-60 | with pages of 100, 100 and 37 calls, the loop ends after the third request |
| `PaginationScenario.ThreePageRun` | main.py:40-60 | with pages of 100, 100 and 37 calls there are exactly 3 requests; the 2nd and 3rd carry the previous page's last `createdAt`, and 237 calls are returned |
| `Sheet.SheetValues` | main.py:113 | the payload starts with the header and then holds the rows in order, one more entry than there are rows |
| `Sheet.RangeName` | main.py:112 | the range is the sheet name followed by "!A1:H" |
| `Sheet.RangeNameInjective` | main.py:112-136 | two targets share a range exactly when they share a sheet name |
| `Sheet.PayloadShape` | main.py:113 | the payload is the header followed by the filtered rows, 1 + rows long, with 8 cells in every row |
| `Sheet.Plan` | main.py:142-159 | no name selects all four sheets in order; a known name selects exactly that sheet; an unknown name selects none |
| `Sheet.ExportValues` | main.py:109-113 | one sheet's payload is the header over the filtered (threshold 20) concatenation of the pages of the unique trace, written to the target's range |

## Left out

- HTTP requests, `raise_for_status` and JSON decoding are not modelled. The endpoint is a function `Request -> seq<CallRecord>`, so an HTTP failure that aborts the run is not represented.
- The bearer token header is not modelled, and neither are the base URL and the resolution of environment variables to assistant ids. `Sheet.Target` names the environment variable instead.
- `Pagination.FetchCallLogs`: it requires that the loop ends, i.e. that some page of the cursor chain is short. It also requires that every full page's last call carries `createdAt`. A server that always answers full pages makes the source loop forever, and a missing `createdAt` raises KeyError; neither is modelled.
- `Filter.FilterCalls`: it requires that no call raises KeyError. That means `id` and `transcript` on every call that passes the filter, and `id` on every call whose duration fails to parse. The uncaught crash itself is not modelled.
- `datetime.fromisoformat` and the float arithmetic of `total_seconds` are not modelled. Parsing is an arbitrary parameter and durations are exact reals. Subtracting a naive timestamp from an offset-aware one raises TypeError, which the source does not catch; this is not modelled either.
- JSON `null` values are not modelled: a key is either absent or holds a string (or an object for `customer` and `analysis`). In the source a `null` behaves as follows, and none of it is modelled:
  - a `null` `startedAt` or `endedAt` raises AttributeError at `.replace`;
  - a `null` `customer` or `analysis` raises AttributeError at `.get`;
  - a `null` `id`, `number`, `summary`, `successEvaluation` or `transcript` goes into the row as `None`, and a `null` `number` is therefore not excluded;
  - a `null` `createdAt` on the last call of a full page becomes the cursor of the next request.
- A `summary` or `successEvaluation` that is not a string, such as a boolean evaluation, is not modelled: these fields are strings.
- The Google Sheets authentication, the `values().update` call with `USER_ENTERED` and the returned `updatedCells` count are foreign library calls. They are not modelled.
- `print` output is not modelled: the total fetched, the per-call warning, the per-sheet cell count and "Invalid sheet name".
- Environment loading (`load_dotenv`, `os.getenv`) is not modelled.
- Command-line handling is not modelled: `main` with more than one argument exits with a usage error.
