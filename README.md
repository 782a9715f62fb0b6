# yahoo-finance chart client, modelled in Dafny

This project models `yf/client.go` of the Go package `yahoo-finance`. The package is a small client for the Yahoo Finance chart endpoint, in two parts:

- **The query builder.** A `YahooClient` holds a ticker, a URL, a time selection (`TimePeriod`: a kind code `TPT_FIXED`/`TPT_PERIOD`/`TPT_RANGE` with two strings) and a price interval. `NewYahooClient` starts from fixed defaults with a hard-coded v7 download URL. It then runs its functional options (`WithSpecificDate`, `WithPriceInterval`, `WithTimePeriod`, `WithDateRange`) in order. Each option overwrites a field and calls `updateUrl`, which re-renders the v8 chart URL from the fields. `convertToUnixTimestamp` turns a date into decimal Unix seconds, or into "" when the date is empty or does not parse.
- **The loaders.** `Load` and `LoadMatrix` fetch the URL and reject any status other than 200. They decode the JSON, then walk every result, quote block and sample index. Each sample whose volume is positive gives one candle (`Load`) or one six-column matrix row labelled by its timestamp (`LoadMatrix`).

Modules:

- `Wrappers`: `Option`.
- `Decimal`: `strconv.FormatInt` in base 10, plus a decimal parser used as its inverse.
- `Query`: the client state as a value, and the pure rendering and option functions that specify the class.
- `Chart`: the decoded payload, the two projections as functions, and the loops of `Load` and `LoadMatrix` as methods proved against those functions. It also states the exact conditions under which each loop reads only existing indices.
- `Client`: the class `YahooClient`, with its constructor, option application, `UpdateUrl`, `Load` and `LoadMatrix`, and properties that relate the two loaders.

The system around the client becomes parameters of the model:

- **Time parsing and formatting.** `time.Parse` with `Unix()` is a `Parser` (`string -> Option<int>`). `time.Unix(t, 0).Format` is a `Formatter` (`int -> string`).
- **Transport.** `http.Get` followed by the first `ReadAll` is a `Fetcher`. It returns the transport error, or the status and the body.
- **Decoding.** `json.Unmarshal` is a `Decoder`. It returns the decoding error or the `ChartData`.
- **Panics.** A Go runtime panic (index out of range) is the outcome `Panicked`. It happens exactly when the loop's no-panic predicate fails: `Chart.LoadInBounds` for `Load`, `Chart.MatrixInBounds` for `LoadMatrix`.

## Model

The rows that state the client's behaviour as a whole are `Query.NewClientFields` and `Query.ApplyAllLastWriteWins` (the builder), `Chart.PositionsExactly` with `Chart.CandlesFollowPositions` (`Load`), and `Chart.RowsFollowPositions` with `Chart.AlignedRowsMatchCandles` (`LoadMatrix`). Rows marked "(proof step)" are lemmas used on the way to those; they cite the lines whose loop they reason about.

| member | source | states |
|---|---|---|
| Decimal.FormatIntRoundTrip | yf/client.go:96 | the base-10 text of any int64 Unix time is a well-formed decimal that parses back to that number |
| Decimal.NegativeRoundTrip | yf/client.go:96 | a minus sign followed by the digits of a positive number is a decimal that reads back to the negated number |
| Decimal.DigitsRoundTrip | yf/client.go:96 | the digits of a natural number are non-empty, all decimal digits, and denote that number |
| Decimal.Digits | yf/client.go:96 | the digits are non-empty decimal digits and start with '0' only for zero |
| Decimal.FormatInt | yf/client.go:96 | the text is non-empty, starts with '-' exactly for negative numbers, and is "0" exactly for zero |
| Query.ConvertToUnixTimestamp | yf/client.go:92-102 | the result is "" exactly when the date is empty or does not parse; otherwise it is the decimal text of the parsed Unix seconds |
| Query.TimeSegment | yf/client.go:106-118 | the time segment starts with `range=` exactly when the kind is not TPT_FIXED |
| Query.Applied | yf/client.go:54-90 | an option keeps the ticker and leaves the URL rendered from the new fields; WithPriceInterval sets the interval and keeps the selection; the others keep the interval; WithDateRange renders `range=1d` |
| Query.ApplyAll | yf/client.go:131-133 | running options keeps the ticker; no options leave the client as it is; otherwise the URL is rendered from the final fields |
| Query.NewClient | yf/client.go:121-135 | the client has the given ticker; without options it keeps the default URL, selection and interval; with options its URL is the rendering of its fields |
| Query.NoOptionDefaults | yf/client.go:121-130 | without options the client has interval "1d", selection {TPT_FIXED, "1wk", ""} and the literal v7 download URL |
| Query.DefaultUrlIsNotRendered | yf/client.go:119-129 | the default v7 URL differs from every URL updateUrl can render, for any ticker and fields |
| Query.RenderedUrlShape | yf/client.go:119 | the rendered URL starts with the v8 chart prefix, the ticker, `?symbol=`, the ticker and `&`, and ends with the fixed includePrePost/events/corsDomain suffix |
| Query.UrlDeterminedBySegment | yf/client.go:104-119 | for a fixed ticker and interval, two selections render the same URL if and only if they render the same time segment |
| Query.ApplyAllAppend | yf/client.go:131-133 | running options a then b equals running a + b: options compose left to right |
| Query.ApplyTwiceIsOnce | yf/client.go:54-90 | each option's closure is idempotent |
| Query.ApplyAllDuplicate | yf/client.go:54-133 | applying an option twice in a row, at any point of the list, gives the same client as applying it once |
| Query.SelectionOverwrites | yf/client.go:54-90 | a time-selection option after another leaves no trace of the first |
| Query.IntervalCommutesWithSelection | yf/client.go:54-90 | setting the interval and setting a time selection commute |
| Query.ApplyAllLastWriteWins | yf/client.go:54-133 | after an option list the ticker is unchanged; the selection and interval are those of the last option setting them; the URL is rendered from the fields unless the list is empty |
| Query.NewClientFields | yf/client.go:121-135 | NewYahooClient's result read off its options; its URL is the default one exactly when there are no options, and the rendered one otherwise |
| Query.DateRangeIgnoresArgument | yf/client.go:82-118 | WithDateRange gives the same client for every argument; it stores {TPT_RANGE, "1wk"}, which renders as `range=1d` |
| Query.OtherKindsRenderOneDay | yf/client.go:107-118 | every kind other than TPT_FIXED and TPT_PERIOD, TPT_RANGE included, renders `range=1d` |
| Query.TimePeriodRendersStartOnly | yf/client.go:71-117 | TPT_PERIOD renders `range=<start>`; the end date never reaches the URL |
| Query.FixedDateRendersWindow | yf/client.go:110-113 | TPT_FIXED with date d renders `period1=<d 00:00>&period2=<d 23:59>`, each empty when its parse fails, so rendering never fails |
| Query.EntryPointExample | main.go:10 | the entry point's options (5m, date range 1d) give interval "5m", selection {TPT_RANGE, "1wk"}, segment `range=1d` and the rendered URL |
| Client.YahooClient.constructor | yf/client.go:121-135 | the new client's fields equal the defaults with every option applied in order |
| Client.YahooClient.Apply | yf/client.go:54-90 | running an option's closure changes the client exactly as the option's specification says |
| Client.YahooClient.UpdateUrl | yf/client.go:104-120 | only the URL changes, to the rendering of ticker, time selection and interval |
| Client.FetchChart | yf/client.go:166-179 | a transport error is passed on unchanged; a status other than 200 gives the status message; a decoding error of a 200 reply is passed on unchanged; a chart comes out exactly when the status is 200 and decoding succeeds |
| Client.StatusMessage | yf/client.go:173 | the error text starts with `Statuscode: `, ends with ` - Body: ` followed by the reported body, and the status reads back from the text between `Statuscode: ` and ` - Body: ` |
| Client.LoadOf | yf/client.go:164-201 | Load fails exactly when fetching fails, with the same error; it panics exactly when a chart arrives and an index is out of range; on success it returns the last result's metadata |
| Client.LoadMatrixOf | yf/client.go:203-241 | LoadMatrix fails exactly when fetching fails, with the same error; it panics exactly when a chart arrives and an index is out of range; on success it returns the last result's metadata |
| Client.YahooClient.Fetch | yf/client.go:166-179 | the request, the status test and the decoding give the shared outcome of both loaders |
| Client.YahooClient.Load | yf/client.go:164-201 | Load returns the error, a panic when an index is out of range, or the last result's metadata with the candles of the kept samples |
| Client.YahooClient.LoadMatrix | yf/client.go:203-241 | LoadMatrix returns the error, a panic when an index is out of range, or the last result's metadata with the matrix rows |
| Client.LoadersFailAlike | yf/client.go:166-179 | both loaders fail in exactly the same cases, with the same error |
| Client.LoadedCandlesAreKeptSamples | yf/client.go:164-201 | a successful Load returns the last metadata and one candle per kept sample, in order, built from that sample |
| Client.LoadersAgreeOnLabels | yf/client.go:180-240 | when both loaders succeed, they return the same metadata and equally many entries, and row k carries candle k's timestamp |
| Client.StatusErrorIgnoresBody | yf/client.go:170-173 | the error for a status other than 200 is `Statuscode: <n> - Body: ` followed by nothing, whatever body the server sent |
| Client.NotFoundBodyIsLost | yf/client.go:170-173 | a 404 reply with body "Not Found" fails with exactly `Statuscode: 404 - Body: ` |
| Client.NotFoundMessage | yf/client.go:173 | the error text for status 404 with nothing left to read is exactly `Statuscode: 404 - Body: ` |
| Client.StatusMessageInjective | yf/client.go:173 | with the body read once and reported, the error text determines both the status and the body |
| Client.StatusCodeEndsAtSpace | yf/client.go:173 | in the error text the status digits run from position 12 to the first space after position 12 |
| Client.FormattedHasNoSpace | yf/client.go:173 | the status digits never contain a space |
| Chart.KeptExactly | yf/client.go:184-185 | the kept indices are exactly the i < n with a positive volume, strictly increasing, at most n of them |
| Chart.KeptAtLeastPosition | yf/client.go:184-185 | the k-th kept index is at least k |
| Chart.AlignedIsInBounds | yf/client.go:183-194 | when every array is at least as long as Open, Load reads only existing indices |
| Chart.PositionsExactly | yf/client.go:181-185 | the visiting order lists exactly the kept samples, each once, ordered by result, then quote block, then index |
| Chart.ResultPositionsExactly | yf/client.go:183-185 | within one result, the visited positions are exactly its kept samples, in quote-block and index order |
| Chart.QuotePositionsExactly | yf/client.go:184-185 | the positions of one quote block are exactly its samples with positive volume, in index order |
| Chart.ConcatOrdered | yf/client.go:181-185 | (proof step) concatenating two ordered position lists, all of the first before all of the second, stays ordered |
| Chart.QuoteCandlesFollowKept | yf/client.go:184-196 | in one quote block the k-th candle is built from index i of the k-th kept sample, and its timestamp from Timestamps[i] |
| Chart.ResultCandlesLength | yf/client.go:183-197 | the first quote blocks of a result give one candle per visited kept sample |
| Chart.LastBlockCandleAt | yf/client.go:183-196 | a candle of the last quote block added is built from the visited sample at the same place |
| Chart.EarlierBlockCandleAt | yf/client.go:183-196 | appending a quote block leaves the earlier candles and their samples in place |
| Chart.ResultCandleAt | yf/client.go:183-196 | candle j of a result is built from index i of the j-th visited kept sample, whose volume is positive |
| Chart.ResultCandlesFollowPositions | yf/client.go:183-196 | within one result the k-th candle is built from the k-th visited kept sample |
| Chart.CandlesLength | yf/client.go:180-200 | Load returns exactly one candle per kept sample |
| Chart.CandlesLastResult | yf/client.go:181-198 | the candles and the positions of the payload split at the last result, with equal lengths on each side |
| Chart.CandleAtPosition | yf/client.go:180-200 | candle k is the candle of the k-th kept sample |
| Chart.LastResultCandleAt | yf/client.go:181-196 | a candle of the last result is the candle of the kept sample at the same place in Load's order |
| Chart.KeptCandleOf | yf/client.go:184-196 | (proof step) a candle read from a sample with positive volume is that sample's candle |
| Chart.CandleOfPrefix | yf/client.go:181-196 | (proof step) a kept sample of the first m results has the same candle in the whole payload |
| Chart.CandlesFollowPositions | yf/client.go:180-200 | Load's candles are exactly the kept samples in result, quote block and index order, each with fields from index i and timestamp from Timestamps[i] |
| Chart.QuoteCandlesCount | yf/client.go:184 | one quote block gives at most len(Open) candles |
| Chart.ResultCandlesCount | yf/client.go:183-184 | one result gives at most the sum of len(Open) over its quote blocks |
| Chart.CandlesCount | yf/client.go:180-200 | Load returns at most as many candles as the payload has samples |
| Chart.InBoundsCovers | yf/client.go:184-185 | when Load completes, every Volume array covers its Open array |
| Chart.ZeroVolumeDroppedExample | yf/client.go:184-196 | volumes [0, 100, 50] give exactly the two candles of the second and third samples, in order |
| Chart.ProjectCandles | yf/client.go:180-200 | the loops of Load return the last result's metadata (the zero value without results) and exactly the specified candles |
| Chart.AppendResultCandles | yf/client.go:183-198 | the loop over one result's quote blocks appends exactly that result's candles |
| Chart.AppendQuoteCandles | yf/client.go:184-197 | the loop over one quote block appends exactly the candles of its kept samples |
| Chart.MatrixInBoundsCovers | yf/client.go:225-226 | when LoadMatrix completes, every Volume array covers its Open array |
| Chart.QuoteRowsLength | yf/client.go:225-236 | one quote block adds one row per kept sample |
| Chart.QuoteRowAt | yf/client.go:225-236 | the k-th row of a quote block is labelled by its k-th kept sample but valued at base + k |
| Chart.QuoteRowsAtCompactedIndex | yf/client.go:223-236 | a quote block gives one row per kept sample; row k is the row of the k-th kept sample i, labelled by Timestamps[i], with its values read at the running index base + k, which lies within every value array |
| Chart.FirstBlockReadsAtOrBefore | yf/client.go:223-236 | in the first quote block of a result, the values of the row for sample i are read at an index idx <= i |
| Chart.ResultRowsLength | yf/client.go:223-238 | a result adds one row per kept sample |
| Chart.ResultLastBlock | yf/client.go:224-238 | a result's rows and positions split at its last quote block |
| Chart.LastBlockRowAt | yf/client.go:224-236 | a row of the last quote block is labelled by its sample and valued at the result-wide running index |
| Chart.BlockRowReads | yf/client.go:225-236 | row j of a quote block whose rows start at base is labelled by its kept sample and valued at j |
| Chart.AppendedRowReads | yf/client.go:224-236 | (proof step) a row past the rows of the earlier quote blocks is read from the appended block |
| Chart.EarlierBlockRowAt | yf/client.go:224-236 | appending a quote block keeps row j and position j of the earlier blocks equal, so a row read from position j's sample at j stays so |
| Chart.ResultRowAt | yf/client.go:223-238 | the j-th row of a result is labelled by the result's j-th kept sample and valued at index j of that sample's quote block |
| Chart.ResultRowsAtCompactedIndex | yf/client.go:223-238 | the same for every j: idx counts the rows of the current result and does not restart per quote block |
| Chart.RowsLength | yf/client.go:221-239 | LoadMatrix adds exactly one row per kept sample |
| Chart.RowsLastResult | yf/client.go:221-238 | the rows and the positions of the payload split at the last result, with equal lengths on each side |
| Chart.OffsetCountsPositions | yf/client.go:221-238 | the rows of the results before result r number exactly the kept samples Load visits before it |
| Chart.OffsetOfPrefix | yf/client.go:221-238 | (proof step) the count of rows before result r does not depend on the results after it |
| Chart.RowOfSamplePrefix | yf/client.go:221-238 | (proof step) a row that belongs to a sample in the first m results still does in the whole payload |
| Chart.LastResultRowAt | yf/client.go:221-238 | a row of the last result belongs to its kept sample and is read at the row's place within that result |
| Chart.SampleRowAt | yf/client.go:221-236 | (proof step) a row read at j within its own result, placed after the rows of the earlier results, belongs to its sample |
| Chart.EarlierResultRowAt | yf/client.go:221-238 | appending a result keeps the earlier rows and positions in place |
| Chart.ResultRowLabel | yf/client.go:223-236 | row j of a result belongs to the result's j-th kept sample (positive volume, index below len(Open)); it is labelled by that sample's timestamp and its values are read at index j of its quote block |
| Chart.RowAtPosition | yf/client.go:221-239 | row k of the matrix belongs to the k-th kept sample p; it is labelled by p's timestamp and its values are read at index k - Offset(p.r) of p's quote block, where Offset(p.r) counts the rows of the earlier results |
| Chart.RowsFollowPositions | yf/client.go:220-240 | one row per kept sample, in Load's order; row k belongs to the k-th kept sample, is labelled by its Timestamps[i], has its values read at k minus the rows of the earlier results, and has ADJ_CLOSE equal to CLOSE |
| Chart.MisalignedRowExample | yf/client.go:223-235 | with volumes [0, 5], Load returns the second sample, but the row with its label carries the first sample's values and volume 0 |
| Chart.SingleBlockMatrixInBounds | yf/client.go:220-240 | with aligned arrays and at most one quote block per result, both loaders complete |
| Chart.AlignedSamplesInBounds | yf/client.go:225-235 | with aligned arrays and idx starting at 0, a quote block reads only existing indices |
| Chart.SecondBlockPanics | yf/client.go:223-235 | two one-sample quote blocks: Load completes but LoadMatrix reads index 1 of a one-element array |
| Chart.RowsOfAppend | yf/client.go:228-234 | (proof step) turning candles into rows distributes over concatenation |
| Chart.AlignedQuoteRowsMatch | yf/client.go:225-235 | with values read at i, a quote block's rows are its candles as rows |
| Chart.AlignedResultRowsMatch | yf/client.go:224-238 | with values read at i, a result's rows are its candles as rows |
| Chart.AlignedRowsMatchCandles | yf/client.go:220-240 | with values read at i, LoadMatrix completes wherever Load does and its rows are exactly Load's candles as rows |
| Chart.ProjectMatrix | yf/client.go:220-240 | the loops of LoadMatrix return the last metadata and exactly the specified rows |
| Chart.AppendResultRows | yf/client.go:223-238 | the loop over one result's quote blocks appends that result's rows, with idx reset to 0 |
| Chart.AppendedBlock | yf/client.go:224-238 | (proof step) appending one quote block's rows, started at the running count, extends the result's rows by one block |
| Chart.AppendQuoteRows | yf/client.go:225-237 | the loop over one quote block appends its rows and advances idx by its number of kept samples |
| Chart.SamplesInBoundsPrefix | yf/client.go:225-235 | (proof step) if the first n samples read within bounds, so do the first m <= n |
| Chart.BlocksInBoundsPrefix | yf/client.go:224-238 | (proof step) if the first n quote blocks read within bounds, so do the first m <= n |
| Chart.QuoteRowsStep | yf/client.go:226-235 | (proof step) one more sample adds a row exactly when its volume is positive, read at the current idx |
| Chart.ResultRowsStep | yf/client.go:224-238 | (proof step) one more quote block appends its rows, starting at the running count of kept samples |

## Left out

- HTTP transport, `ioutil.ReadAll` and `json.Unmarshal` are parameters (`Fetcher`, `Decoder`). The model covers only what the client does with their results.
- The internals of `time.Parse`, `time.Unix` and `Format` are parameters (`Parser`, `Formatter`). Time zones and the layout strings are not modelled.
- float64 values are kept as their 64 bits (`Float64`). The client only copies them.
- Chart.Row: its VOLUME column holds the integer volume. `LoadMatrix` stores `float64(volume)`, and that conversion is not modelled.
- `math.Matrix` of the fin-math package is not part of this model. The matrix is the list of its rows, each a label with six values in the order OPEN, HIGH, LOW, CLOSE, ADJ_CLOSE, VOLUME.
- Integers are unbounded. The Go `int` and `int64` ranges of timestamps, volumes and statuses are not modelled, and neither is the `int64(...)` conversion.
- Client.YahooClient.Load: the panic outcome is decided before the loops run. Go panics partway through, after appending to a result it never returns, so the observable outcome is the same.
- Client.YahooClient.LoadMatrix: the same as for `Load`.
- The error returns also carry the zero `MetaData` and a nil slice or matrix; `Failed` carries only the error.
- Query.ClientOption: `NewYahooClient` accepts any `func(*YahooClient)`; the model has only the package's four `With*` options, so `ApplyTwiceIsOnce`, `ApplyAllDuplicate` and the other option lemmas are stated for those four and not for options written by callers.
- Where the code departs from what its names and messages suggest, the model follows the code:
  - `WithDateRange` ignores its token and stores {TPT_RANGE, "1wk"}, which renders `range=1d` (`Query.DateRangeIgnoresArgument`).
  - `WithTimePeriod` renders `range=<start>` and never uses the end date (`Query.TimePeriodRendersStartOnly`).
  - The client without options keeps the selection {TPT_FIXED, "1wk"} and a hard-coded v7 download URL with `range=1mo&interval=1d`, which no rendering produces (`Query.NoOptionDefaults`, `Query.DefaultUrlIsNotRendered`).
  - Any status other than 200 fails, 2xx included.
  - A status error carries an empty body (see Findings).
  - A payload without the `chart` key is the decoder's business. `json.Unmarshal` leaves the result list empty in that case, and the loaders then return zero metadata and no data without an error.
  - The loops read `Volume[i]` for every `i` below `len(Open)`, and the other arrays for the kept samples. They do not limit themselves to the arrays' own lengths.

## Findings

| source | as written | input that shows it | evidently intended | confidence | as-written member | corrected member |
|---|---|---|---|---|---|---|
| yf/client.go:223-235 | `LoadMatrix` labels a row with `Timestamps[i]` but reads its values at the running row count `idx` | one quote block with volumes [0, 5]: the row labelled with the second timestamp carries the first sample's values and volume 0 | read the values at `i`, as `Load` does, so that the rows are `Load`'s candles | not executed | Chart.MisalignedRowExample | Chart.AlignedRowsMatchCandles |
| yf/client.go:223-224 | `idx` is reset per result but not per quote block, so a second quote block reads past its own arrays | one result with two quote blocks of one sample each, volume 5: `Load` completes, and `LoadMatrix` reads `Open[1]` of a one-element array and panics | read at `i` within each quote block, which completes wherever `Load` does | not executed | Chart.SecondBlockPanics | Chart.AlignedRowsMatchCandles |
| yf/client.go:170-173 | the status branch reads the body a second time, after the first `ReadAll` drained it, and reports that empty read | reply 404 with body "Not Found": the error is `Statuscode: 404 - Body: ` | report the body already read, so the error text determines status and body | not executed | Client.StatusErrorIgnoresBody | Client.StatusMessageInjective |
