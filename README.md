# bts-sync-stock-24: stock synchronisation, modelled in Dafny

`sync24.js` downloads a wholesaler's CSV stock feed and copies the stock of every product
to a Shopify store. This project models the deterministic parts of that job and proves what
they promise:

- **The row filter** (the stream's `'data'` handler). Each tokenised row becomes a record
  `{ean, stock}`, or the row is skipped. `ean` is taken verbatim and must be non-empty.
  `stock` is JavaScript's `parseInt(row.stock, 10)`. That means: leading white space, one
  optional sign, then the longest run of decimal digits, and NaN when there are no digits.
  Accepted records are pushed onto the `products` array, modelled as a class whose method
  appends to a sequence field.
- **`syncStockByBarcode`**: one record's retry chain against the platform. The platform is a
  script of replies per attempt. One reply answers the barcode lookup and one answers the
  inventory update. The chain ends as applied, skipped (no product), skipped (no inventory
  item) or failed. A connection reset (`ECONNRESET`) is retried after 3000 ms while the
  attempt number is at most 3. A failure reports `response.data`, else `response.body`,
  else `message`. A successful update is followed by a 1000 ms pause.
- **`processInBatches`**: the records in order, two to a batch, with a 1000 ms pause after
  every batch, the last partial batch included. It is an imperative `while` loop over a
  `batch` buffer, as in the source.
- **`downloadCSV`**: the glue between them. The rows of the feed are collected, and the batch
  driver runs once the stream has ended. A failed request or a stream error syncs nothing.

Everything the job does to the outside world is recorded as a trace of events:
`Lookup(barcode)`, `SetLevel(inventoryItemId, available)`, `Delay(ms)` and
`Resolved(barcode, outcome)`. `Resolved` marks where the source logs a record's final
outcome. The properties are stated over these traces.

Modules: `Wrappers` (Option), `IntParsing` (parseInt), `Trace` (events and filtering),
`Feed` (row filter and collector), `Sync` (per-record sync), `Batches` (batch driver) and
`Job` (the download job).

### Behaviour worth noting

- **Retries.** The guard `attempt <= 3` (sync24.js:94) retries after attempts 1, 2 and 3. A
  record that always resets is therefore tried four times.
  `Sync.AlwaysResetTriesFourTimes` proves the four lookups and three retry pauses.
- **Negative stock.** There is no sign check on the stock (sync24.js:31-36). `"-5"` is
  accepted as -5 (`IntParsing.ParseIntNegative`).
- **Which failure is retried.** A connection reset is retried whichever call it interrupts:
  the lookup or the update. The whole `try` block (sync24.js:64-92) is retried.

## Model

| member | source | states |
|---|---|---|
| IntParsing.ParseInt | sync24.js:31 | `parseInt(s, 10)`, NaN as `None`: nothing but white space is NaN, a digit right after the white space always gives a number and never a negative one, and a negative number needs a leading '-' |
| IntParsing.TrimStartSpec | sync24.js:31 | parseInt's first stage removes exactly the leading white space (ECMAScript white space and line terminators): what remains is a suffix that does not start with white space |
| IntParsing.DigitPrefixSpec | sync24.js:31 | the digits read are a prefix of the input made of decimal digits, stopping at the end or at the first non-digit |
| IntParsing.ParseIntPrefix | sync24.js:31 | white space, an optional sign, a non-empty digit run and anything that does not continue the run parse as the signed value of the run |
| IntParsing.ParseIntNaN | sync24.js:31-33 | white space and an optional sign followed by no digit give NaN (`None`) |
| IntParsing.ParseIntDecimalRoundTrip | sync24.js:31 | any integer written in decimal, followed by a non-digit suffix or nothing, parses back to itself |
| IntParsing.ParseIntUnitSuffix | sync24.js:31 | `"12abc"` parses as 12 |
| IntParsing.ParseIntFraction | sync24.js:31 | `"42.9"` parses as 42 |
| IntParsing.ParseIntNegative | sync24.js:31-33 | `"-5"` parses as -5 and is not rejected |
| IntParsing.ParseIntPadded | sync24.js:31 | `" +7"` parses as 7 |
| IntParsing.ParseIntLetters | sync24.js:31-33 | `"abc"` is NaN |
| IntParsing.ParseIntEmpty | sync24.js:31-33 | `""` is NaN |
| IntParsing.ParseIntSpacedSign | sync24.js:31-33 | `"- 5"` is NaN: white space may not follow the sign |
| Feed.ValidateRow | sync24.js:30-38 | a row yields a record iff `ean` is present and non-empty and parseInt of `stock` is not NaN; the record holds the `ean` verbatim and the parsed stock |
| Feed.ValidateRowEmptyEan | sync24.js:33-35 | a row with an empty `ean` is skipped |
| Feed.ValidateRowNoDigits | sync24.js:31-35 | a row whose stock has no digits is skipped |
| Feed.ValidateRowGood | sync24.js:30-38 | a good row yields its barcode and its parsed stock |
| Feed.FilterRows | sync24.js:27-39 | the records the 'data' handler pushes for a list of rows, at most one per row (what they are is stated by the next row) |
| Feed.FilterRowsSubsequence | sync24.js:27-39 | the collected records are, in row order, exactly the records of the accepted rows: an increasing list of row positions, none of them a skipped row, and no accepted row missing |
| Feed.FilterRowsBarcodes | sync24.js:33-38 | every collected record has a non-empty barcode |
| Feed.FilterRowsAppend | sync24.js:27-39 | rows are filtered one by one: the records of two stretches of rows are those of the first followed by those of the second, so a skipped row does not stop later rows |
| Feed.FilterRowsSnoc | sync24.js:27-39 | one more row adds that row's record, if any, at the end |
| Feed.ProductCollector.constructor | sync24.js:22 | `products` starts empty |
| Feed.ProductCollector.OnData | sync24.js:27-39 | the handler appends the row's record to `products`, or leaves `products` unchanged when the row is skipped |
| Feed.CollectRows | sync24.js:25-39 | delivering the rows one by one to the handler collects exactly the filtered records |
| Sync.ErrorDetail | sync24.js:100-106 | the reported detail is a truthy `response.data`, else a truthy `response.body`, else `message` |
| Sync.InventoryItemOf | sync24.js:74-80 | an update target exists iff the first product has a first variant whose inventory item id is truthy, and it is that id |
| Sync.UpdateTarget | sync24.js:69-80 | the inventory item the update is issued for: none after a failed lookup or an empty result, otherwise the inventory item of the first product (its first variant's truthy id, by `InventoryItemOf`), and only a truthy id |
| Sync.RunAttempt | sync24.js:64-92 | one pass through the `try` block with one attempt's replies: the lookup, then a skip with no product, a skip with no inventory item, or the update and its 1000 ms pause; a failed call throws its error (its properties are the next two rows) |
| Sync.RunAttemptCalls | sync24.js:67-91 | one attempt makes one lookup of the barcode, makes an update setting the record's stock iff the lookup found a product with an inventory item, and makes no retry pause |
| Sync.RunAttemptEnds | sync24.js:67-91 | one attempt throws iff the lookup failed or the update failed; it is applied iff an update target was found and the update succeeded; it is skipped-not-found iff the lookup found nothing; an attempt that ends reports its outcome once; the 1000 ms pause follows only an applied update |
| Sync.StopAttempt | sync24.js:94-97 | the attempt at which a retry chain stops: every attempt before it reset, and it does not reset or is past attempt 3, so at most attempt 4 |
| Sync.StopAttemptUnique | sync24.js:94-97 | any attempt number with those properties is the stopping attempt |
| Sync.SyncStock | sync24.js:63-108 | `syncStockByBarcode(ean, stock, attempt)` as a trace; its shape and properties are the rows that follow |
| Sync.SyncStockChain | sync24.js:93-107 | the retry chain is laid out by attempt: each attempt before the stopping one (all of which reset) is followed by a 3000 ms pause, and the stopping attempt comes last, its error, if any, reported as a failure with the error's detail |
| Sync.AttemptReports | sync24.js:67-91 | one attempt reports its outcome once if it ends and nothing if it throws |
| Sync.AttemptTriesOnce | sync24.js:67-91 | one attempt is one lookup, and any update it makes sets the record's stock |
| Sync.SyncStockOutcome | sync24.js:63-108 | a record's whole retry chain reports it exactly once, with the outcome of its stopping attempt (a failure with the error's detail if that attempt threw), and pauses 1000 ms once per applied update; no exception escapes |
| Sync.SyncStockAttempts | sync24.js:94-97 | the retry chain makes one lookup per attempt from the first to the stopping attempt, n lookups in all, and n − 1 pauses of 3000 ms |
| Sync.SyncStockUpdates | sync24.js:82-86 | every inventory update of the retry chain sets the record's stock |
| Sync.AlwaysResetTriesFourTimes | sync24.js:94-97 | a record that resets on every attempt is looked up four times, with three retry pauses, and fails once with the detail of the fourth error |
| Sync.ResetTwiceThenApplied | sync24.js:82-97 | two resets and then a successful update give three lookups, two retry pauses and one applied report |
| Sync.FailureNotRetried | sync24.js:94-106 | an error that is not a reset, or a reset past attempt 3, is not retried: one lookup, no retry pause, one failure report with the error's detail |
| Sync.SkipIssuesNoUpdate | sync24.js:69-80 | a lookup that finds nothing, or a product without an inventory item (an empty variant list included), gives one lookup and one skip report, and no update and no pause |
| Batches.Batched | sync24.js:116-131 | the records' traces two to a batch, each batch followed by a 1000 ms pause, the last partial batch included (its properties are the rows that follow) |
| Batches.BatchTrace | sync24.js:111-132 | the batches over the retry chains of the collected records, record `k` answered by `remote(k)` |
| Batches.BatchedStep | sync24.js:116-130 | the batched trace from one batch boundary onwards is that batch's traces, its pause, then the rest |
| Batches.SyncBatch | sync24.js:122-124 | syncing a batch runs the records' retry chains one after another, in batch order |
| Batches.ProcessInBatches | sync24.js:111-132 | the loop's trace is every record's chain in input order, with a 1000 ms pause after each group of two and after the final partial group |
| Batches.FlattenReports | sync24.js:122-124 | record traces that each report once, run one after another, report in their order |
| Batches.FlattenPaced | sync24.js:122-124 | record traces that each pause once per applied update, run one after another, still do |
| Batches.BatchedReports | sync24.js:116-131 | inserting the batch pauses does not add, drop or reorder any report |
| Batches.BatchedPacing | sync24.js:112-131 | the batched trace pauses 1000 ms ⌈n/2⌉ times for n records (none for no records), plus once per applied update |
| Batches.RecordTracesReport | sync24.js:122-124 | each record's own chain reports it once, with its outcome, and pauses once per applied update |
| Batches.BatchTraceReports | sync24.js:111-132 | a run reports every record exactly once and in input order, each with the outcome of its own retry chain; it pauses 1000 ms ⌈n/2⌉ times plus once per applied update |
| Batches.BatchedKeeps | sync24.js:116-131 | batching only inserts the batch pauses: any selection of events that leaves those pauses out sees the records' traces one after another, in input order |
| Batches.FlattenLookups | sync24.js:122-124 | the records' chains, run one after another, look each record up once per attempt of its chain, record by record |
| Batches.BatchTraceLookups | sync24.js:111-132 | a run looks the records up in input order, each as many times as its retry chain has attempts, and makes no other lookup |
| Batches.ThreeUnknownRecords | sync24.js:111-132 | three unknown barcodes give lookup and skip for the first two, a pause, lookup and skip for the third, and a pause |
| Job.JobTrace | sync24.js:13-53 | the job's events: the batch run over the filtered rows when the parsed stream ends, and none otherwise |
| Job.DownloadCsv | sync24.js:13-53 | the job's trace is the batch run over the filtered rows when the stream ends, and empty when the request fails or the stream errors |
| Job.JobReportsAcceptedRows | sync24.js:22-45 | a completed job reports once per accepted row and for no other row; the k-th report is for the barcode of the k-th accepted row, with that record's outcome |
| Job.UnknownSingleRecord | sync24.js:116-131 | a single unknown record gives one lookup, one skip and one batch pause |
| Job.UnknownBarcodeRow | sync24.js:27-45 | one good row whose barcode the store does not know gives one lookup, one skip and one 1000 ms pause |

## Left out

- Configuration and clients (sync24.js:1-10): dotenv, the Shopify client and the location id
  are plumbing. `location_id` is not part of the `SetLevel` event.
- The HTTP request and the CSV tokeniser (sync24.js:17-26). The model starts from the
  tokenised rows, each a map from column name to field text. The splitting rules of
  `csv-parser` are not part of this model.
- Job.DownloadCsv: a stream error is modelled as "no record reaches the batch driver". In the
  source the `'error'` listener is attached to the parser stream only. Errors of the response
  stream itself, and whether an `'end'` can still follow, are not modelled.
- `delay`'s random jitter of up to 200 ms and `setTimeout` (sync24.js:56-60). Only the base
  milliseconds appear, as `Delay` events.
- All `console` output. The logged outcome is kept as a `Resolved` event. The wording of the
  messages is not kept.
- Async scheduling. Every `await` is modelled as running to completion in order, which is
  what the sequential code does.
- `String(inventoryItemId)`: the id is kept as a natural number. A string or negative id is
  not modelled. A missing id or 0 is falsy.
- The remote platform is an oracle indexed by record position and attempt number. A real
  store answers by barcode, so two records with the same barcode may get different scripted
  replies here.
- The shape of products returned by the lookup: `variants` is always a list. A product
  without `variants`, which would throw a TypeError that the `catch` then reports, is not
  modelled.
- IntParsing.ParseInt: JavaScript numbers are doubles. Values above 2^53 lose precision in
  the source, and a digit run worth more than about 1.8·10^308 becomes `Infinity`, which
  `isNaN` accepts (sync24.js:33), so such a row is pushed with stock `Infinity`. The model
  keeps the exact integer in both cases.
- Error payloads (`response.data`, `response.body`) are modelled as optional strings. `""` is
  falsy, and an object payload is represented by its text.
