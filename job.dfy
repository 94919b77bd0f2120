/**
 * `downloadCSV`: the feed response's rows pass through the 'data' handler into `products`;
 * when the parsed stream ends, the batch driver synchronises what was collected. A failed
 * request or a stream error is only logged, so nothing reaches the platform.
 */
module Job {
  import opened Wrappers
  import opened Trace
  import opened Sync
  import opened Feed
  import opened Batches

  /** How the parsed feed stream finished: its 'end' event, or its 'error' event. */
  datatype StreamEnd = Ended | StreamFailed(message: string)

  /** The feed request failed, or its stream delivered `rows` and then finished. */
  datatype FeedResponse =
    | DownloadFailed(message: string)
    | Streamed(rows: seq<Row>, finish: StreamEnd)

  /** Whether the stream reached its 'end' event, which starts the batch driver. */
  predicate Completed(response: FeedResponse) {
    response.Streamed? && response.finish.Ended?
  }

  /** The events of the whole job. */
  function JobTrace(response: FeedResponse, remote: Remote): seq<Event> {
    if Completed(response) then BatchTrace(FilterRows(response.rows), remote) else []
  }

  /** The job: collect the accepted rows, and run the batch driver over them once the stream ends. */
  method DownloadCsv(response: FeedResponse, remote: Remote) returns (trace: seq<Event>)
    ensures trace == JobTrace(response, remote)
    ensures !Completed(response) ==> trace == []
  {
    trace := [];
    match response
    case DownloadFailed(_) =>
    case Streamed(rows, finish) =>
      var products := CollectRows(rows);
      if finish.Ended? {
        trace := ProcessInBatches(products, remote);
      }
  }

  /**
   * A completed job reports once per accepted row and only for those, in row order: the k-th
   * report is about the record of the k-th accepted row, with the outcome of that record's
   * retry chain.
   */
  lemma JobReportsAcceptedRows(rows: seq<Row>, remote: Remote)
    ensures |FilterRows(rows)| == |AcceptedIndices(rows)|
    ensures |Filter(JobTrace(Streamed(rows, Ended), remote), IsResolved)| == |AcceptedIndices(rows)|
    ensures forall k :: 0 <= k < |AcceptedIndices(rows)| ==> AcceptedIndices(rows)[k] < |rows|
    ensures forall k :: 0 <= k < |AcceptedIndices(rows)| ==>
      ValidateRow(rows[AcceptedIndices(rows)[k]]).Some?
      && Filter(JobTrace(Streamed(rows, Ended), remote), IsResolved)[k]
         == Resolved(ValidateRow(rows[AcceptedIndices(rows)[k]]).value.ean,
                     RecordOutcome(FilterRows(rows), k, remote))
  {
    var products := FilterRows(rows);
    BatchTraceReports(products, remote);
    FilterRowsSubsequence(rows);
    assert JobTrace(Streamed(rows, Ended), remote) == BatchTrace(products, remote);
  }

  /** A single record whose barcode the platform does not know: one lookup, one skip, one batch pause. */
  lemma UnknownSingleRecord(product: Record, remote: Remote)
    requires remote(0)(1).lookup == Found([])
    ensures BatchTrace([product], remote)
      == [Lookup(product.ean), Resolved(product.ean, SkippedNotFound), Delay(BatchDelayMs)]
  {
    var traces := RecordTraces([product], remote);
    SkipIssuesNoUpdate(product.ean, product.stock, 1, remote(0));
    FlattenPair(traces[0], traces[0]);
    assert traces == [traces[0]];
  }

  /** One good row whose barcode the platform does not know: one lookup, one skip, one batch pause. */
  lemma UnknownBarcodeRow(remote: Remote)
    requires remote(0)(1).lookup == Found([])
    ensures JobTrace(Streamed([map["ean" := "1234567890123", "stock" := "7"]], Ended), remote)
      == [Lookup("1234567890123"), Resolved("1234567890123", SkippedNotFound), Delay(1000)]
  {
    var row: Row := map["ean" := "1234567890123", "stock" := "7"];
    var product := Record("1234567890123", 7);
    assert FilterRows([row]) == [product] by {
      ValidateRowGood();
      assert [row][..0] == [];
    }
    UnknownSingleRecord(product, remote);
  }
}
