/**
 * The feed ingestor: the 'data' handler that turns each tokenised CSV row into a stock
 * record or drops it, and the list it appends accepted records to.
 */
module Feed {
  import opened Wrappers
  import opened IntParsing

  /** One tokenised CSV row: column name to field text. A missing column is `undefined`. */
  type Row = map<string, string>

  datatype Record = Record(ean: string, stock: int)

  /**
   * The record a row yields, if any: the `ean` field verbatim when it is truthy (present and
   * non-empty), and `parseInt(row.stock, 10)` when that is not NaN (`parseInt(undefined)` is NaN).
   */
  function ValidateRow(row: Row): (r: Option<Record>)
    ensures r.Some? <==> "ean" in row && row["ean"] != [] && "stock" in row && ParseInt(row["stock"]).Some?
    ensures r.Some? ==> r.value.ean == row["ean"] && ParseInt(row["stock"]) == Some(r.value.stock)
  {
    var ean := if "ean" in row then row["ean"] else [];
    var stock := if "stock" in row then ParseInt(row["stock"]) else None;
    if ean == [] || stock.None? then None else Some(Record(ean, stock.value))
  }

  /** The value an option holds, as a sequence of zero or one elements. */
  function Kept<T>(v: Option<T>): (r: seq<T>)
    ensures |r| <= 1
    ensures r != [] <==> v.Some?
  {
    match v
    case None => []
    case Some(x) => [x]
  }

  /** What the handler appends for one row: its record, or nothing. */
  function Accepted(row: Row): seq<Record> {
    Kept(ValidateRow(row))
  }

  /** The handler's verdict on each row, in arrival order. */
  function Verdicts(rows: seq<Row>): (verdicts: seq<Option<Record>>)
    ensures |verdicts| == |rows|
  {
    seq(|rows|, k requires 0 <= k < |rows| => ValidateRow(rows[k]))
  }

  /** The values present in `opts`, in order. */
  function Present<T>(opts: seq<Option<T>>): (values: seq<T>)
    ensures |values| <= |opts|
  {
    if opts == [] then [] else Present(opts[..|opts| - 1]) + Kept(opts[|opts| - 1])
  }

  /** The positions of the values present in `opts`, in increasing order. */
  function PresentIndices<T>(opts: seq<Option<T>>): (idx: seq<nat>)
    ensures forall k :: 0 <= k < |idx| ==> idx[k] < |opts| && opts[idx[k]].Some?
    ensures forall k, l :: 0 <= k < l < |idx| ==> idx[k] < idx[l]
    ensures forall j :: 0 <= j < |opts| && opts[j].Some? ==> j in idx
  {
    if opts == [] then []
    else
      var prefix := opts[..|opts| - 1];
      PresentIndices(prefix) + (if opts[|opts| - 1].Some? then [|opts| - 1] else [])
  }

  lemma {:induction false} PresentSubsequence<T>(opts: seq<Option<T>>)
    ensures |Present(opts)| == |PresentIndices(opts)|
    ensures forall k :: 0 <= k < |Present(opts)| ==> Some(Present(opts)[k]) == opts[PresentIndices(opts)[k]]
  {
    if opts != [] {
      var prefix, last := opts[..|opts| - 1], opts[|opts| - 1];
      PresentSubsequence(prefix);
      var values, idx := Present(prefix), PresentIndices(prefix);
      var lastIdx: seq<nat> := if last.Some? then [|opts| - 1] else [];
      assert Present(opts) == values + Kept(last);
      assert PresentIndices(opts) == idx + lastIdx;
      forall k | 0 <= k < |Present(opts)|
        ensures Some(Present(opts)[k]) == opts[PresentIndices(opts)[k]]
      {
        if k < |values| {
          assert Present(opts)[k] == values[k] && PresentIndices(opts)[k] == idx[k];
          assert opts[idx[k]] == prefix[idx[k]];
        } else {
          assert Present(opts)[k] == last.value && PresentIndices(opts)[k] == |opts| - 1;
        }
      }
    }
  }

  lemma {:induction false} PresentAppend<T>(a: seq<Option<T>>, b: seq<Option<T>>)
    ensures Present(a + b) == Present(a) + Present(b)
  {
    if b == [] {
      assert a + b == a;
    } else {
      assert (a + b)[..|a + b| - 1] == a + b[..|b| - 1];
      PresentAppend(a, b[..|b| - 1]);
    }
  }

  /** The records the handler has collected once it has seen `rows`, in arrival order. */
  function FilterRows(rows: seq<Row>): (records: seq<Record>)
    ensures |records| <= |rows|
  {
    Present(Verdicts(rows))
  }

  /** The positions of the rows that yield a record, in increasing order. */
  function AcceptedIndices(rows: seq<Row>): seq<nat> {
    PresentIndices(Verdicts(rows))
  }

  /**
   * The collected records are exactly the records of the accepted rows, in row order: an
   * order-preserving subsequence in which no valid row is missing.
   */
  lemma FilterRowsSubsequence(rows: seq<Row>)
    ensures |FilterRows(rows)| == |AcceptedIndices(rows)|
    ensures forall k :: 0 <= k < |AcceptedIndices(rows)| ==>
      AcceptedIndices(rows)[k] < |rows| && Some(FilterRows(rows)[k]) == ValidateRow(rows[AcceptedIndices(rows)[k]])
    ensures forall k, l :: 0 <= k < l < |AcceptedIndices(rows)| ==> AcceptedIndices(rows)[k] < AcceptedIndices(rows)[l]
    ensures forall j :: 0 <= j < |rows| && ValidateRow(rows[j]).Some? ==> j in AcceptedIndices(rows)
  {
    var verdicts := Verdicts(rows);
    PresentSubsequence(verdicts);
    forall j | 0 <= j < |rows| ensures verdicts[j] == ValidateRow(rows[j]) {
    }
  }

  /** Every collected record has a non-empty barcode. */
  lemma FilterRowsBarcodes(rows: seq<Row>)
    ensures forall k :: 0 <= k < |FilterRows(rows)| ==> FilterRows(rows)[k].ean != []
  {
    FilterRowsSubsequence(rows);
  }

  /** A dropped row does not stop later rows: the rows are filtered one by one. */
  lemma FilterRowsAppend(a: seq<Row>, b: seq<Row>)
    ensures FilterRows(a + b) == FilterRows(a) + FilterRows(b)
  {
    assert Verdicts(a + b) == Verdicts(a) + Verdicts(b);
    PresentAppend(Verdicts(a), Verdicts(b));
  }

  /** One more row appends that row's record, if any. */
  lemma FilterRowsSnoc(rows: seq<Row>, row: Row)
    ensures FilterRows(rows + [row]) == FilterRows(rows) + Accepted(row)
  {
    var verdicts := Verdicts(rows + [row]);
    assert verdicts[..|rows|] == Verdicts(rows);
  }

  /** A row with an empty barcode yields nothing. */
  lemma ValidateRowEmptyEan()
    ensures ValidateRow(map["ean" := "", "stock" := "5"]) == None
  {
    var row: Row := map["ean" := "", "stock" := "5"];
    assert row["ean"] == [];
  }

  /** A row whose stock has no digits yields nothing. */
  lemma ValidateRowNoDigits()
    ensures ValidateRow(map["ean" := "1234567890123", "stock" := "abc"]) == None
  {
    var row: Row := map["ean" := "1234567890123", "stock" := "abc"];
    assert row["stock"] == "abc";
    ParseIntLetters();
  }

  /** A good row yields its barcode verbatim and its parsed stock. */
  lemma ValidateRowGood()
    ensures ValidateRow(map["ean" := "1234567890123", "stock" := "7"]) == Some(Record("1234567890123", 7))
  {
    var row: Row := map["ean" := "1234567890123", "stock" := "7"];
    var digits := "7";
    assert row["stock"] == [] + [] + digits + [];
    ParseIntPrefix([], [], digits, []);
    assert DigitsValue(digits) == 7;
  }

  /** The `products` array that the 'data' handler pushes accepted records onto. */
  class ProductCollector {
    var products: seq<Record>

    constructor ()
      ensures products == []
    {
      products := [];
    }

    /** The 'data' handler: push the row's record, or skip the row. */
    method OnData(row: Row)
      modifies this
      ensures products == old(products) + Accepted(row)
    {
      var ean := if "ean" in row then row["ean"] else [];
      var stock := if "stock" in row then ParseInt(row["stock"]) else None;
      if ean == [] || stock.None? {
        return;
      }
      products := products + [Record(ean, stock.value)];
    }
  }

  /** The stream delivers `rows` to the handler one by one; the result is what was collected. */
  method CollectRows(rows: seq<Row>) returns (records: seq<Record>)
    ensures records == FilterRows(rows)
  {
    var collector := new ProductCollector();
    for k := 0 to |rows|
      invariant collector.products == FilterRows(rows[..k])
    {
      FilterRowsSnoc(rows[..k], rows[k]);
      assert rows[..k] + [rows[k]] == rows[..k + 1];
      collector.OnData(rows[k]);
    }
    assert rows[..|rows|] == rows;
    records := collector.products;
  }
}
