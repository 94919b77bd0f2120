/**
 * `processInBatches`: walk the collected records in order, two to a batch, synchronise each
 * record of a batch in turn, and wait 1000 ms after every batch, the last, partial one
 * included.
 */
module Batches {
  import opened Trace
  import opened Sync
  import opened Feed

  /** Records per batch. */
  const BatchSize: nat := 2

  /** The wait after each batch. */
  const BatchDelayMs: nat := 1000

  /** The platform's replies to the synchronisation of the record at each position. */
  type Remote = nat -> Script

  /** The events of `syncStockByBarcode(product.ean, product.stock)` for each record, by position. */
  function RecordTraces(products: seq<Record>, remote: Remote): (traces: seq<seq<Event>>)
    ensures |traces| == |products|
  {
    seq(|products|, k requires 0 <= k < |products| => SyncStock(products[k].ean, products[k].stock, 1, remote(k)))
  }

  /** The outcome the record at position `k` is reported with: that of its retry chain. */
  function RecordOutcome(products: seq<Record>, k: nat, remote: Remote): Outcome
    requires k < |products|
  {
    var p := products[k];
    FinalOutcome(RunAttempt(p.ean, p.stock, remote(k)(StopAttempt(p.ean, p.stock, 1, remote(k)))))
  }

  /** The report expected for each record, by position. */
  function RecordReports(products: seq<Record>, remote: Remote): (reports: seq<Event>)
    ensures |reports| == |products|
  {
    seq(|products|, k requires 0 <= k < |products| => Resolved(products[k].ean, RecordOutcome(products, k, remote)))
  }

  /** The traces `parts`, one after the other. */
  function Flatten(parts: seq<seq<Event>>): seq<Event> {
    if parts == [] then [] else Flatten(parts[..|parts| - 1]) + parts[|parts| - 1]
  }

  /**
   * The events of the records whose traces are `traces`, two to a batch, each batch followed
   * by its delay; the last batch holds what is left, one record or two.
   */
  function Batched(traces: seq<seq<Event>>): seq<Event>
    decreases |traces|
  {
    if traces == [] then []
    else if |traces| <= BatchSize then Flatten(traces) + [Delay(BatchDelayMs)]
    else Flatten(traces[..BatchSize]) + [Delay(BatchDelayMs)] + Batched(traces[BatchSize..])
  }

  /** The events of the whole run over the collected records. */
  function BatchTrace(products: seq<Record>, remote: Remote): seq<Event> {
    Batched(RecordTraces(products, remote))
  }

  lemma FlattenSnoc(parts: seq<seq<Event>>, last: seq<Event>)
    ensures Flatten(parts + [last]) == Flatten(parts) + last
  {
    assert (parts + [last])[..|parts|] == parts;
  }

  lemma FlattenPair(first: seq<Event>, second: seq<Event>)
    ensures Flatten([first]) == first
    ensures Flatten([first, second]) == first + second
  {
    FlattenSnoc([], first);
    FlattenSnoc([first], second);
    assert [first] == [] + [first];
    assert [first, second] == [first] + [second];
  }

  /** The records at positions `start` onwards, one `batch` of them, synchronised in turn. */
  method SyncBatch(products: seq<Record>, start: nat, batch: seq<Record>, remote: Remote)
    returns (events: seq<Event>)
    requires start + |batch| <= |products|
    requires batch == products[start..start + |batch|]
    ensures events == Flatten(RecordTraces(products, remote)[start..start + |batch|])
  {
    ghost var traces := RecordTraces(products, remote);
    events := [];
    for j := 0 to |batch|
      invariant events == Flatten(traces[start..start + j])
    {
      assert batch[j] == products[start + j];
      SliceExtends(traces, start, start + j);
      FlattenSnoc(traces[start..start + j], traces[start + j]);
      events := events + SyncStock(batch[j].ean, batch[j].stock, 1, remote(start + j));
    }
  }

  /**
   * The batch made of the records from `done` to `next` comes first among the batches of the
   * records from `done` on, when it is full or holds all of them.
   */
  lemma BatchedStep(traces: seq<seq<Event>>, done: nat, next: nat)
    requires done < next <= |traces| && next <= done + BatchSize
    requires next == done + BatchSize || next == |traces|
    ensures Batched(traces[done..])
         == Flatten(traces[done..next]) + [Delay(BatchDelayMs)] + Batched(traces[next..])
  {
    var rest := traces[done..];
    var n := next - done;
    assert rest[..n] == traces[done..next];
    assert rest[n..] == traces[next..];
    if n == |rest| {
      assert rest[..n] == rest;
      assert Batched(rest[n..]) == [];
    }
  }

  /** Once the batch from `done` to `next` has run, the batches after it remain. */
  lemma BatchDone(traces: seq<seq<Event>>, trace: seq<Event>, events: seq<Event>, done: nat, next: nat)
    requires done < next <= |traces| && next <= done + BatchSize
    requires next == done + BatchSize || next == |traces|
    requires trace + Batched(traces[done..]) == Batched(traces)
    requires events == Flatten(traces[done..next])
    ensures trace + events + [Delay(BatchDelayMs)] + Batched(traces[next..]) == Batched(traces)
  {
    BatchedStep(traces, done, next);
    AppendAssociates(trace, events, [Delay(BatchDelayMs)], Batched(traces[next..]));
  }

  lemma AppendAssociates<T>(a: seq<T>, b: seq<T>, c: seq<T>, d: seq<T>)
    ensures a + b + c + d == a + (b + c + d)
  {
  }

  lemma SliceExtends<T>(s: seq<T>, lo: nat, hi: nat)
    requires lo <= hi < |s|
    ensures s[lo..hi + 1] == s[lo..hi] + [s[hi]]
  {
  }

  /** `processInBatches(products)`, with the records' replies given by `remote`. */
  method ProcessInBatches(products: seq<Record>, remote: Remote) returns (trace: seq<Event>)
    ensures trace == BatchTrace(products, remote)
  {
    ghost var traces := RecordTraces(products, remote);
    ghost var done := 0;
    var batch: seq<Record> := [];
    var i := 0;
    trace := [];
    assert traces[done..] == traces;
    while i < |products|
      invariant done + |batch| == i <= |products|
      invariant |batch| < BatchSize
      invariant batch == products[done..i]
      invariant i == |products| ==> batch == []
      invariant trace + Batched(traces[done..]) == Batched(traces)
    {
      SliceExtends(products, done, i);
      batch := batch + [products[i]];
      i := i + 1;
      if |batch| == BatchSize || i == |products| {
        var events := SyncBatch(products, i - |batch|, batch, remote);
        BatchDone(traces, trace, events, done, i);
        trace := trace + events + [Delay(BatchDelayMs)];
        done := i;
        batch := [];
      }
    }
    assert traces[done..] == [];
  }

  lemma {:induction false} FlattenAppend(a: seq<seq<Event>>, b: seq<seq<Event>>)
    ensures Flatten(a + b) == Flatten(a) + Flatten(b)
    decreases |b|
  {
    if b == [] {
      assert a + b == a;
    } else {
      var n := |b| - 1;
      assert (a + b)[..|a + b| - 1] == a + b[..n];
      FlattenAppend(a, b[..n]);
    }
  }

  /**
   * Batching only inserts the batch pauses: whatever selection of events leaves those pauses
   * out sees the records' own traces, one after another, in input order.
   */
  lemma {:induction false} BatchedKeeps(traces: seq<seq<Event>>, keep: Event -> bool)
    requires !keep(Delay(BatchDelayMs))
    ensures Filter(Batched(traces), keep) == Filter(Flatten(traces), keep)
    decreases |traces|
  {
    if traces != [] {
      var n := if |traces| <= BatchSize then |traces| else BatchSize;
      var d := Delay(BatchDelayMs);
      BatchedKeeps(traces[n..], keep);
      if n == |traces| {
        assert traces[..n] == traces && traces[n..] == [];
      }
      assert traces == traces[..n] + traces[n..];
      FlattenAppend(traces[..n], traces[n..]);
      FilterAppend3(Flatten(traces[..n]), [d], Batched(traces[n..]), keep);
      FilterSingle(d, keep);
      FilterAppend(Flatten(traces[..n]), Flatten(traces[n..]), keep);
    }
  }

  /** The lookups expected of a run: for each record in order, one per attempt of its retry chain. */
  function RecordLookups(products: seq<Record>, remote: Remote): seq<Event> {
    if products == [] then []
    else
      var n := |products| - 1;
      var p := products[n];
      RecordLookups(products[..n], remote) + Repeat(Lookup(p.ean), StopAttempt(p.ean, p.stock, 1, remote(n)))
  }

  /** The records' chains, one after another, look the records up as `RecordLookups` says. */
  lemma {:induction false} FlattenLookups(products: seq<Record>, remote: Remote)
    ensures Filter(Flatten(RecordTraces(products, remote)), IsLookup) == RecordLookups(products, remote)
  {
    if products != [] {
      var n := |products| - 1;
      var p := products[n];
      var traces := RecordTraces(products, remote);
      assert traces[..n] == RecordTraces(products[..n], remote);
      FlattenLookups(products[..n], remote);
      FilterAppend(Flatten(traces[..n]), traces[n], IsLookup);
      SyncStockAttempts(p.ean, p.stock, 1, remote(n));
    }
  }

  /**
   * A run looks the records up in input order, each once per attempt of its own retry chain,
   * with nothing between them but pauses, updates and reports.
   */
  lemma BatchTraceLookups(products: seq<Record>, remote: Remote)
    ensures Filter(BatchTrace(products, remote), IsLookup) == RecordLookups(products, remote)
  {
    BatchedKeeps(RecordTraces(products, remote), IsLookup);
    FlattenLookups(products, remote);
  }

  /** Record traces each of which reports once, the `k`-th with `reports[k]`. */
  predicate ReportsEach(parts: seq<seq<Event>>, reports: seq<Event>) {
    |parts| == |reports| && forall k :: 0 <= k < |parts| ==> Filter(parts[k], IsResolved) == [reports[k]]
  }

  /** A trace that pauses once per applied update. */
  predicate PacedPerUpdate(t: seq<Event>) {
    |Filter(t, IsPacingDelay)| == |Filter(t, IsApplied)|
  }

  /** Record traces each of which pauses once per applied update. */
  predicate PacedEach(parts: seq<seq<Event>>) {
    forall k :: 0 <= k < |parts| ==> PacedPerUpdate(parts[k])
  }

  /** Traces that report once each report, one after the other, in their order. */
  lemma {:induction false} FlattenReports(parts: seq<seq<Event>>, reports: seq<Event>)
    requires ReportsEach(parts, reports)
    ensures Filter(Flatten(parts), IsResolved) == reports
  {
    if parts != [] {
      var n := |parts| - 1;
      assert ReportsEach(parts[..n], reports[..n]);
      FlattenReports(parts[..n], reports[..n]);
      FilterAppend(Flatten(parts[..n]), parts[n], IsResolved);
      assert reports == reports[..n] + [reports[n]];
    }
  }

  /** Traces that pause once per applied update, one after the other, still do. */
  lemma {:induction false} FlattenPaced(parts: seq<seq<Event>>)
    requires PacedEach(parts)
    ensures PacedPerUpdate(Flatten(parts))
  {
    if parts != [] {
      var n := |parts| - 1;
      assert PacedEach(parts[..n]);
      FlattenPaced(parts[..n]);
      FilterAppend(Flatten(parts[..n]), parts[n], IsPacingDelay);
      FilterAppend(Flatten(parts[..n]), parts[n], IsApplied);
    }
  }

  /** A batch and its delay, then later batches: the batch's reports come first. */
  lemma BatchAddsReports(batch: seq<Event>, after: seq<Event>, first: seq<Event>, later: seq<Event>)
    requires Filter(batch, IsResolved) == first && Filter(after, IsResolved) == later
    ensures Filter(batch + [Delay(BatchDelayMs)] + after, IsResolved) == first + later
  {
    FilterAppend3(batch, [Delay(BatchDelayMs)], after, IsResolved);
    FilterSingle(Delay(BatchDelayMs), IsResolved);
  }

  /** A batch and its delay, then later batches: one more pause besides the updates' own. */
  lemma BatchAddsPause(batch: seq<Event>, after: seq<Event>, pauses: nat)
    requires PacedPerUpdate(batch)
    requires |Filter(after, IsPacingDelay)| == pauses + |Filter(after, IsApplied)|
    ensures |Filter(batch + [Delay(BatchDelayMs)] + after, IsPacingDelay)|
         == pauses + 1 + |Filter(batch + [Delay(BatchDelayMs)] + after, IsApplied)|
  {
    FilterAppend3(batch, [Delay(BatchDelayMs)], after, IsPacingDelay);
    FilterAppend3(batch, [Delay(BatchDelayMs)], after, IsApplied);
    FilterSingle(Delay(BatchDelayMs), IsPacingDelay);
    FilterSingle(Delay(BatchDelayMs), IsApplied);
  }

  /** The batches report every record once, in order. */
  lemma {:induction false} BatchedReports(traces: seq<seq<Event>>, reports: seq<Event>)
    requires ReportsEach(traces, reports)
    ensures Filter(Batched(traces), IsResolved) == reports
    decreases |traces|
  {
    if traces != [] {
      var n := if |traces| <= BatchSize then |traces| else BatchSize;
      assert ReportsEach(traces[..n], reports[..n]);
      FlattenReports(traces[..n], reports[..n]);
      assert ReportsEach(traces[n..], reports[n..]);
      BatchedReports(traces[n..], reports[n..]);
      assert reports == reports[..n] + reports[n..];
      if n == |traces| {
        assert traces[..n] == traces && traces[n..] == [];
      }
      BatchAddsReports(Flatten(traces[..n]), Batched(traces[n..]), reports[..n], reports[n..]);
    }
  }

  /** The batches wait 1000 ms once per batch and once per applied update. */
  lemma {:induction false} BatchedPacing(traces: seq<seq<Event>>)
    requires PacedEach(traces)
    ensures |Filter(Batched(traces), IsPacingDelay)| == (|traces| + 1) / 2 + |Filter(Batched(traces), IsApplied)|
    decreases |traces|
  {
    if traces != [] {
      var n := if |traces| <= BatchSize then |traces| else BatchSize;
      assert PacedEach(traces[..n]);
      FlattenPaced(traces[..n]);
      assert PacedEach(traces[n..]);
      BatchedPacing(traces[n..]);
      if n == |traces| {
        assert traces[..n] == traces && traces[n..] == [];
      }
      BatchAddsPause(Flatten(traces[..n]), Batched(traces[n..]), (|traces| - n + 1) / 2);
    }
  }

  /** Each record's own trace reports it once, with its outcome, and pauses once per update. */
  lemma RecordTracesReport(products: seq<Record>, remote: Remote)
    ensures ReportsEach(RecordTraces(products, remote), RecordReports(products, remote))
    ensures PacedEach(RecordTraces(products, remote))
  {
    var traces := RecordTraces(products, remote);
    var reports := RecordReports(products, remote);
    forall k | 0 <= k < |products|
      ensures Filter(traces[k], IsResolved) == [reports[k]] && PacedPerUpdate(traces[k])
    {
      SyncStockOutcome(products[k].ean, products[k].stock, 1, remote(k));
    }
  }

  /**
   * A run reports every record exactly once and in input order, each with the outcome of its
   * own retry chain; it waits 1000 ms once per batch of two (the last may hold one) and once
   * per applied update.
   */
  lemma BatchTraceReports(products: seq<Record>, remote: Remote)
    ensures Filter(BatchTrace(products, remote), IsResolved) == RecordReports(products, remote)
    ensures |Filter(BatchTrace(products, remote), IsPacingDelay)|
         == (|products| + 1) / 2 + |Filter(BatchTrace(products, remote), IsApplied)|
  {
    var traces := RecordTraces(products, remote);
    RecordTracesReport(products, remote);
    BatchedReports(traces, RecordReports(products, remote));
    BatchedPacing(traces);
  }

  /**
   * Three records none of which the platform knows: two lookups, a batch delay, the third
   * lookup, a final batch delay; no update and no pacing delay.
   */
  lemma ThreeUnknownRecords(products: seq<Record>, remote: Remote)
    requires |products| == 3
    requires forall k :: 0 <= k < 3 ==> remote(k)(1).lookup == Found([])
    ensures BatchTrace(products, remote)
      == [Lookup(products[0].ean), Resolved(products[0].ean, SkippedNotFound),
          Lookup(products[1].ean), Resolved(products[1].ean, SkippedNotFound),
          Delay(1000),
          Lookup(products[2].ean), Resolved(products[2].ean, SkippedNotFound),
          Delay(1000)]
  {
    var traces := RecordTraces(products, remote);
    var t0, t1, t2 := traces[0], traces[1], traces[2];
    SkipIssuesNoUpdate(products[0].ean, products[0].stock, 1, remote(0));
    SkipIssuesNoUpdate(products[1].ean, products[1].stock, 1, remote(1));
    SkipIssuesNoUpdate(products[2].ean, products[2].stock, 1, remote(2));
    assert traces[..2] == [t0, t1];
    assert traces[2..] == [t2];
    FlattenPair(t0, t1);
    FlattenPair(t2, t2);
    assert Batched([t2]) == t2 + [Delay(BatchDelayMs)];
  }
}
