/**
 * `syncStockByBarcode`: look a barcode up on the storefront platform, set the stock of the
 * first variant's inventory item, and retry the whole procedure after a connection reset.
 * The platform is a script of replies, one pair (lookup reply, update reply) per attempt.
 */
module Sync {
  import opened Wrappers
  import opened Trace

  /** The `response` of a failed platform call; `None` or "" stand for falsy payloads. */
  datatype ErrorResponse = ErrorResponse(data: Option<string>, body: Option<string>)

  /** A rejected platform call: `error.code`, `error.response` and `error.message`. */
  datatype RemoteError = RemoteError(code: Option<string>, response: Option<ErrorResponse>, message: string)

  /** A product variant; `None` and 0 are falsy inventory item ids. */
  datatype Variant = Variant(inventoryItemId: Option<nat>)

  datatype Product = Product(variants: seq<Variant>)

  datatype LookupReply = Found(products: seq<Product>) | LookupFailed(error: RemoteError)

  datatype SetReply = SetOk | SetFailed(error: RemoteError)

  /** How the platform answers the lookup and the update of one attempt. */
  datatype Replies = Replies(lookup: LookupReply, update: SetReply)

  /** The platform's answers, by attempt number (the first attempt is 1). */
  type Script = nat -> Replies

  /** A connection reset on an attempt up to this one is retried. */
  const MaxRetryAttempt: nat := 3

  predicate Truthy(v: Option<string>) {
    v.Some? && v.value != []
  }

  predicate IsConnectionReset(e: RemoteError) {
    e.code == Some("ECONNRESET")
  }

  /** The error detail that is reported: `response.data`, else `response.body`, else `message`. */
  function ErrorDetail(e: RemoteError): (detail: string)
    ensures e.response.Some? && Truthy(e.response.value.data) ==> detail == e.response.value.data.value
    ensures e.response.Some? && !Truthy(e.response.value.data) && Truthy(e.response.value.body)
      ==> detail == e.response.value.body.value
    ensures e.response.None? || (!Truthy(e.response.value.data) && !Truthy(e.response.value.body))
      ==> detail == e.message
  {
    match e.response
    case Some(ErrorResponse(data, body)) =>
      if Truthy(data) then data.value else if Truthy(body) then body.value else e.message
    case None => e.message
  }

  /** `product.variants[0]?.inventory_item_id`, when it is truthy. */
  function InventoryItemOf(p: Product): (id: Option<nat>)
    ensures id.Some? <==> |p.variants| > 0 && p.variants[0].inventoryItemId.Some?
                          && p.variants[0].inventoryItemId.value != 0
    ensures id.Some? ==> id == p.variants[0].inventoryItemId
  {
    if |p.variants| == 0 then None
    else match p.variants[0].inventoryItemId
      case None => None
      case Some(n) => if n == 0 then None else Some(n)
  }

  /**
   * The inventory item an update is issued for after this lookup reply, if any: never after a
   * failed lookup or an empty result, otherwise the first product's inventory item, and always
   * a truthy id.
   */
  function UpdateTarget(lookup: LookupReply): (target: Option<nat>)
    ensures lookup.LookupFailed? || lookup == Found([]) ==> target.None?
    ensures lookup.Found? && lookup.products != [] ==> target == InventoryItemOf(lookup.products[0])
    ensures target.Some? ==> target.value != 0
  {
    if lookup.Found? && |lookup.products| > 0 then InventoryItemOf(lookup.products[0]) else None
  }

  /** One pass through the `try` block: it ends with an outcome, or throws. */
  datatype Step = Done(events: seq<Event>, outcome: Outcome) | Threw(events: seq<Event>, error: RemoteError)

  /** One pass through the `try` block of `syncStockByBarcode` with the replies of that attempt. */
  function RunAttempt(ean: string, stock: int, replies: Replies): Step
  {
    match replies.lookup
    case LookupFailed(e) => Threw([Lookup(ean)], e)
    case Found(products) =>
      if |products| == 0 then Done([Lookup(ean), Resolved(ean, SkippedNotFound)], SkippedNotFound)
      else match InventoryItemOf(products[0])
        case None => Done([Lookup(ean), Resolved(ean, SkippedNoInventoryItem)], SkippedNoInventoryItem)
        case Some(id) =>
          match replies.update
          case SetFailed(e) => Threw([Lookup(ean), SetLevel(id, stock)], e)
          case SetOk =>
            Done([Lookup(ean), SetLevel(id, stock), Resolved(ean, Applied), Delay(PacingDelayMs)], Applied)
  }

  /** The outcome a final attempt gives the record: its own, or a failure with the error's detail. */
  function FinalOutcome(step: Step): Outcome {
    match step
    case Done(_, outcome) => outcome
    case Threw(_, e) => Failed(ErrorDetail(e))
  }

  /** Attempt `k` throws a connection reset. */
  predicate ResetAt(ean: string, stock: int, script: Script, k: nat) {
    var step := RunAttempt(ean, stock, script(k));
    step.Threw? && IsConnectionReset(step.error)
  }

  /** Every attempt from `lo` up to, not including, `hi` throws a connection reset. */
  predicate ResetsBetween(ean: string, stock: int, script: Script, lo: nat, hi: nat) {
    forall k :: lo <= k < hi ==> ResetAt(ean, stock, script, k)
  }

  /** `syncStockByBarcode(ean, stock, attempt)`: the events of this attempt and of every retry. */
  function SyncStock(ean: string, stock: int, attempt: nat, script: Script): seq<Event>
    decreases if attempt <= MaxRetryAttempt then MaxRetryAttempt + 1 - attempt else 0
  {
    match RunAttempt(ean, stock, script(attempt))
    case Done(events, _) => events
    case Threw(events, e) =>
      if IsConnectionReset(e) && attempt <= MaxRetryAttempt then
        events + [Delay(RetryDelayMs)] + SyncStock(ean, stock, attempt + 1, script)
      else
        events + [Resolved(ean, Failed(ErrorDetail(e)))]
  }

  /**
   * The attempt at which the retry chain started at `attempt` stops: the first one that does
   * not throw a connection reset, or the first one past the retry bound.
   */
  function StopAttempt(ean: string, stock: int, attempt: nat, script: Script): (last: nat)
    ensures attempt <= last <= if attempt <= MaxRetryAttempt then MaxRetryAttempt + 1 else attempt
    ensures ResetsBetween(ean, stock, script, attempt, last)
    ensures last > MaxRetryAttempt || !ResetAt(ean, stock, script, last)
    decreases if attempt <= MaxRetryAttempt then MaxRetryAttempt + 1 - attempt else 0
  {
    if attempt <= MaxRetryAttempt && ResetAt(ean, stock, script, attempt) then
      StopAttempt(ean, stock, attempt + 1, script)
    else
      attempt
  }

  /** The stopping attempt is the only attempt number with the two properties above. */
  lemma {:induction false} StopAttemptUnique(ean: string, stock: int, attempt: nat, script: Script, last: nat)
    requires attempt <= last && (attempt < last ==> last <= MaxRetryAttempt + 1)
    requires ResetsBetween(ean, stock, script, attempt, last)
    requires last > MaxRetryAttempt || !ResetAt(ean, stock, script, last)
    ensures StopAttempt(ean, stock, attempt, script) == last
    decreases last - attempt
  {
    if attempt < last {
      assert ResetAt(ean, stock, script, attempt);
      StopAttemptUnique(ean, stock, attempt + 1, script, last);
    }
  }

  /**
   * The calls of one attempt: a single lookup of the barcode, then an update exactly when the
   * lookup found a product whose first variant has an inventory item, carrying the record's
   * stock; never a retry delay.
   */
  lemma RunAttemptCalls(ean: string, stock: int, replies: Replies)
    ensures var step := RunAttempt(ean, stock, replies);
      && Filter(step.events, IsLookup) == [Lookup(ean)]
      && Filter(step.events, IsSetLevel)
           == (if UpdateTarget(replies.lookup).Some? then [SetLevel(UpdateTarget(replies.lookup).value, stock)] else [])
      && Filter(step.events, IsRetryDelay) == []
  {
    var l := Lookup(ean);
    FilterSingle(l, IsLookup);
    FilterSingle(l, IsSetLevel);
    FilterSingle(l, IsRetryDelay);
    match replies.lookup
    case LookupFailed(e) =>
    case Found(products) =>
      if |products| == 0 {
        var r := Resolved(ean, SkippedNotFound);
        Filter2(l, r, IsLookup);
        Filter2(l, r, IsSetLevel);
        Filter2(l, r, IsRetryDelay);
      } else {
        match InventoryItemOf(products[0])
        case None =>
          var r := Resolved(ean, SkippedNoInventoryItem);
          Filter2(l, r, IsLookup);
          Filter2(l, r, IsSetLevel);
          Filter2(l, r, IsRetryDelay);
        case Some(id) =>
          var u := SetLevel(id, stock);
          match replies.update
          case SetFailed(e) =>
            Filter2(l, u, IsLookup);
            Filter2(l, u, IsSetLevel);
            Filter2(l, u, IsRetryDelay);
          case SetOk =>
            var r := Resolved(ean, Applied);
            var d := Delay(PacingDelayMs);
            Filter4(l, u, r, d, IsLookup);
            Filter4(l, u, r, d, IsSetLevel);
            Filter4(l, u, r, d, IsRetryDelay);
      }
  }

  /**
   * How one attempt ends: it throws exactly when a call it made failed, it is applied exactly
   * when the update succeeded, it finds nothing exactly when the lookup returned no product;
   * an attempt that ends reports its outcome once, and the pacing delay follows only an
   * applied update.
   */
  lemma RunAttemptEnds(ean: string, stock: int, replies: Replies)
    ensures var step := RunAttempt(ean, stock, replies);
      && (step.Done? ==> Filter(step.events, IsResolved) == [Resolved(ean, step.outcome)])
      && (step.Threw? ==> Filter(step.events, IsResolved) == [])
      && |Filter(step.events, IsPacingDelay)| == |Filter(step.events, IsApplied)|
      && (step.Threw? <==> replies.lookup.LookupFailed? || (UpdateTarget(replies.lookup).Some? && replies.update.SetFailed?))
      && (step == Done(step.events, Applied) <==> UpdateTarget(replies.lookup).Some? && replies.update.SetOk?)
      && (step == Done(step.events, SkippedNotFound) <==> replies.lookup == Found([]))
  {
    var l := Lookup(ean);
    FilterSingle(l, IsResolved);
    FilterSingle(l, IsPacingDelay);
    FilterSingle(l, IsApplied);
    match replies.lookup
    case LookupFailed(e) =>
    case Found(products) =>
      if |products| == 0 {
        var r := Resolved(ean, SkippedNotFound);
        Filter2(l, r, IsResolved);
        Filter2(l, r, IsPacingDelay);
        Filter2(l, r, IsApplied);
      } else {
        match InventoryItemOf(products[0])
        case None =>
          var r := Resolved(ean, SkippedNoInventoryItem);
          Filter2(l, r, IsResolved);
          Filter2(l, r, IsPacingDelay);
          Filter2(l, r, IsApplied);
        case Some(id) =>
          var u := SetLevel(id, stock);
          match replies.update
          case SetFailed(e) =>
            Filter2(l, u, IsResolved);
            Filter2(l, u, IsPacingDelay);
            Filter2(l, u, IsApplied);
          case SetOk =>
            var r := Resolved(ean, Applied);
            var d := Delay(PacingDelayMs);
            Filter4(l, u, r, d, IsResolved);
            Filter4(l, u, r, d, IsPacingDelay);
            Filter4(l, u, r, d, IsApplied);
      }
  }

  /** The events of one `syncStockByBarcode` call, by the three ways an attempt can end. */
  lemma SyncStockUnfold(ean: string, stock: int, attempt: nat, script: Script)
    ensures var step := RunAttempt(ean, stock, script(attempt));
      SyncStock(ean, stock, attempt, script)
        == if step.Done? then step.events
           else if IsConnectionReset(step.error) && attempt <= MaxRetryAttempt
           then step.events + [Delay(RetryDelayMs)] + SyncStock(ean, stock, attempt + 1, script)
           else step.events + [Resolved(ean, Failed(ErrorDetail(step.error)))]
  {
  }

  /** The events of the stopping attempt: its own, with a failure report added when it threw. */
  function FinalEvents(ean: string, step: Step): seq<Event> {
    match step
    case Done(events, _) => events
    case Threw(events, e) => events + [Resolved(ean, Failed(ErrorDetail(e)))]
  }

  /**
   * The events of attempts `lo` up to `last`: each attempt before `last` followed by the
   * retry pause, then the events of attempt `last` as the final one.
   */
  function RetryChain(ean: string, stock: int, script: Script, lo: nat, last: nat): seq<Event>
    decreases last - lo
  {
    if lo >= last then FinalEvents(ean, RunAttempt(ean, stock, script(last)))
    else RunAttempt(ean, stock, script(lo)).events + [Delay(RetryDelayMs)] + RetryChain(ean, stock, script, lo + 1, last)
  }

  /**
   * The whole retry chain, laid out: every attempt before the stopping one (each of which
   * threw a connection reset, by `StopAttempt`) followed by a 3000 ms pause, then the stopping
   * attempt, whose error, if any, is reported as a failure.
   */
  lemma {:induction false} SyncStockChain(ean: string, stock: int, attempt: nat, script: Script)
    ensures SyncStock(ean, stock, attempt, script)
         == RetryChain(ean, stock, script, attempt, StopAttempt(ean, stock, attempt, script))
    decreases if attempt <= MaxRetryAttempt then MaxRetryAttempt + 1 - attempt else 0
  {
    var step := RunAttempt(ean, stock, script(attempt));
    SyncStockUnfold(ean, stock, attempt, script);
    if step.Threw? && IsConnectionReset(step.error) && attempt <= MaxRetryAttempt {
      SyncStockChain(ean, stock, attempt + 1, script);
      assert StopAttempt(ean, stock, attempt, script) == StopAttempt(ean, stock, attempt + 1, script);
    }
  }

  /** A trace that reports `outcome` for `ean` exactly once and pauses once per applied update. */
  predicate ReportsOnce(t: seq<Event>, ean: string, outcome: Outcome) {
    Filter(t, IsResolved) == [Resolved(ean, outcome)] && |Filter(t, IsPacingDelay)| == |Filter(t, IsApplied)|
  }

  /** A trace that reports nothing and pauses once per applied update. */
  predicate Unreported(t: seq<Event>) {
    Filter(t, IsResolved) == [] && |Filter(t, IsPacingDelay)| == |Filter(t, IsApplied)|
  }

  /** A trace of `n` lookups of `ean` with `n - 1` retry delays among them. */
  predicate TriedTimes(t: seq<Event>, ean: string, n: nat) {
    Filter(t, IsLookup) == Repeat(Lookup(ean), n) && |Filter(t, IsRetryDelay)| + 1 == n
  }

  /** A trace whose every inventory update sets `stock`. */
  predicate SetsOnly(t: seq<Event>, stock: int) {
    forall k :: 0 <= k < |Filter(t, IsSetLevel)| ==>
      Filter(t, IsSetLevel)[k].SetLevel? && Filter(t, IsSetLevel)[k].available == stock
  }

  /** One attempt reports its outcome if it ends, nothing if it throws. */
  lemma AttemptReports(ean: string, stock: int, replies: Replies)
    ensures var step := RunAttempt(ean, stock, replies);
      if step.Done? then ReportsOnce(step.events, ean, step.outcome) else Unreported(step.events)
  {
    RunAttemptEnds(ean, stock, replies);
  }

  /** One attempt is one try, and its update, if any, sets the record's stock. */
  lemma AttemptTriesOnce(ean: string, stock: int, replies: Replies)
    ensures TriedTimes(RunAttempt(ean, stock, replies).events, ean, 1)
    ensures SetsOnly(RunAttempt(ean, stock, replies).events, stock)
  {
    RunAttemptCalls(ean, stock, replies);
  }

  /** A retry keeps the report of the chain that follows it. */
  lemma RetryKeepsReport(a: seq<Event>, rest: seq<Event>, ean: string, outcome: Outcome)
    requires Unreported(a) && ReportsOnce(rest, ean, outcome)
    ensures ReportsOnce(a + [Delay(RetryDelayMs)] + rest, ean, outcome)
  {
    var d := Delay(RetryDelayMs);
    FilterAppend3(a, [d], rest, IsResolved);
    FilterAppend3(a, [d], rest, IsPacingDelay);
    FilterAppend3(a, [d], rest, IsApplied);
    FilterSingle(d, IsResolved);
    FilterSingle(d, IsPacingDelay);
    FilterSingle(d, IsApplied);
  }

  /** A retry adds one try to the chain that follows it. */
  lemma RetryAddsTry(a: seq<Event>, rest: seq<Event>, ean: string, n: nat)
    requires TriedTimes(a, ean, 1) && TriedTimes(rest, ean, n)
    ensures TriedTimes(a + [Delay(RetryDelayMs)] + rest, ean, n + 1)
  {
    var d := Delay(RetryDelayMs);
    FilterAppend3(a, [d], rest, IsLookup);
    FilterAppend3(a, [d], rest, IsRetryDelay);
    FilterSingle(d, IsLookup);
    FilterSingle(d, IsRetryDelay);
  }

  /** A retry issues no update of its own. */
  lemma RetryKeepsStock(a: seq<Event>, rest: seq<Event>, stock: int)
    requires SetsOnly(a, stock) && SetsOnly(rest, stock)
    ensures SetsOnly(a + [Delay(RetryDelayMs)] + rest, stock)
  {
    var d := Delay(RetryDelayMs);
    FilterAppend3(a, [d], rest, IsSetLevel);
    FilterSingle(d, IsSetLevel);
  }

  /** A failure that is not retried adds its report to the attempt, and nothing else. */
  lemma FailureComposes(a: seq<Event>, ean: string, stock: int, detail: string)
    requires Unreported(a) && TriedTimes(a, ean, 1) && SetsOnly(a, stock)
    ensures ReportsOnce(a + [Resolved(ean, Failed(detail))], ean, Failed(detail))
    ensures TriedTimes(a + [Resolved(ean, Failed(detail))], ean, 1)
    ensures SetsOnly(a + [Resolved(ean, Failed(detail))], stock)
  {
    var r := Resolved(ean, Failed(detail));
    FilterAppend(a, [r], IsResolved);
    FilterAppend(a, [r], IsPacingDelay);
    FilterAppend(a, [r], IsApplied);
    FilterAppend(a, [r], IsLookup);
    FilterAppend(a, [r], IsRetryDelay);
    FilterAppend(a, [r], IsSetLevel);
    FilterSingle(r, IsResolved);
    FilterSingle(r, IsPacingDelay);
    FilterSingle(r, IsApplied);
    FilterSingle(r, IsLookup);
    FilterSingle(r, IsRetryDelay);
    FilterSingle(r, IsSetLevel);
  }

  /**
   * The retry chain from `attempt` reports a single terminal outcome, taken from the stopping
   * attempt, and pauses once per applied update: no error escapes the chain.
   */
  lemma {:induction false} SyncStockOutcome(ean: string, stock: int, attempt: nat, script: Script)
    ensures ReportsOnce(SyncStock(ean, stock, attempt, script), ean,
                        FinalOutcome(RunAttempt(ean, stock, script(StopAttempt(ean, stock, attempt, script)))))
    decreases if attempt <= MaxRetryAttempt then MaxRetryAttempt + 1 - attempt else 0
  {
    var step := RunAttempt(ean, stock, script(attempt));
    SyncStockUnfold(ean, stock, attempt, script);
    AttemptReports(ean, stock, script(attempt));
    if step.Threw? {
      if IsConnectionReset(step.error) && attempt <= MaxRetryAttempt {
        SyncStockOutcome(ean, stock, attempt + 1, script);
        var rest := SyncStock(ean, stock, attempt + 1, script);
        var last := StopAttempt(ean, stock, attempt + 1, script);
        assert StopAttempt(ean, stock, attempt, script) == last;
        assert SyncStock(ean, stock, attempt, script) == step.events + [Delay(RetryDelayMs)] + rest;
        RetryKeepsReport(step.events, rest, ean, FinalOutcome(RunAttempt(ean, stock, script(last))));
      } else {
        AttemptTriesOnce(ean, stock, script(attempt));
        FailureComposes(step.events, ean, stock, ErrorDetail(step.error));
      }
    }
  }

  /**
   * The retry chain from `attempt` makes one attempt, hence one lookup, per attempt number up
   * to the stopping attempt, n lookups in all, and n - 1 pauses of 3000 ms (where they fall is
   * `SyncStockChain`'s result).
   */
  lemma {:induction false} SyncStockAttempts(ean: string, stock: int, attempt: nat, script: Script)
    ensures TriedTimes(SyncStock(ean, stock, attempt, script), ean,
                       StopAttempt(ean, stock, attempt, script) - attempt + 1)
    decreases if attempt <= MaxRetryAttempt then MaxRetryAttempt + 1 - attempt else 0
  {
    var step := RunAttempt(ean, stock, script(attempt));
    SyncStockUnfold(ean, stock, attempt, script);
    AttemptTriesOnce(ean, stock, script(attempt));
    if step.Threw? {
      if IsConnectionReset(step.error) && attempt <= MaxRetryAttempt {
        SyncStockAttempts(ean, stock, attempt + 1, script);
        var rest := SyncStock(ean, stock, attempt + 1, script);
        var last := StopAttempt(ean, stock, attempt + 1, script);
        assert StopAttempt(ean, stock, attempt, script) == last;
        assert SyncStock(ean, stock, attempt, script) == step.events + [Delay(RetryDelayMs)] + rest;
        RetryAddsTry(step.events, rest, ean, last - attempt);
      } else {
        AttemptReports(ean, stock, script(attempt));
        FailureComposes(step.events, ean, stock, ErrorDetail(step.error));
      }
    }
  }

  /** Every inventory update of the retry chain sets the record's stock. */
  lemma {:induction false} SyncStockUpdates(ean: string, stock: int, attempt: nat, script: Script)
    ensures SetsOnly(SyncStock(ean, stock, attempt, script), stock)
    decreases if attempt <= MaxRetryAttempt then MaxRetryAttempt + 1 - attempt else 0
  {
    var step := RunAttempt(ean, stock, script(attempt));
    SyncStockUnfold(ean, stock, attempt, script);
    AttemptTriesOnce(ean, stock, script(attempt));
    if step.Threw? {
      if IsConnectionReset(step.error) && attempt <= MaxRetryAttempt {
        SyncStockUpdates(ean, stock, attempt + 1, script);
        var rest := SyncStock(ean, stock, attempt + 1, script);
        assert SyncStock(ean, stock, attempt, script) == step.events + [Delay(RetryDelayMs)] + rest;
        RetryKeepsStock(step.events, rest, stock);
      } else {
        AttemptReports(ean, stock, script(attempt));
        FailureComposes(step.events, ean, stock, ErrorDetail(step.error));
      }
    }
  }

  /**
   * A record whose every attempt throws a connection reset is tried four times: the resets
   * of attempts 1, 2 and 3 are retried, the reset of attempt 4 is reported as a failure.
   */
  lemma AlwaysResetTriesFourTimes(ean: string, stock: int, script: Script)
    requires ResetAt(ean, stock, script, 1) && ResetAt(ean, stock, script, 2)
    requires ResetAt(ean, stock, script, 3) && ResetAt(ean, stock, script, 4)
    ensures var trace := SyncStock(ean, stock, 1, script);
      && Filter(trace, IsLookup) == Repeat(Lookup(ean), 4)
      && |Filter(trace, IsRetryDelay)| == 3
      && Filter(trace, IsResolved) == [Resolved(ean, Failed(ErrorDetail(RunAttempt(ean, stock, script(4)).error)))]
  {
    StopAttemptUnique(ean, stock, 1, script, 4);
    SyncStockAttempts(ean, stock, 1, script);
    SyncStockOutcome(ean, stock, 1, script);
  }

  /** Two resets and then a successful update: three attempts, and the record is applied. */
  lemma ResetTwiceThenApplied(ean: string, stock: int, script: Script)
    requires ResetAt(ean, stock, script, 1) && ResetAt(ean, stock, script, 2)
    requires UpdateTarget(script(3).lookup).Some? && script(3).update.SetOk?
    ensures var trace := SyncStock(ean, stock, 1, script);
      && Filter(trace, IsLookup) == Repeat(Lookup(ean), 3)
      && |Filter(trace, IsRetryDelay)| == 2
      && Filter(trace, IsResolved) == [Resolved(ean, Applied)]
  {
    RunAttemptEnds(ean, stock, script(3));
    StopAttemptUnique(ean, stock, 1, script, 3);
    SyncStockAttempts(ean, stock, 1, script);
    SyncStockOutcome(ean, stock, 1, script);
  }

  /**
   * An error that is not a connection reset, or a reset on an attempt past the bound, is not
   * retried: the record fails at once with the error's detail.
   */
  lemma FailureNotRetried(ean: string, stock: int, attempt: nat, script: Script)
    requires RunAttempt(ean, stock, script(attempt)).Threw?
    requires !IsConnectionReset(RunAttempt(ean, stock, script(attempt)).error) || attempt > MaxRetryAttempt
    ensures var trace := SyncStock(ean, stock, attempt, script);
      && Filter(trace, IsLookup) == [Lookup(ean)]
      && Filter(trace, IsRetryDelay) == []
      && Filter(trace, IsResolved)
           == [Resolved(ean, Failed(ErrorDetail(RunAttempt(ean, stock, script(attempt)).error)))]
  {
    StopAttemptUnique(ean, stock, attempt, script, attempt);
    SyncStockAttempts(ean, stock, attempt, script);
    SyncStockOutcome(ean, stock, attempt, script);
  }

  /**
   * A lookup that finds no product, or a first product without an inventory item (an empty
   * variant list included), ends the record with a skip: no update, no delay.
   */
  lemma SkipIssuesNoUpdate(ean: string, stock: int, attempt: nat, script: Script)
    requires script(attempt).lookup.Found? && UpdateTarget(script(attempt).lookup).None?
    ensures SyncStock(ean, stock, attempt, script)
      == [Lookup(ean), Resolved(ean, if script(attempt).lookup.products == [] then SkippedNotFound
                                     else SkippedNoInventoryItem)]
  {
  }
}
