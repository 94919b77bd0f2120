/**
 * What one run of the job does to the outside world, as a sequence of events: the remote
 * lookups and inventory updates it issues, the pauses it takes (base milliseconds, without
 * jitter) and the terminal outcome it reaches for each feed record.
 */
module Trace {

  /** The four ways the synchronisation of one record can end. */
  datatype Outcome =
    | Applied
    | SkippedNotFound
    | SkippedNoInventoryItem
    | Failed(detail: string)

  datatype Event =
    | Lookup(barcode: string)
    | SetLevel(inventoryItemId: nat, available: int)
    | Delay(ms: nat)
    | Resolved(barcode: string, outcome: Outcome)

  /** Pause after a successful update and after each batch. */
  const PacingDelayMs: nat := 1000
  /** Pause before retrying after a connection reset. */
  const RetryDelayMs: nat := 3000

  predicate IsLookup(e: Event) { e.Lookup? }
  predicate IsSetLevel(e: Event) { e.SetLevel? }
  predicate IsResolved(e: Event) { e.Resolved? }
  predicate IsApplied(e: Event) { e.Resolved? && e.outcome == Applied }
  predicate IsPacingDelay(e: Event) { e == Delay(PacingDelayMs) }
  predicate IsRetryDelay(e: Event) { e == Delay(RetryDelayMs) }

  /** The events of `t` that `keep` selects, in their order in `t`. */
  function Filter(t: seq<Event>, keep: Event -> bool): (r: seq<Event>)
    ensures |r| <= |t|
  {
    if t == [] then []
    else Filter(t[..|t| - 1], keep) + (if keep(t[|t| - 1]) then [t[|t| - 1]] else [])
  }

  lemma {:induction false} FilterAppend(a: seq<Event>, b: seq<Event>, keep: Event -> bool)
    ensures Filter(a + b, keep) == Filter(a, keep) + Filter(b, keep)
  {
    if b == [] {
      assert a + b == a;
    } else {
      assert (a + b)[..|a + b| - 1] == a + b[..|b| - 1];
      FilterAppend(a, b[..|b| - 1], keep);
    }
  }

  /** `n` copies of `e`. */
  function Repeat(e: Event, n: nat): (r: seq<Event>)
    ensures |r| == n
  {
    if n == 0 then [] else [e] + Repeat(e, n - 1)
  }

  lemma FilterSingle(e: Event, keep: Event -> bool)
    ensures Filter([e], keep) == if keep(e) then [e] else []
  {
    assert [e][..0] == [];
  }

  lemma Filter2(a: Event, b: Event, keep: Event -> bool)
    ensures Filter([a, b], keep) == (if keep(a) then [a] else []) + (if keep(b) then [b] else [])
  {
    assert [a, b] == [a] + [b];
    FilterAppend([a], [b], keep);
    FilterSingle(a, keep);
    FilterSingle(b, keep);
  }

  lemma Filter4(a: Event, b: Event, c: Event, d: Event, keep: Event -> bool)
    ensures Filter([a, b, c, d], keep)
      == (if keep(a) then [a] else []) + (if keep(b) then [b] else [])
       + (if keep(c) then [c] else []) + (if keep(d) then [d] else [])
  {
    assert [a, b, c, d] == [a, b] + [c, d];
    FilterAppend([a, b], [c, d], keep);
    Filter2(a, b, keep);
    Filter2(c, d, keep);
  }

  lemma FilterAppend3(a: seq<Event>, b: seq<Event>, c: seq<Event>, keep: Event -> bool)
    ensures Filter(a + b + c, keep) == Filter(a, keep) + Filter(b, keep) + Filter(c, keep)
  {
    FilterAppend(a + b, c, keep);
    FilterAppend(a, b, keep);
  }
}
