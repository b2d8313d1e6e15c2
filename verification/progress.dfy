/**
 * The bookkeeping every `NextFeature` does once it has advanced: the
 * record-count check of the Catfood-based readers and the `RecordsRead` /
 * `PercentRead` notifications, fired on a fixed cadence.
 */
module Progress {
  import opened Common
  import opened Data

  /**
   * Whether record number `index` fires the notifications: every record when
   * `NotifyAfter <= 0`, otherwise every `NotifyAfter`-th one. Only the zero
   * test of the remainder is used, and divisibility does not depend on how
   * `%` rounds, so Dafny's remainder agrees with C#'s here.
   */
  predicate Fires(index: int, notifyAfter: int) {
    notifyAfter <= 0 || index % notifyAfter == 0
  }

  /**
   * The notifications for record `index`: `RecordsRead(index, total)` when
   * that event has a handler, then `PercentRead(percent)` when that one has,
   * each only on a firing record.
   */
  function Notifications(c: Config, index: int, totalRecords: int, percent: Ratio): (events: seq<Event>)
    ensures RecordsRead(index, totalRecords) in events <==> c.hasRecordsReadHandler && Fires(index, c.notifyAfter)
    ensures PercentRead(percent) in events <==> c.hasPercentReadHandler && Fires(index, c.notifyAfter)
    ensures forall e :: e in events ==> e == RecordsRead(index, totalRecords) || e == PercentRead(percent)
    ensures |events| == 2 ==> events == [RecordsRead(index, totalRecords), PercentRead(percent)]
    ensures |events| <= 2
  {
    var fires := Fires(index, c.notifyAfter);
    Optional(c.hasRecordsReadHandler && fires, [RecordsRead(index, totalRecords)])
      + Optional(c.hasPercentReadHandler && fires, [PercentRead(percent)])
  }

  /**
   * The bookkeeping block of the readers that check counts: a shape count
   * that differs from the record count throws before any notification fires.
   */
  function CheckedNotifications(c: Config, index: int, totalShapes: int, totalRecords: int, percent: Ratio): (a: Attempt<seq<Event>>)
    ensures a.fault.Some? <==> totalShapes != totalRecords
    ensures a.fault.Some? ==> a.reached == [] && a.fault.value == CountMismatch(totalShapes, totalRecords)
    ensures a.fault.None? ==> a.reached == Notifications(c, index, totalRecords, percent)
  {
    if totalShapes != totalRecords then Attempt([], Some(CountMismatch(totalShapes, totalRecords)))
    else Done(Notifications(c, index, totalRecords, percent))
  }

  // ---- cadence arithmetic ----------------------------------------------------

  /** How many of the records 1 .. n fire the notifications. */
  function FiringCount(n: nat, notifyAfter: int): nat
    decreases n
  {
    if n == 0 then 0 else FiringCount(n - 1, notifyAfter) + Count(Fires(n, notifyAfter))
  }

  lemma MulAtLeast(d: int, k: int)
    requires d >= 1 && k > 0
    ensures d * k >= k
  {
    assert d * k == (d - 1) * k + k;
  }

  lemma DivModUnique(n: int, k: int, q: int, r: int)
    requires k > 0 && 0 <= r < k && n == q * k + r
    ensures n / k == q && n % k == r
  {
    var q0 := n / k;
    var r0 := n % k;
    assert n == q0 * k + r0;
    if q > q0 {
      MulAtLeast(q - q0, k);
    } else if q < q0 {
      MulAtLeast(q0 - q, k);
    }
  }

  /** Going from record n - 1 to record n, the quotient grows by one exactly when n is a multiple. */
  lemma DivStep(n: int, k: int)
    requires n >= 1 && k >= 1
    ensures n / k == (n - 1) / k + Count(n % k == 0)
  {
    var q := (n - 1) / k;
    var r := (n - 1) % k;
    if r == k - 1 {
      DivModUnique(n, k, q + 1, 0);
    } else {
      DivModUnique(n, k, q, r + 1);
    }
  }

  /**
   * Over the first n records the notifications fire n / NotifyAfter times
   * when NotifyAfter is positive, and n times otherwise.
   */
  lemma {:induction false} FiringCountValue(n: nat, notifyAfter: int)
    ensures notifyAfter > 0 ==> FiringCount(n, notifyAfter) == n / notifyAfter
    ensures notifyAfter <= 0 ==> FiringCount(n, notifyAfter) == n
    decreases n
  {
    if n > 0 {
      FiringCountValue(n - 1, notifyAfter);
      if notifyAfter > 0 {
        DivStep(n, notifyAfter);
      }
    }
  }

  // ---- stream position -------------------------------------------------------

  /** The position and length of the shape stream, in bytes. */
  datatype StreamPos = StreamPos(position: nat, length: nat)

  /**
   * `PercentShapesStreamed`: 0 without a stream, otherwise the double
   * quotient Position / Length, which is not finite for an empty stream.
   */
  function PercentShapesStreamed(stream: Option<StreamPos>): (f: Ratio)
    ensures stream.None? ==> f == Finite(0.0)
    ensures stream.Some? ==> (f.Finite? <==> stream.value.length > 0)
    ensures stream.Some? && f.Finite? ==> f.value * stream.value.length as real == stream.value.position as real
    ensures stream.Some? && f.Finite? && stream.value.position <= stream.value.length ==> 0.0 <= f.value <= 1.0
    ensures stream.Some? && f.Finite? && stream.value.position < stream.value.length ==> f.value < 1.0
  {
    match stream
    case None => Finite(0.0)
    case Some(p) =>
      if p.length == 0 then NonFinite
      else Finite(p.position as real / p.length as real)
  }
}
