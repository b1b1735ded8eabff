/**
 The 15-minute billing window of an instant.

 Instants are signed nanoseconds since the Unix epoch. The aggregator floors an
 instant on its calendar fields, the write-back selects rows by a range of epoch
 milliseconds; the lemmas here say that both cut time in the same places.
 */
module Windows {

  type Instant = int

  const NANOS_PER_MILLI := 1_000_000
  const NANOS_PER_SECOND := 1_000_000_000
  const NANOS_PER_MINUTE := 60 * NANOS_PER_SECOND
  const NANOS_PER_HOUR := 60 * NANOS_PER_MINUTE
  const NANOS_PER_DAY := 24 * NANOS_PER_HOUR
  const WINDOW_MINUTES := 15
  const WINDOW := WINDOW_MINUTES * NANOS_PER_MINUTE
  const WINDOW_MS := 15 * 60 * 1000

  /** The calendar fields that chrono exposes; `day` counts days since the epoch. */
  datatype Civil = Civil(day: int, hour: nat, minute: nat, second: nat, nano: nat) {
    ghost predicate Valid() {
      hour < 24 && minute < 60 && second < 60 && nano < NANOS_PER_SECOND
    }
  }

  /** Division by a positive constant rounds down in Dafny, so days before 1970 are negative. */
  function ToCivil(t: Instant): (c: Civil)
    ensures c.Valid() && FromCivil(c) == t
  {
    var inDay := t % NANOS_PER_DAY;
    var inHour := inDay % NANOS_PER_HOUR;
    var inMinute := inHour % NANOS_PER_MINUTE;
    Civil(t / NANOS_PER_DAY, inDay / NANOS_PER_HOUR, inHour / NANOS_PER_MINUTE,
          inMinute / NANOS_PER_SECOND, inMinute % NANOS_PER_SECOND)
  }

  function FromCivil(c: Civil): Instant {
    c.day * NANOS_PER_DAY + c.hour * NANOS_PER_HOUR + c.minute * NANOS_PER_MINUTE
    + c.second * NANOS_PER_SECOND + c.nano
  }

  /** The epoch floor to 900 s: the reference that the other modules reason with. */
  function WindowOf(t: Instant): Instant {
    t / WINDOW * WINDOW
  }

  /** The calendar floor of the aggregator: minute snapped to a quarter, seconds and nanos cleared. */
  function GetWindowStart(t: Instant): (w: Instant)
    ensures w == WindowOf(t)
  {
    var c := ToCivil(t);
    var snapped := c.(minute := c.minute / WINDOW_MINUTES * WINDOW_MINUTES, second := 0, nano := 0);
    QuarterFloor(c);
    FromCivil(snapped)
  }

  /** A day is 96 windows and an hour is 4, so snapping the minute field is the epoch floor. */
  lemma QuarterFloor(c: Civil)
    requires c.Valid()
    ensures FromCivil(c.(minute := c.minute / WINDOW_MINUTES * WINDOW_MINUTES, second := 0, nano := 0))
         == WindowOf(FromCivil(c))
  {
    var quarter := c.minute / WINDOW_MINUTES;
    var index := c.day * 96 + c.hour * 4 + quarter;
    var start := index * WINDOW;
    assert FromCivil(c.(minute := quarter * WINDOW_MINUTES, second := 0, nano := 0)) == start;
    FloorUnique(FromCivil(c), index);
  }

  /** An instant lies in exactly one window. */
  lemma FloorUnique(t: Instant, index: int)
    requires index * WINDOW <= t < index * WINDOW + WINDOW
    ensures t / WINDOW == index && WindowOf(t) == index * WINDOW
  {
  }

  lemma WindowContains(t: Instant)
    ensures WindowOf(t) <= t < WindowOf(t) + WINDOW && WindowOf(t) % WINDOW == 0
  {
  }

  lemma WindowUnique(t: Instant, w: Instant)
    requires w % WINDOW == 0
    ensures WindowOf(t) == w <==> w <= t < w + WINDOW
  {
    assert w == w / WINDOW * WINDOW;
    if w <= t < w + WINDOW { FloorUnique(t, w / WINDOW); }
    WindowContains(t);
  }

  /** `timestamp_millis`, which rounds down. */
  function Millis(t: Instant): int {
    t / NANOS_PER_MILLI
  }

  /** Distinct windows have distinct millisecond starts, so a printed window identifies it. */
  lemma WindowMillisInjective(v: Instant, w: Instant)
    requires v % WINDOW == 0 && w % WINDOW == 0 && Millis(v) == Millis(w)
    ensures v == w
  {
  }

  /** The row range of `mark_minted` and `mark_no_surplus`. */
  predicate InWriteBackRange(rowMs: int, windowStartMs: int) {
    windowStartMs <= rowMs < windowStartMs + WINDOW_MS
  }

  /** A row is in the range of a window exactly when the aggregator bins its reading there. */
  lemma {:induction false} WriteBackAgreesWithBinning(t: Instant, w: Instant)
    requires w % WINDOW == 0
    ensures InWriteBackRange(Millis(t), Millis(w)) <==> GetWindowStart(t) == w
  {
    WindowUnique(t, w);
    MillisOfWindow(w);
    assert InWriteBackRange(Millis(t), Millis(w)) <==> w <= t < w + WINDOW;
  }

  lemma MillisOfWindow(w: Instant)
    requires w % WINDOW == 0
    ensures Millis(w) * NANOS_PER_MILLI == w
  {
  }
}
