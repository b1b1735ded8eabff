/**
 Billing bins and the aggregator that fills and settles them, as values.

 Energies and demands are exact reals. A meter id is the UUIDv5 of the serial;
 wrapping the serial states that the map is injective.
 */
module Billing {
  import opened Wrappers
  import opened Windows

  const SETTLED_RETENTION := 24 * NANOS_PER_HOUR

  datatype MeterId = MeterId(name: string)

  datatype BinKey = BinKey(meter: MeterId, start: Instant)

  datatype Reading = Reading(
    meter: MeterId,
    user: nat,
    serial: string,
    generated: real,
    consumed: real,
    timestamp: Instant,
    tariff: Option<nat>,
    demand: Option<real>,
    zone: Option<nat>)
  {
    function Key(): BinKey {
      BinKey(meter, WindowOf(timestamp))
    }
  }

  datatype BillingBin = BillingBin(
    meter: MeterId,
    user: nat,
    serial: string,
    start: Instant,
    end: Instant,
    generated: real,
    consumed: real,
    count: nat,
    generatedPeak: real,
    generatedOffpeak: real,
    consumedPeak: real,
    consumedOffpeak: real,
    maxDemand: real,
    zone: Option<nat>)
  {
    function Key(): BinKey {
      BinKey(meter, start)
    }

    /** The mintable amount: only a window that generated more than it consumed has one. */
    function NetSurplus(): Option<real> {
      if generated - consumed > 0.0 then Some(generated - consumed) else None
    }
  }

  function EmptyBin(r: Reading): BillingBin {
    var start := WindowOf(r.timestamp);
    BillingBin(r.meter, r.user, r.serial, start, start + WINDOW,
               0.0, 0.0, 0, 0.0, 0.0, 0.0, 0.0, 0.0, r.zone)
  }

  /** One reading added to a bin. */
  function AddReading(b: BillingBin, r: Reading): BillingBin {
    var peak := r.tariff == Some(1);
    var off := r.tariff == Some(2);
    b.(generated := b.generated + r.generated,
       consumed := b.consumed + r.consumed,
       count := b.count + 1,
       zone := if b.zone.None? then r.zone else b.zone,
       generatedPeak := if peak then b.generatedPeak + r.generated else b.generatedPeak,
       consumedPeak := if peak then b.consumedPeak + r.consumed else b.consumedPeak,
       generatedOffpeak := if off then b.generatedOffpeak + r.generated else b.generatedOffpeak,
       consumedOffpeak := if off then b.consumedOffpeak + r.consumed else b.consumedOffpeak,
       maxDemand := if r.demand.Some? && r.demand.value > b.maxDemand then r.demand.value else b.maxDemand)
  }

  /** The bin that results from adding readings, in order, to an absent or restored bin. */
  function FoldBin(base: Option<BillingBin>, rs: seq<Reading>): Option<BillingBin> {
    if rs == [] then base
    else
      var r := rs[|rs| - 1];
      match FoldBin(base, rs[..|rs| - 1])
      case None => Some(AddReading(EmptyBin(r), r))
      case Some(b) => Some(AddReading(b, r))
  }

  datatype Progress = Progress(watermark: Instant, lastArrival: Instant)

  /** The three maps of the aggregator. */
  datatype AggState = AggState(
    active: map<BinKey, BillingBin>,
    progress: map<MeterId, Progress>,
    settled: map<MeterId, set<Instant>>)
  {
    /** Every bin is stored under its own key. */
    ghost predicate WellKeyed() {
      forall k :: k in active ==> active[k].Key() == k
    }
  }

  const EMPTY_AGG := AggState(map[], map[], map[])

  function Settled(s: AggState, m: MeterId): set<Instant> {
    if m in s.settled then s.settled[m] else {}
  }

  predicate IsLate(s: AggState, r: Reading) {
    WindowOf(r.timestamp) in Settled(s, r.meter)
  }

  /** Watermark and arrival time move even when the reading turns out late. */
  function Advance(s: AggState, r: Reading, now: Instant): AggState {
    var w := if r.meter in s.progress && s.progress[r.meter].watermark >= r.timestamp
             then s.progress[r.meter].watermark else r.timestamp;
    s.(progress := s.progress[r.meter := Progress(w, now)])
  }

  function HandleReading(s: AggState, r: Reading, now: Instant): (AggState, Option<BillingBin>) {
    var s1 := Advance(s, r, now);
    if IsLate(s, r) then (s1, None)
    else
      var b := AddReading(if r.Key() in s.active then s.active[r.Key()] else EmptyBin(r), r);
      (s1.(active := s.active[r.Key() := b]), Some(b))
  }

  predicate IsComplete(s: AggState, b: BillingBin, now: Instant, grace: int) {
    if b.meter in s.progress then
      var p := s.progress[b.meter];
      || p.watermark >= b.end + grace
      || (grace > 0 && now - p.lastArrival >= grace && b.end <= now)
    else b.end + grace <= now
  }

  function CompletedKeys(s: AggState, now: Instant, grace: int): set<BinKey> {
    set k | k in s.active && IsComplete(s, s.active[k], now, grace)
  }

  function Meters(keys: set<BinKey>): set<MeterId> {
    set k | k in keys :: k.meter
  }

  /** The settled windows of one meter once `keys` are removed: remembered, then pruned to a day. */
  function SettledAfter(s: AggState, keys: set<BinKey>, m: MeterId): set<Instant> {
    var all := Settled(s, m) + set k | k in keys && k.meter == m :: k.start;
    if m in Meters(keys) && m in s.progress
    then set w | w in all && w >= s.progress[m].watermark - SETTLED_RETENTION
    else all
  }

  function RemoveBins(s: AggState, keys: set<BinKey>): AggState {
    s.(active := map k | k in s.active && k !in keys :: s.active[k],
       settled := map m | m in s.settled.Keys + Meters(keys) :: SettledAfter(s, keys, m))
  }

  /** Startup restore: later bins overwrite earlier ones under the same key. */
  function RestoreBins(s: AggState, bins: seq<BillingBin>): AggState {
    if bins == [] then s
    else
      var b := bins[|bins| - 1];
      var rest := RestoreBins(s, bins[..|bins| - 1]);
      rest.(active := rest.active[b.Key() := b])
  }

  // ----- runs of one process lifetime -----

  datatype Event = Read(reading: Reading, now: Instant) | Sweep(now: Instant, grace: int)

  function Apply(s: AggState, e: Event): AggState {
    match e
    case Read(r, now) => HandleReading(s, r, now).0
    case Sweep(now, grace) => RemoveBins(s, CompletedKeys(s, now, grace))
  }

  /** The state after a list of events, oldest first. */
  function Run(s: AggState, es: seq<Event>): AggState {
    if es == [] then s else Apply(Run(s, es[..|es| - 1]), es[|es| - 1])
  }

  predicate Accepts(s: AggState, e: Event, k: BinKey) {
    e.Read? && e.reading.Key() == k && !IsLate(s, e.reading)
  }

  predicate Takes(s: AggState, e: Event, k: BinKey) {
    e.Sweep? && k in CompletedKeys(s, e.now, e.grace)
  }

  /** Readings that were binned under `k` in the run. */
  function Accepted(s: AggState, es: seq<Event>, k: BinKey): seq<Reading> {
    if es == [] then []
    else
      var pre, e := es[..|es| - 1], es[|es| - 1];
      Accepted(s, pre, k) + if Accepts(Run(s, pre), e, k) then [e.reading] else []
  }

  /** Bins that sweeps took out under `k` in the run. */
  function Taken(s: AggState, es: seq<Event>, k: BinKey): seq<BillingBin> {
    if es == [] then []
    else
      var pre, e := es[..|es| - 1], es[|es| - 1];
      Taken(s, pre, k) + if Takes(Run(s, pre), e, k) then [Run(s, pre).active[k]] else []
  }

  /** Readings binned under `k` since it was last taken. */
  function Open(s: AggState, es: seq<Event>, k: BinKey): seq<Reading> {
    if es == [] then []
    else
      var pre, e := es[..|es| - 1], es[|es| - 1];
      if Takes(Run(s, pre), e, k) then []
      else Open(s, pre, k) + if Accepts(Run(s, pre), e, k) then [e.reading] else []
  }

  /** The bin those readings were added to: the restored one until the first take. */
  function OpenBase(s: AggState, es: seq<Event>, k: BinKey): Option<BillingBin> {
    if Taken(s, es, k) == [] then Get(s.active, k) else None
  }

  /** Every reading that names `k`, late or not. */
  function Offered(es: seq<Event>, k: BinKey): seq<Reading> {
    if es == [] then []
    else
      var e := es[|es| - 1];
      Offered(es[..|es| - 1], k) + if e.Read? && e.reading.Key() == k then [e.reading] else []
  }
}
