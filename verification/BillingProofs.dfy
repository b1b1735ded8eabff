/** What one process lifetime of the aggregator keeps, for every run of readings and sweeps. */
module BillingProofs {
  import opened Wrappers
  import opened Windows
  import opened Billing

  // ----- structure -----

  lemma {:induction false} RunWellKeyed(s: AggState, es: seq<Event>)
    requires s.WellKeyed()
    ensures Run(s, es).WellKeyed()
  {
    if es != [] { RunWellKeyed(s, es[..|es| - 1]); }
  }

  /** The in-memory bin is exactly the fold of the readings accepted since its last settlement. */
  lemma {:induction false} BinIsFold(s: AggState, es: seq<Event>, k: BinKey)
    ensures Get(Run(s, es).active, k) == FoldBin(OpenBase(s, es, k), Open(s, es, k))
  {
    if es != [] {
      var pre, e := es[..|es| - 1], es[|es| - 1];
      BinIsFold(s, pre, k);
      var open := Open(s, pre, k);
      if Accepts(Run(s, pre), e, k) {
        assert (open + [e.reading])[..|open|] == open;
      } else {
        assert open + [] == open;
      }
    }
  }

  // ----- conservation -----

  /** The additive quantities of a bin. */
  datatype Quantity = Generated | Consumed | Count | GeneratedPeak | GeneratedOffpeak | ConsumedPeak | ConsumedOffpeak

  function InBin(q: Quantity, b: Option<BillingBin>): real {
    if b.None? then 0.0
    else
      match q
      case Generated => b.value.generated
      case Consumed => b.value.consumed
      case Count => b.value.count as real
      case GeneratedPeak => b.value.generatedPeak
      case GeneratedOffpeak => b.value.generatedOffpeak
      case ConsumedPeak => b.value.consumedPeak
      case ConsumedOffpeak => b.value.consumedOffpeak
  }

  /** What a reading is worth: tariff 1 is peak, tariff 2 off-peak, anything else neither. */
  function InReading(q: Quantity, r: Reading): real {
    match q
    case Generated => r.generated
    case Consumed => r.consumed
    case Count => 1.0
    case GeneratedPeak => if r.tariff == Some(1) then r.generated else 0.0
    case GeneratedOffpeak => if r.tariff == Some(2) then r.generated else 0.0
    case ConsumedPeak => if r.tariff == Some(1) then r.consumed else 0.0
    case ConsumedOffpeak => if r.tariff == Some(2) then r.consumed else 0.0
  }

  function SumReadings(q: Quantity, rs: seq<Reading>): real {
    if rs == [] then 0.0 else SumReadings(q, rs[..|rs| - 1]) + InReading(q, rs[|rs| - 1])
  }

  function SumBins(q: Quantity, bs: seq<BillingBin>): real {
    if bs == [] then 0.0 else SumBins(q, bs[..|bs| - 1]) + InBin(q, Some(bs[|bs| - 1]))
  }

  /** Adding a reading to an absent or present bin adds exactly its worth. */
  lemma AddedWorth(q: Quantity, b: Option<BillingBin>, r: Reading)
    ensures InBin(q, Some(AddReading(if b.Some? then b.value else EmptyBin(r), r))) == InBin(q, b) + InReading(q, r)
  {
  }

  /** A folded bin carries its base plus the sums of the readings, tariff by tariff. */
  lemma {:induction false} FoldTotals(q: Quantity, base: Option<BillingBin>, rs: seq<Reading>)
    ensures InBin(q, FoldBin(base, rs)) == InBin(q, base) + SumReadings(q, rs)
  {
    if rs != [] {
      FoldTotals(q, base, rs[..|rs| - 1]);
      AddedWorth(q, FoldBin(base, rs[..|rs| - 1]), rs[|rs| - 1]);
    }
  }

  /** A folded bin's demand is the running maximum, never below zero for a fresh bin. */
  lemma {:induction false} FoldDemand(base: Option<BillingBin>, rs: seq<Reading>)
    requires rs != []
    ensures FoldBin(base, rs).Some?
    ensures var floor := if base.Some? then base.value.maxDemand else 0.0;
            var top := FoldBin(base, rs).value.maxDemand;
            && floor <= top
            && (forall i :: 0 <= i < |rs| && rs[i].demand.Some? ==> rs[i].demand.value <= top)
            && (top == floor || exists i :: 0 <= i < |rs| && rs[i].demand == Some(top))
  {
    var pre, r := rs[..|rs| - 1], rs[|rs| - 1];
    if pre == [] {
      assert FoldBin(base, pre) == base;
      assert r == rs[0];
    } else {
      FoldDemand(base, pre);
      var before := FoldBin(base, pre).value.maxDemand;
      var top := FoldBin(base, rs).value.maxDemand;
      assert forall i :: 0 <= i < |pre| ==> rs[i] == pre[i];
      if top != before {
        assert rs[|rs| - 1].demand == Some(top);
      }
    }
  }

  /** Identity and zone of a folded bin: the base's, else the first reading's; the zone is the first one named. */
  lemma {:induction false} FoldIdentity(base: Option<BillingBin>, rs: seq<Reading>)
    requires rs != []
    ensures FoldBin(base, rs).Some?
    ensures var b := FoldBin(base, rs).value;
            && (base.Some? ==> (b.meter, b.user, b.serial) == (base.value.meter, base.value.user, base.value.serial)
                               && (b.start, b.end) == (base.value.start, base.value.end))
            && (base.None? ==> (b.meter, b.user, b.serial) == (rs[0].meter, rs[0].user, rs[0].serial)
                               && (b.start, b.end) == (rs[0].Key().start, rs[0].Key().start + WINDOW))
    ensures var b := FoldBin(base, rs).value;
            && (base.Some? && base.value.zone.Some? ==> b.zone == base.value.zone)
            && (base.None? || base.value.zone.None? ==>
                  forall i :: 0 <= i < |rs| && rs[i].zone.Some? && (forall j :: 0 <= j < i ==> rs[j].zone.None?) ==>
                    b.zone == rs[i].zone)
            && (b.zone.Some? ==>
                  || (base.Some? && base.value.zone == b.zone)
                  || exists i :: 0 <= i < |rs| && rs[i].zone == b.zone)
  {
    var n := |rs| - 1;
    var pre := rs[..n];
    if pre == [] {
      assert FoldBin(base, pre) == base && rs[0] == rs[n];
    } else {
      FoldIdentity(base, pre);
      assert forall i :: 0 <= i < n ==> rs[i] == pre[i];
      assert rs[n].zone == rs[n].zone;
    }
  }

  /** The bin under one key after one event. */
  lemma KeyAfter(p: AggState, e: Event, k: BinKey)
    ensures Accepts(p, e, k) ==>
              var b := if k in p.active then p.active[k] else EmptyBin(e.reading);
              Get(Apply(p, e).active, k) == Some(AddReading(b, e.reading))
    ensures Takes(p, e, k) ==> k in p.active && Get(Apply(p, e).active, k) == None
    ensures !Accepts(p, e, k) && !Takes(p, e, k) ==> Get(Apply(p, e).active, k) == Get(p.active, k)
  {
  }

  /**
   Conservation: for every key and every quantity, what the process started with plus
   everything it accepted is what is still in memory plus everything that sweeps took.
   */
  lemma {:induction false} Conservation(q: Quantity, s: AggState, es: seq<Event>, k: BinKey)
    ensures InBin(q, Get(s.active, k)) + SumReadings(q, Accepted(s, es, k))
         == InBin(q, Get(Run(s, es).active, k)) + SumBins(q, Taken(s, es, k))
  {
    if es != [] {
      var pre, e := es[..|es| - 1], es[|es| - 1];
      var p := Run(s, pre);
      Conservation(q, s, pre, k);
      KeyAfter(p, e, k);
      var got, out := Accepted(s, pre, k), Taken(s, pre, k);
      if Accepts(p, e, k) {
        AddedWorth(q, Get(p.active, k), e.reading);
        assert Accepted(s, es, k)[..|got|] == got && Taken(s, es, k) == out;
      } else if Takes(p, e, k) {
        assert Accepted(s, es, k) == got && Taken(s, es, k)[..|out|] == out;
      } else {
        assert Accepted(s, es, k) == got && Taken(s, es, k) == out;
      }
    }
  }

  // ----- settle once -----

  /** Watermarks never go back, and a meter that reported is never forgotten. */
  lemma {:induction false} WatermarkMonotone(s: AggState, es: seq<Event>, n: nat, m: MeterId)
    requires n <= |es| && m in Run(s, es[..n]).progress
    ensures m in Run(s, es).progress
    ensures Run(s, es[..n]).progress[m].watermark <= Run(s, es).progress[m].watermark
  {
    if n < |es| {
      var pre := es[..|es| - 1];
      assert pre[..n] == es[..n];
      WatermarkMonotone(s, pre, n, m);
    } else {
      assert es[..n] == es;
    }
  }

  /** A settled window has no active bin. */
  ghost predicate Disjoint(s: AggState) {
    forall k :: k in s.active ==> k.start !in Settled(s, k.meter)
  }

  lemma {:induction false} ActiveAndSettledDisjoint(s: AggState, es: seq<Event>)
    requires Disjoint(s)
    ensures Disjoint(Run(s, es))
  {
    if es != [] { ActiveAndSettledDisjoint(s, es[..|es| - 1]); }
  }

  /** Windows of `m` that some sweep of the run took. */
  function TakenWindows(s: AggState, es: seq<Event>, m: MeterId): set<Instant> {
    if es == [] then {}
    else
      var pre, e := es[..|es| - 1], es[|es| - 1];
      TakenWindows(s, pre, m)
      + if e.Sweep? then set k | k in CompletedKeys(Run(s, pre), e.now, e.grace) && k.meter == m :: k.start
        else {}
  }

  /** The retention horizon that the last sweep of meter `m` applied. */
  function LastHorizon(s: AggState, es: seq<Event>, m: MeterId): Option<Instant> {
    if es == [] then None
    else
      var pre, e := es[..|es| - 1], es[|es| - 1];
      var p := Run(s, pre);
      if e.Sweep? && m in Meters(CompletedKeys(p, e.now, e.grace)) && m in p.progress
      then Some(p.progress[m].watermark - SETTLED_RETENTION)
      else LastHorizon(s, pre, m)
  }

  lemma {:induction false} HorizonBehindWatermark(s: AggState, es: seq<Event>, m: MeterId)
    requires LastHorizon(s, es, m).Some?
    ensures m in Run(s, es).progress
    ensures LastHorizon(s, es, m).value <= Run(s, es).progress[m].watermark - SETTLED_RETENTION
  {
    var pre, e := es[..|es| - 1], es[|es| - 1];
    if LastHorizon(s, pre, m).Some? { HorizonBehindWatermark(s, pre, m); }
  }

  /**
   What a process remembers as settled, exactly: the windows it took, minus those older than
   the horizon of the meter's last sweep.
   */
  lemma {:induction false} SettledExactly(s: AggState, es: seq<Event>, m: MeterId)
    requires s.settled == map[]
    ensures forall w :: w in Settled(Run(s, es), m) <==>
                        && w in TakenWindows(s, es, m)
                        && (LastHorizon(s, es, m).Some? ==> w >= LastHorizon(s, es, m).value)
  {
    if es != [] {
      var pre, e := es[..|es| - 1], es[|es| - 1];
      SettledExactly(s, pre, m);
      if LastHorizon(s, pre, m).Some? { HorizonBehindWatermark(s, pre, m); }
      if e.Sweep? {
        SweptWindow(Run(s, pre), CompletedKeys(Run(s, pre), e.now, e.grace), m);
      }
    }
  }

  lemma SweptWindow(s: AggState, keys: set<BinKey>, m: MeterId)
    ensures Settled(RemoveBins(s, keys), m) == SettledAfter(s, keys, m)
    ensures m !in Meters(keys) ==> forall k :: k in keys ==> k.meter != m
  {
  }

  /**
   Settle once per lifetime: a key that a sweep took is binned again only when its window
   start is more than a day of event time behind the meter's watermark.
   */
  lemma SettledOnce(s: AggState, es: seq<Event>, r: Reading)
    requires s.settled == map[]
    requires r.Key().start in TakenWindows(s, es, r.meter)
    ensures !IsLate(Run(s, es), r) ==>
              && r.meter in Run(s, es).progress
              && r.Key().start < Run(s, es).progress[r.meter].watermark - SETTLED_RETENTION
    ensures !IsLate(Run(s, es), r) <==>
              LastHorizon(s, es, r.meter).Some? && r.Key().start < LastHorizon(s, es, r.meter).value
  {
    SettledExactly(s, es, r.meter);
    if LastHorizon(s, es, r.meter).Some? { HorizonBehindWatermark(s, es, r.meter); }
  }

  /**
   The exception is real: when a meter jumps more than a day ahead, the sweep that takes the old
   window forgets it at once, and a straggler of that window is binned a second time.
   */
  lemma DayOldWindowReopens(a: Reading, b: Reading, now: Instant)
    requires a.meter == b.meter && b.timestamp >= a.timestamp + SETTLED_RETENTION + WINDOW
    ensures var es := [Read(a, now), Read(b, now), Sweep(now, 0)];
            a.Key().start in TakenWindows(EMPTY_AGG, es, a.meter) && !IsLate(Run(EMPTY_AGG, es), a)
  {
    WindowContains(a.timestamp);
    var e1, e2 := [Read(a, now)], [Read(a, now), Read(b, now)];
    var es := e2 + [Sweep(now, 0)];
    assert es == [Read(a, now), Read(b, now), Sweep(now, 0)];
    assert e1[..0] == [] && e2[..1] == e1 && es[..2] == e2;
    var s1, s2 := Run(EMPTY_AGG, e1), Run(EMPTY_AGG, e2);
    assert Run(EMPTY_AGG, e1[..|e1| - 1]) == EMPTY_AGG;
    assert s1 == Apply(EMPTY_AGG, Read(a, now)) && s2 == Apply(s1, Read(b, now));
    assert s2.progress[a.meter].watermark == b.timestamp;
    assert a.Key() in CompletedKeys(s2, now, 0);
    SettledOnce(EMPTY_AGG, es, a);
  }

  lemma {:induction false} TakenMeansWindow(s: AggState, es: seq<Event>, k: BinKey)
    ensures Taken(s, es, k) != [] <==> k.start in TakenWindows(s, es, k.meter)
  {
    if es != [] { TakenMeansWindow(s, es[..|es| - 1], k); }
  }

  // ----- when a sweep takes a window -----

  ghost predicate Ends(s: AggState) {
    forall k :: k in s.active ==> s.active[k].Key() == k && s.active[k].end == k.start + WINDOW
  }

  lemma {:induction false} RunEnds(s: AggState, es: seq<Event>)
    requires Ends(s)
    ensures Ends(Run(s, es))
  {
    if es != [] { RunEnds(s, es[..|es| - 1]); }
  }

  /** Event `i` is a reading of the meter. */
  predicate ReadsAt(es: seq<Event>, i: int, m: MeterId) {
    0 <= i < |es| && es[i].Read? && es[i].reading.meter == m
  }

  /** Event `i` is the last reading of the meter. */
  ghost predicate LastReadAt(es: seq<Event>, i: int, m: MeterId) {
    ReadsAt(es, i, m) && forall j :: ReadsAt(es, j, m) ==> j <= i
  }

  /** The watermark is the greatest timestamp read, the arrival time that of the last reading. */
  ghost predicate ProgressOf(es: seq<Event>, m: MeterId, p: Progress) {
    && (forall j :: ReadsAt(es, j, m) ==> es[j].reading.timestamp <= p.watermark)
    && (exists j :: ReadsAt(es, j, m) && es[j].reading.timestamp == p.watermark)
    && (exists j :: LastReadAt(es, j, m) && es[j].now == p.lastArrival)
  }

  lemma {:induction false} ProgressIs(s: AggState, es: seq<Event>, m: MeterId)
    requires s.progress == map[]
    ensures m in Run(s, es).progress <==> !NeverRead(es, m)
    ensures m in Run(s, es).progress ==> ProgressOf(es, m, Run(s, es).progress[m])
  {
    if es != [] {
      var n := |es| - 1;
      var pre, e := es[..n], es[n];
      ProgressIs(s, pre, m);
      if e.Read? && e.reading.meter == m {
        ProgressMoves(s, es, m);
      } else {
        ProgressStays(s, es, m);
      }
    }
  }

  lemma ReadsInPrefix(es: seq<Event>, m: MeterId)
    requires es != []
    ensures forall j :: 0 <= j < |es| - 1 ==> (ReadsAt(es, j, m) <==> ReadsAt(es[..|es| - 1], j, m))
    ensures forall j :: ReadsAt(es, j, m) ==> j == |es| - 1 || ReadsAt(es[..|es| - 1], j, m)
  {
  }

  lemma ProgressMoves(s: AggState, es: seq<Event>, m: MeterId)
    requires es != [] && ReadsAt(es, |es| - 1, m)
    requires var p := Run(s, es[..|es| - 1]).progress;
             && (m in p ==> ProgressOf(es[..|es| - 1], m, p[m]))
             && (m !in p ==> NeverRead(es[..|es| - 1], m))
    ensures m in Run(s, es).progress && ProgressOf(es, m, Run(s, es).progress[m])
  {
    var n := |es| - 1;
    var before, after := Run(s, es[..n]).progress, Run(s, es).progress;
    ReadsInPrefix(es, m);
    assert LastReadAt(es, n, m);
    if m in before && before[m].watermark >= es[n].reading.timestamp {
      var j :| ReadsAt(es[..n], j, m) && es[..n][j].reading.timestamp == before[m].watermark;
      assert ReadsAt(es, j, m) && es[j].reading.timestamp == after[m].watermark;
    } else {
      assert es[n].reading.timestamp == after[m].watermark;
    }
    forall j | ReadsAt(es, j, m) ensures es[j].reading.timestamp <= after[m].watermark {
      if j < n { assert ReadsAt(es[..n], j, m) && es[..n][j] == es[j]; }
    }
  }

  lemma {:induction false} ProgressStays(s: AggState, es: seq<Event>, m: MeterId)
    requires es != [] && !ReadsAt(es, |es| - 1, m)
    requires var p := Run(s, es[..|es| - 1]).progress;
             && (m in p <==> !NeverRead(es[..|es| - 1], m))
             && (m in p ==> ProgressOf(es[..|es| - 1], m, p[m]))
    ensures m in Run(s, es).progress <==> !NeverRead(es, m)
    ensures m in Run(s, es).progress ==> ProgressOf(es, m, Run(s, es).progress[m])
  {
    var n := |es| - 1;
    var before, after := Run(s, es[..n]).progress, Run(s, es).progress;
    ReadsInPrefix(es, m);
    assert m in before <==> m in after;
    if m in before {
      assert after[m] == before[m];
      var i :| LastReadAt(es[..n], i, m) && es[..n][i].now == before[m].lastArrival;
      var j :| ReadsAt(es[..n], j, m) && es[..n][j].reading.timestamp == before[m].watermark;
      assert LastReadAt(es, i, m) && ReadsAt(es, j, m);
      forall k | ReadsAt(es, k, m) ensures es[k].reading.timestamp <= after[m].watermark {
        assert ReadsAt(es[..n], k, m);
      }
    }
  }

  /** Some reading of the meter lies past the window by the grace. */
  ghost predicate MovedPast(es: seq<Event>, k: BinKey, grace: int) {
    exists i :: ReadsAt(es, i, k.meter) && es[i].reading.timestamp >= k.start + WINDOW + grace
  }

  /** The last reading of the meter came in the grace or longer ago. */
  ghost predicate Silent(es: seq<Event>, m: MeterId, now: Instant, grace: int) {
    exists i :: LastReadAt(es, i, m) && es[i].now + grace <= now
  }

  ghost predicate NeverRead(es: seq<Event>, m: MeterId) {
    forall i :: !ReadsAt(es, i, m)
  }

  /**
   Exactly when a sweep takes an active window, over every run from an empty or a restored state and in
   terms of its readings: one of the meter lies past the window by the grace; or the wall clock is past the
   window, the grace is positive and the last reading is that old; or there is none and the wall clock is
   past the window by the grace.
   */
  lemma {:induction false} SweepTakesIff(s: AggState, es: seq<Event>, now: Instant, grace: int, k: BinKey)
    requires Ends(s) && s.progress == map[] && k in Run(s, es).active
    ensures Takes(Run(s, es), Sweep(now, grace), k) <==>
              || MovedPast(es, k, grace)
              || (grace > 0 && Silent(es, k.meter, now, grace) && k.start + WINDOW <= now)
              || (NeverRead(es, k.meter) && k.start + WINDOW + grace <= now)
  {
    RunEnds(s, es);
    ProgressIs(s, es, k.meter);
    var p := Run(s, es).progress;
    if k.meter in p {
      assert MovedPast(es, k, grace) <==> p[k.meter].watermark >= k.start + WINDOW + grace;
      assert Silent(es, k.meter, now, grace) <==> p[k.meter].lastArrival + grace <= now;
    }
  }

  /**
   Over every run, a sweep takes a window only after it is over: the meter's own clock is past it by
   the grace, or the wall clock is past it and the meter is silent for the grace or unheard of.
   */
  lemma TakenIsOver(s: AggState, es: seq<Event>, now: Instant, grace: int, k: BinKey)
    requires Ends(s) && Takes(Run(s, es), Sweep(now, grace), k)
    ensures var p := Get(Run(s, es).progress, k.meter);
            || (p.Some? && p.value.watermark >= k.start + WINDOW + grace)
            || (p.Some? && grace > 0 && k.start + WINDOW <= now && p.value.lastArrival + grace <= now)
            || (p.None? && k.start + WINDOW + grace <= now)
  {
    RunEnds(s, es);
  }

  /** No window is stranded: once it and its meter have been silent for the grace, a sweep takes it. */
  lemma {:induction false} NoWindowIsStranded(s: AggState, es: seq<Event>, now: Instant, grace: int, k: BinKey)
    requires Ends(s) && k in Run(s, es).active && grace > 0 && k.start + WINDOW + grace <= now
    requires k.meter in Run(s, es).progress ==> Run(s, es).progress[k.meter].lastArrival + grace <= now
    ensures var after := es + [Sweep(now, grace)];
            && k !in Run(s, after).active
            && Taken(s, after, k) == Taken(s, es, k) + [Run(s, es).active[k]]
  {
    RunEnds(s, es);
    var after := es + [Sweep(now, grace)];
    assert after[..|after| - 1] == es;
  }

  // ----- watermark correctness -----

  /** The event keeps to the grace: no reading older than watermark - grace, no silent meter at a sweep. */
  ghost predicate Orderly(s: AggState, e: Event, grace: int) {
    match e
    case Read(r, _) => r.meter in s.progress ==> r.timestamp >= s.progress[r.meter].watermark - grace
    case Sweep(now, g) =>
      g == grace && (grace > 0 ==> forall m :: m in s.progress ==> now - s.progress[m].lastArrival < grace)
  }

  ghost predicate OrderlyRun(s: AggState, es: seq<Event>, grace: int) {
    es == [] || (OrderlyRun(s, es[..|es| - 1], grace) && Orderly(Run(s, es[..|es| - 1]), es[|es| - 1], grace))
  }

  /** The watermark of a meter has left this window, grace included. */
  ghost predicate Passed(s: AggState, k: BinKey, grace: int) {
    k.meter in s.progress && s.progress[k.meter].watermark >= k.start + WINDOW + grace
  }

  ghost predicate Shaped(s: AggState) {
    forall k :: k in s.active ==> s.active[k].Key() == k && s.active[k].end == k.start + WINDOW && k.meter in s.progress
  }

  lemma {:induction false} RunShaped(es: seq<Event>)
    ensures Shaped(Run(EMPTY_AGG, es))
  {
    if es != [] { RunShaped(es[..|es| - 1]); }
  }

  /** A window is either still collecting, or was settled once and its meter has moved past it. */
  ghost predicate Whole(es: seq<Event>, k: BinKey, grace: int) {
    var s := Run(EMPTY_AGG, es);
    if Taken(EMPTY_AGG, es, k) == [] then
      && Get(s.active, k) == FoldBin(None, Offered(es, k))
      && k.start !in Settled(s, k.meter)
    else
      && |Taken(EMPTY_AGG, es, k)| == 1
      && FoldBin(None, Offered(es, k)) == Some(Taken(EMPTY_AGG, es, k)[0])
      && k !in s.active
      && Passed(s, k, grace)
  }

  lemma {:induction false} RunWhole(es: seq<Event>, k: BinKey, grace: int)
    requires OrderlyRun(EMPTY_AGG, es, grace)
    ensures Whole(es, k, grace)
  {
    if es != [] {
      var pre, e := es[..|es| - 1], es[|es| - 1];
      var s := Run(EMPTY_AGG, pre);
      RunWhole(pre, k, grace);
      RunShaped(pre);
      var off, taken := Offered(pre, k), Taken(EMPTY_AGG, pre, k);
      match e
      case Read(r, now) => {
        assert taken + [] == taken;
        if r.Key() == k {
          WindowContains(r.timestamp);
          assert taken == [];
          assert (off + [r])[..|off|] == off;
        } else {
          assert off + [] == off;
        }
      }
      case Sweep(now, g) => {
        assert off + [] == off;
        if Takes(s, e, k) {
          assert Passed(s, k, grace);
        } else {
          assert taken + [] == taken;
          SweptWindow(s, CompletedKeys(s, now, g), k.meter);
        }
      }
    }
  }

  /**
   No late drops: with no restored bins, readings within grace of their meter's watermark and
   no silent meter at a sweep, no reading is ever rejected.
   */
  lemma NoReadingIsLate(es: seq<Event>, r: Reading, now: Instant, grace: int)
    requires OrderlyRun(EMPTY_AGG, es + [Read(r, now)], grace)
    ensures !IsLate(Run(EMPTY_AGG, es), r)
  {
    assert (es + [Read(r, now)])[..|es|] == es;
    RunWhole(es, r.Key(), grace);
    WindowContains(r.timestamp);
  }

  /** Under the same conditions each window settles at most once, with all the energy ever offered for it. */
  lemma WindowSettlesWhole(es: seq<Event>, k: BinKey, grace: int)
    requires OrderlyRun(EMPTY_AGG, es, grace)
    ensures |Taken(EMPTY_AGG, es, k)| <= 1
    ensures forall b, q :: b in Taken(EMPTY_AGG, es, k) ==> InBin(q, Some(b)) == SumReadings(q, Offered(es, k))
  {
    RunWhole(es, k, grace);
    forall q, b | b in Taken(EMPTY_AGG, es, k) ensures InBin(q, Some(b)) == SumReadings(q, Offered(es, k)) {
      FoldTotals(q, None, Offered(es, k));
    }
  }
}
