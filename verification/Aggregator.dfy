/** The aggregator as the object the ingest path and the settlement loop share. */
module Aggregators {
  import opened Wrappers
  import opened Windows
  import opened Billing

  lemma RemoveNone(s: AggState)
    ensures RemoveBins(s, SetOf([])) == s
  {
    var e := SetOf([]);
    assert Meters(e) == {};
    forall m | m in s.settled ensures SettledAfter(s, e, m) == s.settled[m] {
      assert (set k | k in e && k.meter == m :: k.start) == {};
    }
    assert RemoveBins(s, e).active == s.active;
    assert RemoveBins(s, e).settled == s.settled;
  }

  /** The settled windows of a meter after its window `w` is remembered and old ones are pruned. */
  function Remember(s: AggState, m: MeterId, w: Instant): set<Instant> {
    var windows := Settled(s, m) + {w};
    if m in s.progress
    then set x | x in windows && x >= s.progress[m].watermark - SETTLED_RETENTION
    else windows
  }

  lemma OtherMeter(s: AggState, keys: set<BinKey>, k: BinKey, m: MeterId)
    requires m != k.meter
    ensures SettledAfter(s, keys + {k}, m) == SettledAfter(s, keys, m)
  {
    assert m in Meters(keys + {k}) <==> m in Meters(keys);
    assert (set x | x in keys + {k} && x.meter == m :: x.start) == (set x | x in keys && x.meter == m :: x.start);
  }

  lemma SameMeter(s: AggState, keys: set<BinKey>, k: BinKey)
    ensures SettledAfter(s, keys + {k}, k.meter) == Remember(RemoveBins(s, keys), k.meter, k.start)
  {
    var first := SettledAfter(s, keys, k.meter);
    assert Settled(RemoveBins(s, keys), k.meter) == first;
    assert k.meter in Meters(keys + {k});
    var starts := set x | x in keys && x.meter == k.meter :: x.start;
    assert (set x | x in keys + {k} && x.meter == k.meter :: x.start) == starts + {k.start};
  }

  lemma MetersOneMore(keys: set<BinKey>, k: BinKey)
    ensures Meters(keys + {k}) == Meters(keys) + {k.meter}
  {
  }

  lemma SettledAt(s: AggState, keys: set<BinKey>, k: BinKey, m: MeterId)
    requires m in s.settled.Keys + Meters(keys) + {k.meter}
    ensures var r := RemoveBins(s, keys);
            r.settled[k.meter := Remember(r, k.meter, k.start)][m] == SettledAfter(s, keys + {k}, m)
  {
    if m == k.meter { SameMeter(s, keys, k); } else { OtherMeter(s, keys, k, m); }
  }

  lemma {:induction false} SettleOneMore(s: AggState, keys: set<BinKey>, k: BinKey)
    ensures var r := RemoveBins(s, keys);
            RemoveBins(s, keys + {k}).settled == r.settled[k.meter := Remember(r, k.meter, k.start)]
  {
    MetersOneMore(keys, k);
    forall m | m in s.settled.Keys + Meters(keys) + {k.meter}
      ensures var r := RemoveBins(s, keys);
              r.settled[k.meter := Remember(r, k.meter, k.start)][m] == SettledAfter(s, keys + {k}, m)
    {
      SettledAt(s, keys, k, m);
    }
  }

  /** Removing a set of keys and then one more is removing the larger set. */
  lemma RemoveOneMore(s: AggState, keys: set<BinKey>, k: BinKey)
    ensures var r := RemoveBins(s, keys);
            RemoveBins(s, keys + {k})
            == AggState(r.active - {k}, r.progress, r.settled[k.meter := Remember(r, k.meter, k.start)])
  {
    SettleOneMore(s, keys, k);
    assert RemoveBins(s, keys + {k}).active == RemoveBins(s, keys).active - {k};
  }

  class Aggregator {
    var activeBins: map<BinKey, BillingBin>
    var progress: map<MeterId, Progress>
    var settled: map<MeterId, set<Instant>>

    function State(): AggState
      reads this
    {
      AggState(activeBins, progress, settled)
    }

    constructor ()
      ensures State() == EMPTY_AGG
    {
      activeBins, progress, settled := map[], map[], map[];
    }

    static method Accumulate(bin: BillingBin, r: Reading) returns (b: BillingBin)
      ensures b == AddReading(bin, r)
    {
      b := bin.(generated := bin.generated + r.generated, consumed := bin.consumed + r.consumed,
                count := bin.count + 1);
      if b.zone.None? {
        b := b.(zone := r.zone);
      }
      match r.tariff {
        case Some(1) =>
          b := b.(generatedPeak := b.generatedPeak + r.generated, consumedPeak := b.consumedPeak + r.consumed);
        case Some(2) =>
          b := b.(generatedOffpeak := b.generatedOffpeak + r.generated,
                  consumedOffpeak := b.consumedOffpeak + r.consumed);
        case _ =>
      }
      if r.demand.Some? && r.demand.value > b.maxDemand {
        b := b.(maxDemand := r.demand.value);
      }
    }

    /** Moves the meter's watermark and arrival time. */
    method Progressed(r: Reading, now: Instant)
      modifies this`progress
      ensures State() == Advance(old(State()), r, now)
    {
      if r.meter !in progress {
        progress := progress[r.meter := Progress(r.timestamp, now)];
      }
      var p := progress[r.meter];
      if r.timestamp > p.watermark {
        p := p.(watermark := r.timestamp);
      }
      progress := progress[r.meter := p.(lastArrival := now)];
    }

    static method StartOf(t: Instant) returns (w: Instant)
      ensures w == WindowOf(t)
    {
      w := GetWindowStart(t);
    }

    /** Bins one reading; None says that its window has already settled. */
    method Handle(r: Reading, now: Instant) returns (snapshot: Option<BillingBin>)
      modifies this
      ensures (State(), snapshot) == HandleReading(old(State()), r, now)
    {
      var start := StartOf(r.timestamp);
      Progressed(r, now);
      if r.meter in settled && start in settled[r.meter] {
        return None;
      }
      var key := BinKey(r.meter, start);
      var bin := if key in activeBins then activeBins[key]
                 else BillingBin(r.meter, r.user, r.serial, start, start + WINDOW,
                                 0.0, 0.0, 0, 0.0, 0.0, 0.0, 0.0, 0.0, r.zone);
      bin := Accumulate(bin, r);
      activeBins := activeBins[key := bin];
      snapshot := Some(bin);
    }

    /** The completed bins, each once, in no particular order; the aggregator is not changed. */
    method PeekCompletedBinsAt(now: Instant, grace: int) returns (bins: seq<BillingBin>)
      requires State().WellKeyed()
      ensures forall b :: b in bins <==> b.Key() in CompletedKeys(State(), now, grace) && activeBins[b.Key()] == b
      ensures forall i, j :: 0 <= i < j < |bins| ==> bins[i].Key() != bins[j].Key()
    {
      bins := [];
      var todo := activeBins.Keys;
      ghost var done: set<BinKey> := {};
      while todo != {}
        invariant todo + done == activeBins.Keys && todo !! done
        invariant forall b :: b in bins ==> b.Key() in done
        invariant forall b :: b in bins <==>
                    b.Key() in done && b.Key() in CompletedKeys(State(), now, grace) && activeBins[b.Key()] == b
        invariant forall i, j :: 0 <= i < j < |bins| ==> bins[i].Key() != bins[j].Key()
        decreases todo
      {
        var k :| k in todo;
        var bin := activeBins[k];
        var complete := false;
        if bin.meter in progress {
          var p := progress[bin.meter];
          complete := p.watermark >= bin.end + grace || (grace > 0 && now - p.lastArrival >= grace && bin.end <= now);
        } else {
          complete := bin.end + grace <= now;
        }
        if complete {
          bins := bins + [bin];
        }
        todo, done := todo - {k}, done + {k};
      }
    }

    /** One pass of the removal loop: evict, remember the window, prune what is a day behind. */
    method RemoveKey(k: BinKey)
      modifies this
      ensures var s := old(State());
              State() == AggState(s.active - {k}, s.progress, s.settled[k.meter := Remember(s, k.meter, k.start)])
    {
      activeBins := activeBins - {k};
      var windows := (if k.meter in settled then settled[k.meter] else {}) + {k.start};
      if k.meter in progress {
        var horizon := progress[k.meter].watermark - SETTLED_RETENTION;
        windows := set w | w in windows && w >= horizon;
      }
      settled := settled[k.meter := windows];
    }

    /** Removes settled bins key by key; the result does not depend on the order of the keys. */
    method Remove(keys: seq<BinKey>)
      modifies this
      ensures State() == RemoveBins(old(State()), SetOf(keys))
    {
      ghost var before := State();
      RemoveNone(before);
      for i := 0 to |keys|
        invariant State() == RemoveBins(before, SetOf(keys[..i]))
      {
        RemoveKey(keys[i]);
        RemoveOneMore(before, SetOf(keys[..i]), keys[i]);
        assert SetOf(keys[..i + 1]) == SetOf(keys[..i]) + {keys[i]};
      }
      assert keys[..|keys|] == keys;
    }

    /** Startup restore from the durable store. */
    method Restore(bins: seq<BillingBin>)
      modifies this
      ensures State() == RestoreBins(old(State()), bins)
    {
      for i := 0 to |bins|
        invariant State() == RestoreBins(old(State()), bins[..i])
      {
        activeBins := activeBins[bins[i].Key() := bins[i]];
        assert bins[..i + 1][..i] == bins[..i];
      }
      assert bins[..|bins|] == bins;
    }
  }

  /** The bin at `i` is `b`, and no later one has its key. */
  ghost predicate IsLast(bins: seq<BillingBin>, i: int, b: BillingBin) {
    0 <= i < |bins| && bins[i] == b && forall j :: i < j < |bins| ==> bins[j].Key() != b.Key()
  }

  /** Restoring onto an empty aggregator holds exactly the last bin of each key. */
  lemma {:induction false} RestoredBin(bins: seq<BillingBin>, b: BillingBin)
    ensures Get(RestoreBins(EMPTY_AGG, bins).active, b.Key()) == Some(b) <==> exists i :: IsLast(bins, i, b)
  {
    if bins != [] {
      var n := |bins| - 1;
      var pre, last := bins[..n], bins[n];
      RestoredBin(pre, b);
      if last == b { assert IsLast(bins, n, b); }
      if last.Key() != b.Key() {
        forall i ensures IsLast(bins, i, b) <==> IsLast(pre, i, b) {
        }
      }
    }
  }

  /** And it settles nothing. */
  lemma {:induction false} RestoredState(bins: seq<BillingBin>)
    ensures var s := RestoreBins(EMPTY_AGG, bins);
            s.WellKeyed() && s.progress == map[] && s.settled == map[]
  {
    if bins != [] { RestoredState(bins[..|bins| - 1]); }
  }
}
