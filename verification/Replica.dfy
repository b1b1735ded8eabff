/**
 The bins hash as a replica of the aggregator: an ordered write-through queue feeds it, writes
 may fail, sweeps delete from it, and a restart reloads it.
 */
module Replica {
  import opened Wrappers
  import opened Windows
  import opened Billing
  import opened Settlement
  import opened SettlementProvenance

  /**
   The pipeline together with what one process lifetime did: the bins it started with, the
   readings it accepted per key, the keys it took, and the keys whose latest snapshot was
   dropped by a failed write.
   */
  datatype Tracked = Tracked(
    sys: Sys,
    base: map<BinKey, BillingBin>,
    accepted: map<BinKey, seq<Reading>>,
    took: set<BinKey>,
    stale: set<BinKey>)

  function AcceptedFor(t: Tracked, k: BinKey): seq<Reading> {
    if k in t.accepted then t.accepted[k] else []
  }

  /** A lifetime begins: nothing accepted, taken or dropped yet. */
  function Begin(s: Sys): Tracked {
    Tracked(s, s.agg.active, map[], {}, {})
  }

  ghost function Track(c: Config, t: Tracked, st: Step): Tracked {
    var s' := Do(c, t.sys, st);
    if !Enabled(c, t.sys, st) then t
    else
      match st
      case Ingest(r, now) =>
        if IsLate(t.sys.agg, r) then t.(sys := s')
        else
          t.(sys := s', accepted := t.accepted[r.Key() := AcceptedFor(t, r.Key()) + [r]],
             stale := t.stale - {r.Key()})
      case WriteThrough(reply) =>
        var k := t.sys.queue[0].Key();
        t.(sys := s', stale := if reply.Applied() || QueuedLater(t.sys.queue, k) then t.stale else t.stale + {k})
      case SweepStep(a) =>
        if a.Take? then t.(sys := s', took := t.took + set b | b in a.order :: b.Key()) else t.(sys := s')
      case Crash => Begin(s')
      case _ => t.(sys := s')
  }

  /** A newer snapshot of the same key is still queued. */
  ghost predicate QueuedLater(queue: seq<BillingBin>, k: BinKey) {
    exists i :: 0 < i < |queue| && queue[i].Key() == k
  }

  ghost function TrackRun(c: Config, t: Tracked, run: seq<Step>): Tracked {
    if run == [] then t else Track(c, TrackRun(c, t, run[..|run| - 1]), run[|run| - 1])
  }

  /** The hash once every queued snapshot has been written. */
  function Replay(bins: map<BinKey, BillingBin>, queue: seq<BillingBin>): map<BinKey, BillingBin> {
    if queue == [] then bins
    else
      var b := queue[|queue| - 1];
      Replay(bins, queue[..|queue| - 1])[b.Key() := b]
  }

  lemma {:induction false} ReplayFront(bins: map<BinKey, BillingBin>, queue: seq<BillingBin>)
    requires queue != []
    ensures Replay(bins, queue) == Replay(bins[queue[0].Key() := queue[0]], queue[1..])
  {
    var n := |queue| - 1;
    if n > 0 {
      ReplayFront(bins, queue[..n]);
      assert queue[..n][1..] == queue[1..][..n - 1];
    }
  }

  /** Two stored maps that differ at `k` only replay alike once `k` is written again. */
  lemma {:induction false} ReplayOverwrites(a: map<BinKey, BillingBin>, b: map<BinKey, BillingBin>,
                                            queue: seq<BillingBin>, k: BinKey)
    requires (exists i :: 0 <= i < |queue| && queue[i].Key() == k) || Get(a, k) == Get(b, k)
    ensures Get(Replay(a, queue), k) == Get(Replay(b, queue), k)
  {
    if queue != [] {
      var n := |queue| - 1;
      if queue[n].Key() != k {
        if Get(a, k) != Get(b, k) {
          var i :| 0 <= i < |queue| && queue[i].Key() == k;
          assert queue[..n][i].Key() == k;
        }
        ReplayOverwrites(a, b, queue[..n], k);
      }
    }
  }

  // ----- invariant of one key that was not taken in this lifetime -----

  /** The bin is the fold of a prefix of the readings accepted for `k`; its count says which. */
  ghost predicate PrefixFold(base: Option<BillingBin>, rs: seq<Reading>, b: BillingBin) {
    var n := b.count - (if base.Some? then base.value.count else 0);
    0 <= n <= |rs| && FoldBin(base, rs[..n]) == Some(b)
  }

  ghost predicate Tracks(t: Tracked, k: BinKey) {
    var s, base, rs := t.sys, Get(t.base, k), AcceptedFor(t, k);
    && Get(s.agg.active, k) == FoldBin(base, rs)
    && (k in s.bins ==> PrefixFold(base, rs, s.bins[k]))
    && (forall i :: 0 <= i < |s.queue| && s.queue[i].Key() == k ==> PrefixFold(base, rs, s.queue[i]))
    && (k !in t.stale ==> Get(Replay(s.bins, s.queue), k) == Get(s.agg.active, k))
  }

  ghost predicate SweepTook(t: Tracked) {
    var w := t.sys.sweep;
    w.Sweeping? ==> w.cur.Key() in t.took && forall i :: 0 <= i < |w.rest| ==> w.rest[i].Key() in t.took
  }

  ghost predicate Inv(t: Tracked) {
    SweepTook(t) && forall k :: k !in t.took ==> Tracks(t, k)
  }

  /** Folding counts readings, so the fold of all readings is also a prefix fold. */
  lemma {:induction false} FoldCounts(base: Option<BillingBin>, rs: seq<Reading>)
    ensures FoldBin(base, rs).Some? ==>
              FoldBin(base, rs).value.count == |rs| + (if base.Some? then base.value.count else 0)
    ensures FoldBin(base, rs).None? <==> base.None? && rs == []
  {
    if rs != [] { FoldCounts(base, rs[..|rs| - 1]); }
  }

  lemma PrefixStays(base: Option<BillingBin>, rs: seq<Reading>, r: Reading, b: BillingBin)
    requires PrefixFold(base, rs, b)
    ensures PrefixFold(base, rs + [r], b)
  {
    var n := b.count - (if base.Some? then base.value.count else 0);
    assert (rs + [r])[..n] == rs[..n];
  }

  lemma {:induction false} WholeIsPrefix(base: Option<BillingBin>, rs: seq<Reading>)
    requires FoldBin(base, rs).Some?
    ensures PrefixFold(base, rs, FoldBin(base, rs).value)
  {
    FoldCounts(base, rs);
    assert rs[..|rs|] == rs;
  }

  // ----- steps -----

  /** The tracked effect of one accepted reading: one snapshot queued, one reading accepted. */
  lemma IngestEffect(c: Config, t: Tracked, r: Reading, now: Instant)
    requires r.meter == MeterId(r.serial) && !IsLate(t.sys.agg, r)
    requires GenuineMap(t.sys.agg.active)
    ensures var t', s := Track(c, t, Ingest(r, now)), t.sys;
            var b := AddReading(if r.Key() in s.agg.active then s.agg.active[r.Key()] else EmptyBin(r), r);
            && b.Key() == r.Key()
            && t'.sys.queue == s.queue + [b] && t'.sys.agg.active == s.agg.active[r.Key() := b] && t'.sys.bins == s.bins
            && t'.base == t.base && t'.stale == t.stale - {r.Key()}
            && (forall k :: AcceptedFor(t', k) == AcceptedFor(t, k) + if k == r.Key() then [r] else [])
  {
  }

  lemma IngestTracksKey(t: Tracked, t': Tracked, r: Reading, b: BillingBin, k: BinKey)
    requires Tracks(t, k) && b.Key() == k
    requires b == AddReading(if k in t.sys.agg.active then t.sys.agg.active[k] else EmptyBin(r), r)
    requires t'.sys.queue == t.sys.queue + [b] && t'.sys.agg.active == t.sys.agg.active[k := b]
    requires t'.sys.bins == t.sys.bins
    requires t'.base == t.base && AcceptedFor(t', k) == AcceptedFor(t, k) + [r]
    ensures Tracks(t', k)
  {
    var s, base, rs := t.sys, Get(t.base, k), AcceptedFor(t, k);
    var queue, rs' := s.queue + [b], rs + [r];
    assert queue[..|queue| - 1] == s.queue;
    assert rs'[..|rs'| - 1] == rs;
    assert FoldBin(base, rs') == Some(b);
    WholeIsPrefix(base, rs');
    if k in s.bins { PrefixStays(base, rs, r, s.bins[k]); }
    forall i | 0 <= i < |queue| && queue[i].Key() == k ensures PrefixFold(base, rs', queue[i]) {
      if i < |s.queue| { assert queue[i] == s.queue[i]; PrefixStays(base, rs, r, s.queue[i]); }
    }
  }

  lemma IngestTracksOther(t: Tracked, t': Tracked, b: BillingBin, k: BinKey)
    requires Tracks(t, k) && b.Key() != k
    requires t'.sys.queue == t.sys.queue + [b] && t'.sys.agg.active == t.sys.agg.active[b.Key() := b]
    requires t'.sys.bins == t.sys.bins
    requires t'.base == t.base && AcceptedFor(t', k) == AcceptedFor(t, k) && t'.stale == t.stale - {b.Key()}
    ensures Tracks(t', k)
  {
    var s := t.sys;
    var queue := s.queue + [b];
    assert queue[..|queue| - 1] == s.queue;
    forall i | 0 <= i < |queue| && queue[i].Key() == k
      ensures PrefixFold(Get(t.base, k), AcceptedFor(t, k), queue[i])
    {
      assert i < |s.queue| && queue[i] == s.queue[i];
    }
  }

  lemma IngestTracks(c: Config, t: Tracked, r: Reading, now: Instant, k: BinKey)
    requires GenuineBins(t.sys) && Tracks(t, k) && r.meter == MeterId(r.serial) && !IsLate(t.sys.agg, r)
    ensures Tracks(Track(c, t, Ingest(r, now)), k)
  {
    var t' := Track(c, t, Ingest(r, now));
    var b := AddReading(if r.Key() in t.sys.agg.active then t.sys.agg.active[r.Key()] else EmptyBin(r), r);
    IngestEffect(c, t, r, now);
    if r.Key() == k { IngestTracksKey(t, t', r, b, k); }
    else { assert AcceptedFor(t, k) + [] == AcceptedFor(t, k); IngestTracksOther(t, t', b, k); }
  }

  lemma WriteTracks(c: Config, t: Tracked, reply: Reply, k: BinKey)
    requires Tracks(t, k) && t.sys.queue != []
    ensures Tracks(Track(c, t, WriteThrough(reply)), k)
  {
    var s := t.sys;
    var t' := Track(c, t, WriteThrough(reply));
    var b, rest := s.queue[0], s.queue[1..];
    assert t'.sys == FireWrite(s, reply);
    assert AcceptedFor(t', k) == AcceptedFor(t, k) && t'.base == t.base;
    forall i | 0 <= i < |rest| && rest[i].Key() == k ensures PrefixFold(Get(t.base, k), AcceptedFor(t, k), rest[i]) {
      assert rest[i] == s.queue[i + 1];
    }
    ReplayFront(s.bins, s.queue);
    if !reply.Applied() && k !in t'.stale {
      if b.Key() == k {
        var i :| 0 < i < |s.queue| && s.queue[i].Key() == k;
        assert rest[i - 1].Key() == k;
      }
      ReplayOverwrites(s.bins[b.Key() := b], s.bins, rest, k);
    }
  }

  /** A sweep changes nothing about a key it did not take. */
  lemma TakeTracks(c: Config, t: Tracked, now: Instant, order: seq<BillingBin>, k: BinKey)
    requires GenuineBins(t.sys) && Tracks(t, k) && SweepEnabled(c, t.sys, Take(now, order))
    requires k !in Track(c, t, SweepStep(Take(now, order))).took
    ensures Tracks(Track(c, t, SweepStep(Take(now, order))), k)
  {
    var s := t.sys;
    assert Get(FireTake(c, s, now, order).agg.active, k) == Get(s.agg.active, k);
  }

  lemma {:induction false} ReplayWithout(bins: map<BinKey, BillingBin>, gone: BinKey, queue: seq<BillingBin>, k: BinKey)
    requires k != gone
    ensures Get(Replay(bins - {gone}, queue), k) == Get(Replay(bins, queue), k)
  {
    if queue != [] { ReplayWithout(bins, gone, queue[..|queue| - 1], k); }
  }

  lemma EvictTracks(c: Config, t: Tracked, reply: Reply, k: BinKey)
    requires Tracks(t, k) && SweepTook(t) && k !in t.took
    requires t.sys.sweep.Sweeping? && t.sys.sweep.phase.Evicting?
    ensures Tracks(Track(c, t, SweepStep(Evict(reply))), k)
  {
    var s, gone := t.sys, t.sys.sweep.cur.Key();
    var t' := Track(c, t, SweepStep(Evict(reply)));
    assert t' == t.(sys := FireEvict(c, s, reply));
    assert gone != k;
    ReplayWithout(s.bins, gone, s.queue, k);
    WithoutTracks(t, t', gone, k);
  }

  lemma WithoutTracks(t: Tracked, t': Tracked, gone: BinKey, k: BinKey)
    requires Tracks(t, k) && k != gone
    requires Get(Replay(t.sys.bins - {gone}, t.sys.queue), k) == Get(Replay(t.sys.bins, t.sys.queue), k)
    requires t' == t.(sys := t'.sys) && t'.sys.queue == t.sys.queue && t'.sys.agg == t.sys.agg
    requires t'.sys.bins == t.sys.bins || t'.sys.bins == t.sys.bins - {gone}
    ensures Tracks(t', k)
  {
  }

  /** The step leaves bins, queue and aggregator alone. */
  lemma FrameTracks(t: Tracked, t': Tracked, k: BinKey)
    requires Tracks(t, k)
    requires t' == t.(sys := t'.sys) && t'.sys.bins == t.sys.bins && t'.sys.queue == t.sys.queue
    requires Get(t'.sys.agg.active, k) == Get(t.sys.agg.active, k)
    ensures Tracks(t', k)
  {
  }

  lemma BeginTracks(s: Sys, k: BinKey)
    requires s == Restarted(s)
    ensures Tracks(Begin(s), k)
  {
    assert s.agg.active == s.bins;
    if k in s.bins { WholeIsPrefix(Get(s.bins, k), []); }
  }

  lemma StepTracks(c: Config, t: Tracked, st: Step, k: BinKey)
    requires GenuineBins(t.sys) && Inv(t) && k !in Track(c, t, st).took
    ensures Tracks(Track(c, t, st), k)
  {
    if st.Crash? {
      BeginTracks(Restarted(t.sys), k);
    } else if Enabled(c, t.sys, st) {
      match st
      case Ingest(r, now) =>
        if IsLate(t.sys.agg, r) { FrameTracks(t, Track(c, t, st), k); } else { IngestTracks(c, t, r, now, k); }
      case WriteThrough(reply) => WriteTracks(c, t, reply, k);
      case SweepStep(a) =>
        if a.Take? { TakeTracks(c, t, a.now, a.order, k); }
        else if a.Evict? { EvictTracks(c, t, a.reply, k); }
        else { FrameTracks(t, Track(c, t, st), k); }
      case _ => FrameTracks(t, Track(c, t, st), k);
    }
  }

  lemma TakeTook(c: Config, t: Tracked, now: Instant, order: seq<BillingBin>)
    requires SweepEnabled(c, t.sys, Take(now, order))
    ensures SweepTook(Track(c, t, SweepStep(Take(now, order))))
  {
    var t' := Track(c, t, SweepStep(Take(now, order)));
    forall i | 0 <= i < |order| ensures order[i].Key() in t'.took { assert order[i] in order; }
    assert t'.sys.sweep == StartSweep(order);
  }

  /** No step but a take adds bins to the sweep. */
  lemma SweepShrinks(c: Config, s: Sys, a: SweepAction)
    requires SweepEnabled(c, s, a) && !a.Take?
    ensures var w := FireSweep(c, s, a).sweep;
            || w == SweepIdle
            || (w.Sweeping? && w.cur == s.sweep.cur && w.rest == s.sweep.rest)
            || (w.Sweeping? && s.sweep.rest != [] && w.cur == s.sweep.rest[0] && w.rest == s.sweep.rest[1..])
  {
  }

  lemma StepTook(c: Config, t: Tracked, st: Step)
    requires SweepTook(t)
    ensures SweepTook(Track(c, t, st))
  {
    if Enabled(c, t.sys, st) && st.SweepStep? {
      if st.sweep.Take? { TakeTook(c, t, st.sweep.now, st.sweep.order); } else { SweepShrinks(c, t.sys, st.sweep); }
    }
  }

  lemma TrackedSys(c: Config, t: Tracked, st: Step)
    ensures Track(c, t, st).sys == Do(c, t.sys, st)
  {
  }

  lemma {:induction false} RunTracks(c: Config, s: Sys, run: seq<Step>)
    requires s == Restarted(s) && GenuineBins(s)
    ensures var t := TrackRun(c, Begin(s), run);
            t.sys == Exec(c, s, run) && Inv(t)
  {
    if run == [] {
      forall k ensures Tracks(Begin(s), k) { BeginTracks(s, k); }
    } else {
      var pre, st := run[..|run| - 1], run[|run| - 1];
      RunTracks(c, s, pre);
      var t := TrackRun(c, Begin(s), pre);
      RunGenuine(c, s, pre);
      TrackedSys(c, t, st);
      StepTook(c, t, st);
      forall k | k !in Track(c, t, st).took ensures Tracks(Track(c, t, st), k) { StepTracks(c, t, st, k); }
    }
  }

  // ----- a taken key is remembered, or it is out of the retention horizon -----

  ghost predicate OutOfHorizon(a: AggState, k: BinKey) {
    k.meter in a.progress && k.start < a.progress[k.meter].watermark - SETTLED_RETENTION
  }

  ghost predicate Remembers(a: AggState, took: set<BinKey>) {
    && (forall k :: k in a.active ==> k.start !in Settled(a, k.meter))
    && (forall k :: k in took ==> k.start in Settled(a, k.meter) || OutOfHorizon(a, k))
  }

  lemma ReadRemembers(a: AggState, r: Reading, now: Instant, took: set<BinKey>)
    requires Remembers(a, took)
    ensures Remembers(HandleReading(a, r, now).0, took)
  {
  }

  lemma RemoveRemembers(a: AggState, keys: set<BinKey>, took: set<BinKey>)
    requires Remembers(a, took)
    ensures Remembers(RemoveBins(a, keys), took + keys)
  {
    var a' := RemoveBins(a, keys);
    forall k | k in took + keys ensures k.start in Settled(a', k.meter) || OutOfHorizon(a', k) {
      assert Settled(a', k.meter) == SettledAfter(a, keys, k.meter);
    }
    forall k | k in a'.active ensures k.start !in Settled(a', k.meter) {
      assert Settled(a', k.meter) == SettledAfter(a, keys, k.meter);
    }
  }

  lemma {:induction false} StepRemembers(c: Config, t: Tracked, st: Step)
    requires GenuineBins(t.sys) && Remembers(t.sys.agg, t.took)
    ensures Remembers(Track(c, t, st).sys.agg, Track(c, t, st).took)
  {
    if Enabled(c, t.sys, st) {
      if st.Ingest? {
        IngestRemembers(c, t, st.r, st.now);
      } else if st.SweepStep? && st.sweep.Take? {
        TakeRemembers(c, t, st.sweep.now, st.sweep.order);
      } else if !st.Crash? {
        QuietStep(c, t, st);
      } else {
        RestartRemembers(t.sys);
      }
    }
  }

  lemma IngestRemembers(c: Config, t: Tracked, r: Reading, now: Instant)
    requires Remembers(t.sys.agg, t.took) && r.meter == MeterId(r.serial)
    ensures var t' := Track(c, t, Ingest(r, now)); Remembers(t'.sys.agg, t'.took)
  {
    var t' := Track(c, t, Ingest(r, now));
    assert t'.sys == FireIngest(t.sys, r, now) && t'.took == t.took;
    ReadRemembers(t.sys.agg, r, now, t.took);
  }

  lemma QuietStep(c: Config, t: Tracked, st: Step)
    requires !st.Ingest? && !(st.SweepStep? && st.sweep.Take?) && !st.Crash?
    ensures Track(c, t, st).sys.agg == t.sys.agg && Track(c, t, st).took == t.took
  {
  }

  lemma RestartRemembers(s: Sys)
    ensures Remembers(Begin(Restarted(s)).sys.agg, {})
  {
  }

  lemma TakeRemembers(c: Config, t: Tracked, now: Instant, order: seq<BillingBin>)
    requires Remembers(t.sys.agg, t.took) && SweepEnabled(c, t.sys, Take(now, order))
    ensures var t' := Track(c, t, SweepStep(Take(now, order))); Remembers(t'.sys.agg, t'.took)
  {
    var keys := CompletedKeys(t.sys.agg, now, c.grace);
    RemoveRemembers(t.sys.agg, keys, t.took);
    assert forall b :: b in order ==> b.Key() in keys;
  }

  lemma {:induction false} RunRemembers(c: Config, s: Sys, run: seq<Step>)
    requires s == Restarted(s) && GenuineBins(s)
    ensures var t := TrackRun(c, Begin(s), run); Remembers(t.sys.agg, t.took)
  {
    if run != [] {
      var pre := run[..|run| - 1];
      RunRemembers(c, s, pre);
      RunTracks(c, s, pre);
      RunGenuine(c, s, pre);
      StepRemembers(c, TrackRun(c, Begin(s), pre), run[|run| - 1]);
    }
  }

  /**
   The durable replica, over every run from a restart: for an active key inside the retention
   horizon, writing out the queue gives exactly the in-memory bin unless the key's last write
   failed; and whatever the hash holds for it is the restored bin with a prefix of the readings
   accepted since.
   */
  lemma {:induction false} ReplicaOfActiveBins(c: Config, s: Sys, run: seq<Step>, k: BinKey)
    requires s == Restarted(s) && GenuineBins(s)
    requires var a := Exec(c, s, run).agg; k in a.active && !OutOfHorizon(a, k)
    ensures var t := TrackRun(c, Begin(s), run);
            && t.sys == Exec(c, s, run)
            && (k !in t.stale ==> Get(Replay(t.sys.bins, t.sys.queue), k) == Some(t.sys.agg.active[k]))
            && (k in t.sys.bins ==> PrefixFold(Get(t.base, k), AcceptedFor(t, k), t.sys.bins[k]))
  {
    RunTracks(c, s, run);
    RunRemembers(c, s, run);
    var t := TrackRun(c, Begin(s), run);
    assert k !in t.took;
    assert Tracks(t, k);
  }

  ghost predicate NoFailedWrite(run: seq<Step>) {
    forall i :: 0 <= i < |run| && run[i].WriteThrough? ==> run[i].reply.Applied()
  }

  lemma StaleStep(c: Config, t: Tracked, st: Step)
    requires t.stale == {} && (st.WriteThrough? ==> st.reply.Applied())
    ensures Track(c, t, st).stale == {}
  {
  }

  /** Without failed writes no key is ever stale, so the replica of every such key is exact. */
  lemma {:induction false} NothingStale(c: Config, s: Sys, run: seq<Step>)
    requires NoFailedWrite(run)
    ensures TrackRun(c, Begin(s), run).stale == {}
  {
    if run != [] {
      var pre := run[..|run| - 1];
      NothingStale(c, s, pre);
      StaleStep(c, TrackRun(c, Begin(s), pre), run[|run| - 1]);
    }
  }

  /** With no failed write, writing out the queue gives exactly the in-memory bin of every such key. */
  lemma ReplicaIsExact(c: Config, s: Sys, run: seq<Step>, k: BinKey)
    requires s == Restarted(s) && GenuineBins(s) && NoFailedWrite(run)
    requires var a := Exec(c, s, run).agg; k in a.active && !OutOfHorizon(a, k)
    ensures var t := Exec(c, s, run); Get(Replay(t.bins, t.queue), k) == Some(t.agg.active[k])
  {
    ReplicaOfActiveBins(c, s, run, k);
    NothingStale(c, s, run);
  }
}
