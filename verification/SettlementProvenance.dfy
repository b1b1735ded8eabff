/** Where durable entries go and where minted amounts come from. */
module SettlementProvenance {
  import opened Windows
  import opened Billing
  import opened Settlement
  import opened SettlementSafety

  // ----- every bin belongs to its serial and to a window -----

  ghost predicate Genuine(b: BillingBin) {
    b.meter == MeterId(b.serial) && b.start % WINDOW == 0
  }

  ghost predicate GenuineMap(bins: map<BinKey, BillingBin>) {
    forall k :: k in bins ==> Genuine(bins[k]) && bins[k].Key() == k
  }

  ghost predicate GenuineSeq(bins: seq<BillingBin>) {
    forall i :: 0 <= i < |bins| ==> Genuine(bins[i])
  }

  ghost predicate GenuineSweep(w: Sweep, taken: set<BillingBin>) {
    w.Sweeping? ==> w.cur in taken && forall i :: 0 <= i < |w.rest| ==> w.rest[i] in taken
  }

  ghost predicate GenuineTaken(taken: set<BillingBin>) {
    forall b :: b in taken ==> Genuine(b)
  }

  ghost predicate GenuineBins(s: Sys) {
    && GenuineMap(s.bins) && GenuineMap(s.agg.active) && GenuineSeq(s.queue)
    && GenuineSweep(s.sweep, s.taken) && GenuineTaken(s.taken)
  }

  lemma IngestGenuine(a: AggState, r: Reading, now: Instant)
    requires GenuineMap(a.active) && r.meter == MeterId(r.serial)
    ensures GenuineMap(HandleReading(a, r, now).0.active)
    ensures var snapshot := HandleReading(a, r, now).1; snapshot.Some? ==> Genuine(snapshot.value)
  {
    WindowContains(r.timestamp);
  }

  /** A step that leaves bins, aggregator and queue alone and moves the sweep within the taken bins. */
  lemma GenuineFrame(s: Sys, t: Sys)
    requires GenuineBins(s)
    requires t.bins == s.bins && t.agg == s.agg && t.queue == s.queue && t.taken == s.taken
    requires t.sweep.Sweeping? ==> s.sweep.Sweeping? && t.sweep.cur == s.sweep.cur && t.sweep.rest == s.sweep.rest
    ensures GenuineBins(t)
  {
  }

  lemma TakeGenuine(c: Config, s: Sys, now: Instant, order: seq<BillingBin>)
    requires GenuineBins(s) && ListsCompleted(s.agg, now, c.grace, order)
    ensures GenuineBins(FireTake(c, s, now, order))
  {
    forall b | b in order ensures Genuine(b) {
      assert b.Key() in CompletedKeys(s.agg, now, c.grace);
    }
  }

  lemma SweepGenuine(c: Config, s: Sys, a: SweepAction)
    requires GenuineBins(s) && SweepEnabled(c, s, a)
    ensures GenuineBins(FireSweep(c, s, a))
  {
    match a
    case Take(now, order) => TakeGenuine(c, s, now, order);
    case Plan(readModel, sourceOfTruth, nowMs) => GenuineFrame(s, FirePlan(c, s, readModel, sourceOfTruth, nowMs));
    case Enqueue(reply, id) => GenuineFrame(s, FireEnqueue(s, reply, id));
    case ClaimDirect => GenuineFrame(s, FireDirectClaim(s));
    case ResolveDirect(walletOk) => GenuineFrame(s, FireDirectResolve(s, walletOk));
    case ReplyDirect(success) => GenuineFrame(s, FireDirectReply(s, success));
    case Evict(reply) =>
  }

  lemma TaskGenuine(s: Sys, id: nat, a: TaskAction)
    requires GenuineBins(s) && TaskEnabled(s, id, a)
    ensures GenuineBins(FireTask(s, id, a))
  {
    GenuineFrame(s, FireTask(s, id, a));
  }

  lemma {:induction false} StepGenuine(c: Config, s: Sys, st: Step)
    requires GenuineBins(s)
    ensures GenuineBins(Do(c, s, st))
  {
    if Enabled(c, s, st) {
      match st
      case Ingest(r, now) => IngestGenuine(s.agg, r, now);
      case SweepStep(a) => SweepGenuine(c, s, a);
      case TaskStep(id, a) => TaskGenuine(s, id, a);
      case DrainStep(a) => GenuineFrame(s, FireDrain(c, s, a));
      case _ =>
    }
  }

  // ----- a durable entry leaves only for a durable home -----

  /** The step is a sweep giving up the durable entry of `k` because nothing is owed for it. */
  ghost predicate Waives(c: Config, s: Sys, st: Step, k: BinKey) {
    && st.SweepStep? && st.sweep.Evict? && s.sweep.Sweeping? && s.sweep.phase.Evicting?
    && s.sweep.cur.Key() == k && !Owed(c, s, s.sweep.cur)
  }

  ghost predicate NeverWaives(c: Config, s: Sys, run: seq<Step>, k: BinKey) {
    run == [] ||
    (NeverWaives(c, s, run[..|run| - 1], k) && !Waives(c, Exec(c, s, run[..|run| - 1]), run[|run| - 1], k))
  }

  ghost predicate Kept(s: Sys, k: BinKey) {
    k in s.bins || Safe(s, MintKeyFor(k))
  }

  /** Only an eviction takes an entry out of the bins hash. */
  lemma BinsShrinkOnlyByEviction(c: Config, s: Sys, st: Step, k: BinKey)
    requires k in s.bins && !(st.SweepStep? && st.sweep.Evict?)
    ensures k in Do(c, s, st).bins
  {
  }

  lemma EvictionIsSafe(c: Config, s: Sys, reply: Reply, k: BinKey)
    requires Inv(c, s) && GenuineBins(s) && s.sweep.Sweeping? && s.sweep.phase.Evicting?
    requires k in s.bins && k !in FireEvict(c, s, reply).bins && Owed(c, s, s.sweep.cur)
    ensures Safe(s, MintKeyFor(k))
  {
    assert s.sweep.cur.Key() == k;
    assert MintKeyOf(s.sweep.cur) == MintKeyFor(k);
  }

  lemma {:induction false} StepKeepsEntry(c: Config, s: Sys, st: Step, k: BinKey)
    requires Inv(c, s) && GenuineBins(s) && Kept(s, k) && !Waives(c, s, st, k)
    ensures Kept(Do(c, s, st), k)
  {
    StepKeeps(c, s, st);
    if !Safe(s, MintKeyFor(k)) {
      if st.SweepStep? && st.sweep.Evict? && Enabled(c, s, st) {
        if k !in FireEvict(c, s, st.sweep.reply).bins && s.sweep.cur.Key() == k {
          EvictionIsSafe(c, s, st.sweep.reply, k);
        }
      } else if !(st.SweepStep? && st.sweep.Evict?) {
        BinsShrinkOnlyByEviction(c, s, st, k);
      }
    }
  }

  lemma {:induction false} RunGenuine(c: Config, s: Sys, run: seq<Step>)
    requires GenuineBins(s)
    ensures GenuineBins(Exec(c, s, run))
  {
    if run != [] {
      RunGenuine(c, s, run[..|run| - 1]);
      StepGenuine(c, Exec(c, s, run[..|run| - 1]), run[|run| - 1]);
    }
  }

  /**
   No durable loss, across crashes: an entry of the bins hash is still there at the end of any
   run, or its mint is queued, parked or on chain, or a sweep found that nothing was owed for it.
   */
  lemma {:induction false} DurableEntryOutlivesRun(c: Config, s: Sys, run: seq<Step>, k: BinKey)
    requires Inv(c, s) && GenuineBins(s) && Kept(s, k) && NeverWaives(c, s, run, k)
    ensures Kept(Exec(c, s, run), k)
  {
    if run != [] {
      var pre := run[..|run| - 1];
      DurableEntryOutlivesRun(c, s, pre, k);
      RunKeeps(c, s, pre);
      RunGenuine(c, s, pre);
      StepKeepsEntry(c, Exec(c, s, pre), run[|run| - 1], k);
    }
  }
}
