/** A sweep leaves no taken bin out, and what it does with each follows from the bin and the answers. */
module SweepAccounts {
  import opened Windows
  import opened Billing
  import opened Settlement

  // ----- every taken bin is planned and finished, once and in order -----

  ghost predicate TakesAt(c: Config, s: Sys, run: seq<Step>, i: int) {
    0 <= i < |run| && run[i].SweepStep? && run[i].sweep.Take? && Enabled(c, Exec(c, s, run[..i]), run[i])
  }

  /** Step `i` is a take that takes place, and since then there was neither a crash nor another take. */
  ghost predicate LastTake(c: Config, s: Sys, run: seq<Step>, i: int) {
    TakesAt(c, s, run, i) && forall m :: i < m < |run| ==> !run[m].Crash? && !TakesAt(c, s, run, m)
  }

  /** The bin that a step plans, or finishes with its eviction. */
  ghost function PlannedBy(c: Config, t: Sys, st: Step): seq<BillingBin> {
    if Enabled(c, t, st) && st.SweepStep? && st.sweep.Plan? then [t.sweep.cur] else []
  }

  ghost function FinishedBy(c: Config, t: Sys, st: Step): seq<BillingBin> {
    if Enabled(c, t, st) && st.SweepStep? && st.sweep.Evict? then [t.sweep.cur] else []
  }

  ghost function Planned(c: Config, s: Sys, run: seq<Step>, i: nat): seq<BillingBin> {
    if |run| <= i + 1 then []
    else Planned(c, s, run[..|run| - 1], i) + PlannedBy(c, Exec(c, s, run[..|run| - 1]), run[|run| - 1])
  }

  ghost function Finished(c: Config, s: Sys, run: seq<Step>, i: nat): seq<BillingBin> {
    if |run| <= i + 1 then []
    else Finished(c, s, run[..|run| - 1], i) + FinishedBy(c, Exec(c, s, run[..|run| - 1]), run[|run| - 1])
  }

  /** Finished, current and remaining bins make up the order; all but those not yet reached are planned. */
  ghost predicate OnOrder(order: seq<BillingBin>, w: Sweep, planned: seq<BillingBin>, finished: seq<BillingBin>) {
    if w.SweepIdle? then order == finished == planned
    else
      && order == finished + [w.cur] + w.rest
      && planned == if w.phase.Planning? then finished else finished + [w.cur]
  }

  lemma StartOnOrder(order: seq<BillingBin>)
    ensures OnOrder(order, StartSweep(order), [], [])
  {
  }

  lemma EvictOnOrder(order: seq<BillingBin>, w: Sweep, planned: seq<BillingBin>, finished: seq<BillingBin>)
    requires OnOrder(order, w, planned, finished) && w.Sweeping? && !w.phase.Planning?
    ensures OnOrder(order, StartSweep(w.rest), planned, finished + [w.cur])
  {
    if w.rest != [] {
      assert order == (finished + [w.cur]) + [w.rest[0]] + w.rest[1..];
    } else {
      assert order == finished + [w.cur];
    }
  }

  /** How an enabled step of the sweep moves it along. */
  lemma SweepEffect(c: Config, t: Sys, a: SweepAction)
    requires SweepEnabled(c, t, a) && !a.Take?
    ensures var w, w' := t.sweep, FireSweep(c, t, a).sweep;
            if a.Evict? then w' == StartSweep(w.rest)
            else w'.Sweeping? && w'.cur == w.cur && w'.rest == w.rest && !w'.phase.Planning?
    ensures a.Plan? <==> t.sweep.phase.Planning?
  {
    match a
    case Enqueue(reply, id) => EnqueueEffect(t, reply, id);
    case _ =>
  }

  lemma QuietStep(c: Config, t: Sys, st: Step)
    requires !st.Crash? && !(Enabled(c, t, st) && st.SweepStep?)
    ensures Do(c, t, st).sweep == t.sweep && PlannedBy(c, t, st) == [] && FinishedBy(c, t, st) == []
  {
  }

  lemma {:induction false} StepOnOrder(c: Config, t: Sys, st: Step, order: seq<BillingBin>,
                                       planned: seq<BillingBin>, finished: seq<BillingBin>)
    requires OnOrder(order, t.sweep, planned, finished)
    requires !st.Crash? && !(Enabled(c, t, st) && st.SweepStep? && st.sweep.Take?)
    ensures OnOrder(order, Do(c, t, st).sweep, planned + PlannedBy(c, t, st), finished + FinishedBy(c, t, st))
  {
    assert planned + [] == planned && finished + [] == finished;
    if !(Enabled(c, t, st) && st.SweepStep?) {
      QuietStep(c, t, st);
    } else {
      SweepEffect(c, t, st.sweep);
      if st.sweep.Evict? { EvictOnOrder(order, t.sweep, planned, finished); }
    }
  }

  lemma TakePrefix(c: Config, s: Sys, run: seq<Step>, i: nat)
    requires LastTake(c, s, run, i) && i < |run| - 1
    ensures LastTake(c, s, run[..|run| - 1], i)
  {
    var pre := run[..|run| - 1];
    assert pre[..i] == run[..i];
    forall m | i < m < |pre| ensures !pre[m].Crash? && !TakesAt(c, s, pre, m) {
      assert pre[..m] == run[..m];
      assert !TakesAt(c, s, run, m);
    }
  }

  lemma {:induction false} RunOnOrder(c: Config, s: Sys, run: seq<Step>, i: nat)
    requires LastTake(c, s, run, i)
    ensures OnOrder(run[i].sweep.order, Exec(c, s, run).sweep, Planned(c, s, run, i), Finished(c, s, run, i))
    decreases |run|
  {
    var n := |run| - 1;
    if n == i {
      StartOnOrder(run[i].sweep.order);
    } else {
      TakePrefix(c, s, run, i);
      RunOnOrder(c, s, run[..n], i);
      assert !TakesAt(c, s, run, n);
      StepOnOrder(c, Exec(c, s, run[..n]), run[n], run[i].sweep.order, Planned(c, s, run[..n], i),
                  Finished(c, s, run[..n], i));
    }
  }

  /**
   Over every run: when the sweep is idle again after a take, without a crash, it has planned and finished
   every completed bin, each once; none is left out.
   */
  lemma SweepServesAll(c: Config, s: Sys, run: seq<Step>, i: nat)
    requires LastTake(c, s, run, i) && Exec(c, s, run).sweep == SweepIdle
    ensures Planned(c, s, run, i) == Finished(c, s, run, i) == run[i].sweep.order
    ensures var a := Exec(c, s, run[..i]).agg;
            ListsCompleted(a, run[i].sweep.now, c.grace, Finished(c, s, run, i))
  {
    RunOnOrder(c, s, run, i);
  }

  // ----- what is decided for each bin -----

  /** The decision is about the sign of generation minus consumption, and whether minting is on. */
  lemma PlanIs(b: BillingBin, enabled: bool)
    ensures PlanMint(b, enabled) == Disabled <==> !enabled
    ensures PlanMint(b, enabled) == NoSurplus <==> enabled && b.generated <= b.consumed
    ensures forall kwh :: PlanMint(b, enabled) == Surplus(kwh) <==>
                          enabled && b.generated > b.consumed && kwh == b.generated - b.consumed
  {
  }

  /** Neither the read-model nor the source of truth knows an owner; an error is no such answer. */
  predicate NoOwner(readModel: Lookup, sourceOfTruth: Lookup) {
    readModel == Missing && sourceOfTruth == Missing
  }

  /**
   A planned bin is enqueued exactly when minting is on, it generated more than it consumed, and its owner is
   not missing from both tables; then the entry carries its serial, window, surplus and the clock. Otherwise
   the sweep goes on to evict it with nothing to hand off.
   */
  lemma PlanEnqueuesIff(c: Config, t: Sys, readModel: Lookup, sourceOfTruth: Lookup, nowMs: int)
    requires Enabled(c, t, SweepStep(Plan(readModel, sourceOfTruth, nowMs)))
    ensures var b, w' := t.sweep.cur, Do(c, t, SweepStep(Plan(readModel, sourceOfTruth, nowMs))).sweep;
            if c.mintEnabled && b.generated > b.consumed && !NoOwner(readModel, sourceOfTruth)
            then
              var surplus := b.generated - b.consumed;
              w'.phase == Enqueueing(PendingMint(b.serial, b.meter, Millis(b.start), surplus, nowMs), false)
            else w'.phase == Evicting(NotApplicable)
  {
  }

  /** How the sweep came to evict: the hand-off names the last answer. */
  lemma HandoffBecause(c: Config, t: Sys, a: SweepAction)
    requires SweepEnabled(c, t, a) && FireSweep(c, t, a).sweep.Sweeping? && FireSweep(c, t, a).sweep.phase.Evicting?
    ensures var h := FireSweep(c, t, a).sweep.phase.handoff;
            && (h == Enqueued <==> a.Enqueue? && a.reply == Ok)
            && (h == MintedDirectly <==> a.ReplyDirect? && a.success)
            && (h == Lost <==> || (a.ClaimDirect? && t.sweep.phase.p.Field() in t.inFlight)
                               || (a.ResolveDirect? && !a.walletOk)
                               || (a.ReplyDirect? && !a.success))
            && (h == NotApplicable <==> a.Plan?)
  {
    match a
    case Enqueue(reply, id) => EnqueueEffect(t, reply, id);
    case _ =>
  }

  // ----- who counts as unowned -----

  /** Step `i` plans a surplus of the bin `b`. */
  ghost predicate PlansAt(c: Config, s: Sys, run: seq<Step>, i: int, b: BillingBin) {
    && 0 <= i < |run| && run[i].SweepStep? && run[i].sweep.Plan? && Enabled(c, Exec(c, s, run[..i]), run[i])
    && Exec(c, s, run[..i]).sweep.cur == b && c.mintEnabled && b.generated > b.consumed
  }

  /** Step `i` finds the bin's owner in neither table, and no later plan of the bin says otherwise. */
  ghost predicate MissingLast(c: Config, s: Sys, run: seq<Step>, i: int, b: BillingBin) {
    && PlansAt(c, s, run, i, b) && NoOwner(run[i].sweep.readModel, run[i].sweep.sourceOfTruth)
    && forall j :: PlansAt(c, s, run, j, b) && i < j ==> NoOwner(run[j].sweep.readModel, run[j].sweep.sourceOfTruth)
  }

  lemma UnownedAfterStep(c: Config, t: Sys, st: Step, b: BillingBin)
    ensures var plans := Enabled(c, t, st) && st.SweepStep? && st.sweep.Plan? && t.sweep.cur == b
                         && c.mintEnabled && b.generated > b.consumed;
            b in Do(c, t, st).unowned <==>
              if plans then NoOwner(st.sweep.readModel, st.sweep.sourceOfTruth) else b in t.unowned
  {
    if Enabled(c, t, st) && st.SweepStep? { UnownedAfterSweep(c, t, st.sweep, b); }
  }

  lemma UnownedAfterSweep(c: Config, t: Sys, a: SweepAction, b: BillingBin)
    requires SweepEnabled(c, t, a)
    ensures b in FireSweep(c, t, a).unowned <==>
              if a.Plan? && t.sweep.cur == b && c.mintEnabled && b.generated > b.consumed
              then NoOwner(a.readModel, a.sourceOfTruth) else b in t.unowned
  {
    match a
    case Plan(_, _, _) =>
    case _ =>
  }

  /** Over every run from first boot a bin counts as unowned exactly when the last plan of it found no owner. */
  lemma {:induction false} UnownedIff(c: Config, run: seq<Step>, b: BillingBin)
    ensures b in Exec(c, FIRST_BOOT, run).unowned <==> exists i :: MissingLast(c, FIRST_BOOT, run, i, b)
  {
    if run != [] {
      var n := |run| - 1;
      var pre, st, s := run[..n], run[n], FIRST_BOOT;
      UnownedIff(c, pre, b);
      UnownedAfterStep(c, Exec(c, s, pre), st, b);
      forall j | 0 <= j < n ensures PlansAt(c, s, pre, j, b) <==> PlansAt(c, s, run, j, b) {
        assert pre[..j] == run[..j];
      }
      assert forall j :: PlansAt(c, s, run, j, b) ==> j == n || PlansAt(c, s, pre, j, b);
      if PlansAt(c, s, run, n, b) {
        if NoOwner(st.sweep.readModel, st.sweep.sourceOfTruth) { assert MissingLast(c, s, run, n, b); }
      } else {
        assert forall i :: MissingLast(c, s, pre, i, b) ==> MissingLast(c, s, run, i, b);
        assert forall i :: MissingLast(c, s, run, i, b) ==> MissingLast(c, s, pre, i, b);
      }
    }
  }
}
