/** When a sweep gives a surplus up: only after two failed enqueues, and then it keeps the durable entry. */
module SettlementHandoff {
  import opened Billing
  import opened Settlement

  /** Step `i` takes place and is an enqueue for the bin `b` that did not return success. */
  ghost predicate FailedEnqueue(c: Config, s: Sys, run: seq<Step>, i: int, b: BillingBin) {
    && 0 <= i < |run| && IsFailedEnqueue(run[i])
    && Enabled(c, Exec(c, s, run[..i]), run[i])
    && StaysOn(c, s, run, i, b)
  }

  /** From step `i` to the end of the run the sweep works on `b`. */
  ghost predicate StaysOn(c: Config, s: Sys, run: seq<Step>, i: int, b: BillingBin) {
    forall m :: i <= m <= |run| && 0 <= m ==> WorksOn(Exec(c, s, run[..m]), b)
  }

  ghost predicate WorksOn(s: Sys, b: BillingBin) {
    s.sweep.Sweeping? && s.sweep.cur == b
  }

  /** The phases that only two failures lead to. */
  predicate PastEnqueue(phase: SweepPhase) {
    phase.DirectClaim? || phase.DirectResolve? || phase.DirectAwait? || phase == Evicting(Lost)
    || phase == Evicting(MintedDirectly)
  }

  ghost predicate Inv(c: Config, s: Sys, run: seq<Step>, w: Sweep) {
    w.Sweeping? ==>
      && (w.phase.Enqueueing? && w.phase.retry ==> FailedOnce(c, s, run, w.cur))
      && (PastEnqueue(w.phase) ==> FailedTwice(c, s, run, w.cur))
  }

  ghost predicate FailedOnce(c: Config, s: Sys, run: seq<Step>, b: BillingBin) {
    exists i :: FailedEnqueue(c, s, run, i, b)
  }

  ghost predicate FailedTwice(c: Config, s: Sys, run: seq<Step>, b: BillingBin) {
    exists i, j :: i < j && FailedEnqueue(c, s, run, i, b) && FailedEnqueue(c, s, run, j, b)
  }

  lemma FailedStays(c: Config, s: Sys, run: seq<Step>, st: Step, i: int, b: BillingBin)
    requires FailedEnqueue(c, s, run, i, b) && WorksOn(Exec(c, s, run + [st]), b)
    ensures FailedEnqueue(c, s, run + [st], i, b)
  {
    var more := run + [st];
    assert more[..i] == run[..i];
    forall m | i <= m <= |more| && 0 <= m ensures WorksOn(Exec(c, s, more[..m]), b) {
      if m <= |run| { assert more[..m] == run[..m]; } else { assert more[..m] == more; }
    }
  }

  /** A failed enqueue at the end of a run that stays on its bin. */
  lemma JustFailed(c: Config, s: Sys, run: seq<Step>, st: Step, b: BillingBin)
    requires IsFailedEnqueue(st) && Enabled(c, Exec(c, s, run), st)
    requires WorksOn(Exec(c, s, run), b) && WorksOn(Exec(c, s, run + [st]), b)
    ensures FailedEnqueue(c, s, run + [st], |run|, b)
  {
    var more := run + [st];
    assert more[..|run|] == run;
    forall m | |run| <= m <= |more| ensures WorksOn(Exec(c, s, more[..m]), b) {
      if m > |run| { assert more[..m] == more; }
    }
  }

  /** The sweep stays, ends, or turns to a bin; or it goes on with its bin without a new failure. */
  predicate Quiet(w: Sweep, w': Sweep) {
    || w' == w || w'.SweepIdle? || w'.phase.Planning?
    || (w.Sweeping? && w'.cur == w.cur
        && (PastEnqueue(w'.phase) ==> PastEnqueue(w.phase)) && !(w'.phase.Enqueueing? && w'.phase.retry))
  }

  /** An enqueue that did not succeed: the first one leads to a retry, the second one past it. */
  predicate Fails(w: Sweep, w': Sweep) {
    && w.Sweeping? && w.phase.Enqueueing? && w'.Sweeping? && w'.cur == w.cur
    && (w'.phase.Enqueueing? || PastEnqueue(w'.phase)) && (PastEnqueue(w'.phase) <==> w.phase.retry)
  }

  predicate IsFailedEnqueue(st: Step) {
    st.SweepStep? && st.sweep.Enqueue? && !st.sweep.reply.Ok?
  }

  lemma EnqueueMoves(s: Sys, reply: Reply, id: nat)
    requires s.sweep.Sweeping? && s.sweep.phase.Enqueueing?
    ensures var w' := FireEnqueue(s, reply, id).sweep;
            if reply.Ok? then Quiet(s.sweep, w') else Fails(s.sweep, w')
  {
    EnqueueEffect(s, reply, id);
  }

  lemma SweepMoves(c: Config, s: Sys, a: SweepAction)
    requires SweepEnabled(c, s, a) && !a.Enqueue?
    ensures Quiet(s.sweep, FireSweep(c, s, a).sweep)
  {
    match a
    case Plan(_, _, _) =>
    case ClaimDirect =>
    case ResolveDirect(_) =>
    case ReplyDirect(_) =>
    case Take(_, _) =>
    case Evict(_) =>
  }

  lemma {:induction false} StepMoves(c: Config, s: Sys, st: Step)
    ensures var w' := Do(c, s, st).sweep;
            if Enabled(c, s, st) && IsFailedEnqueue(st) then Fails(s.sweep, w') else Quiet(s.sweep, w')
  {
    if Enabled(c, s, st) && st.SweepStep? {
      if st.sweep.Enqueue? {
        EnqueueMoves(s, st.sweep.reply, st.sweep.id);
      } else {
        SweepMoves(c, s, st.sweep);
      }
    }
  }

  /** A step that stays on the bin keeps the count of failures, and a failed enqueue adds one. */
  lemma FailuresStay(c: Config, s: Sys, run: seq<Step>, st: Step, b: BillingBin)
    requires WorksOn(Exec(c, s, run), b) && WorksOn(Exec(c, s, run + [st]), b)
    ensures FailedOnce(c, s, run, b) ==> FailedOnce(c, s, run + [st], b)
    ensures FailedTwice(c, s, run, b) ==> FailedTwice(c, s, run + [st], b)
    ensures Enabled(c, Exec(c, s, run), st) && IsFailedEnqueue(st) ==>
      && FailedOnce(c, s, run + [st], b)
      && (FailedOnce(c, s, run, b) ==> FailedTwice(c, s, run + [st], b))
  {
    forall i | FailedEnqueue(c, s, run, i, b) ensures FailedEnqueue(c, s, run + [st], i, b) {
      FailedStays(c, s, run, st, i, b);
    }
    if Enabled(c, Exec(c, s, run), st) && IsFailedEnqueue(st) {
      JustFailed(c, s, run, st, b);
    }
  }

  lemma StepKeeps(c: Config, s: Sys, run: seq<Step>, st: Step)
    requires Inv(c, s, run, Exec(c, s, run).sweep)
    ensures Inv(c, s, run + [st], Exec(c, s, run + [st]).sweep)
  {
    assert (run + [st])[..|run|] == run;
    var w, w' := Exec(c, s, run).sweep, Exec(c, s, run + [st]).sweep;
    StepMoves(c, Exec(c, s, run), st);
    if w.Sweeping? && w'.Sweeping? && w'.cur == w.cur {
      FailuresStay(c, s, run, st, w.cur);
    }
  }

  /**
   Over every run from a restart, the sweep tries a direct mint, or gives a surplus up as lost, only
   after two enqueues for that very bin have failed since it turned to it.
   */
  lemma {:induction false} LostAfterTwoFailures(c: Config, s: Sys, run: seq<Step>)
    requires s.sweep == SweepIdle
    ensures Inv(c, s, run, Exec(c, s, run).sweep)
  {
    if run != [] {
      var pre := run[..|run| - 1];
      LostAfterTwoFailures(c, s, pre);
      StepKeeps(c, s, pre, run[|run| - 1]);
      assert pre + [run[|run| - 1]] == run;
    }
  }

  /** A lost bin keeps its durable entry. */
  lemma LostKeepsEntry(c: Config, s: Sys, reply: Reply)
    requires s.sweep.Sweeping? && s.sweep.phase == Evicting(Lost)
    ensures Do(c, s, SweepStep(Evict(reply))).bins == s.bins
  {
  }
}
