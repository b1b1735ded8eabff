/**
 The outbox and the bins hash, exactly: a key is in the hash at the end of a run exactly when a storing
 command for it took effect after every deleting one. Each hash names its commands by the steps they are.
 */
module HashAccounts {
  import opened Billing
  import opened Settlement
  import opened ParkedCopies

  // ----- the outbox -----

  /** The step is an enqueue's HSET for `k` taking effect. */
  ghost predicate Queues(c: Config, s: Sys, st: Step, k: MintKey) {
    && Enabled(c, s, st) && st.SweepStep? && st.sweep.Enqueue? && st.sweep.reply.Applied()
    && s.sweep.phase.p.Field() == k
  }

  /** The step is `remove`'s first HDEL or `park`'s HDEL for `k` taking effect. */
  ghost predicate Dequeues(c: Config, s: Sys, st: Step, k: MintKey) {
    && Enabled(c, s, st)
    && ((st.TaskStep? && st.task.Remove? && st.task.result.Applied() && RemovesFirst(s.tasks[st.id], k))
        || (st.DrainStep? && st.drain.ParkDelete? && st.drain.reply.Applied() && s.drain.cur.Field() == k))
  }

  predicate RemovesFirst(t: Task, k: MintKey) {
    t.Removing? && !t.second && t.fields != [] && t.fields[0] == k
  }

  lemma OutboxAfterTask(s: Sys, id: nat, a: TaskAction, k: MintKey)
    requires TaskEnabled(s, id, a)
    ensures k in FireTask(s, id, a).outbox <==>
              k in s.outbox && !(a.Remove? && a.result.Applied() && RemovesFirst(s.tasks[id], k))
  {
    match a
    case Remove(_) =>
    case _ =>
  }

  lemma OutboxAfterDrain(c: Config, s: Sys, a: DrainAction, k: MintKey)
    requires DrainEnabled(s, a)
    ensures k in FireDrain(c, s, a).outbox <==>
              k in s.outbox && !(a.ParkDelete? && a.reply.Applied() && s.drain.cur.Field() == k)
  {
    match a
    case ParkDelete(_) =>
    case _ =>
  }

  lemma OutboxAfterSweep(c: Config, s: Sys, a: SweepAction, k: MintKey)
    requires SweepEnabled(c, s, a)
    ensures k in FireSweep(c, s, a).outbox <==>
              k in s.outbox || (a.Enqueue? && a.reply.Applied() && s.sweep.phase.p.Field() == k)
  {
    match a
    case Enqueue(reply, id) => EnqueueEffect(s, reply, id);
    case _ =>
  }

  lemma {:induction false} OutboxAfterStep(c: Config, s: Sys, st: Step, k: MintKey)
    ensures k in Do(c, s, st).outbox <==> Queues(c, s, st, k) || (k in s.outbox && !Dequeues(c, s, st, k))
  {
    if Enabled(c, s, st) {
      match st
      case SweepStep(a) => OutboxAfterSweep(c, s, a, k);
      case TaskStep(id, a) => OutboxAfterTask(s, id, a, k);
      case DrainStep(a) => OutboxAfterDrain(c, s, a, k);
      case _ =>
    }
  }

  ghost function OutboxMarks(c: Config, s: Sys, run: seq<Step>, k: MintKey): seq<Mark> {
    if run == [] then []
    else
      var pre := run[..|run| - 1];
      var t, st := Exec(c, s, pre), run[|run| - 1];
      OutboxMarks(c, s, pre, k)
      + [if Queues(c, t, st, k) then Store else if Dequeues(c, t, st, k) then Clear else Other]
  }

  /** Queued at the end of a run exactly when an applied enqueue came after every applied deletion. */
  lemma {:induction false} QueuedIffStoredLast(c: Config, s: Sys, run: seq<Step>, k: MintKey)
    ensures k in Exec(c, s, run).outbox <==> StoredLast(OutboxMarks(c, s, run, k), k in s.outbox)
  {
    if run != [] {
      var pre, st := run[..|run| - 1], run[|run| - 1];
      var t := Exec(c, s, pre);
      QueuedIffStoredLast(c, s, pre, k);
      OutboxAfterStep(c, t, st, k);
      var m := if Queues(c, t, st, k) then Store else if Dequeues(c, t, st, k) then Clear else Other;
      StoredLastStep(OutboxMarks(c, s, pre, k), m, k in s.outbox);
    }
  }

  // ----- the chain -----

  /** A step mints a key exactly when a published intent for it lands. */
  ghost predicate Lands(c: Config, s: Sys, st: Step, k: MintKey) {
    Enabled(c, s, st) && st.Land? && st.p.Field() == k
  }

  lemma ChainAfterStep(c: Config, s: Sys, st: Step, k: MintKey)
    ensures k in Do(c, s, st).chain <==> k in s.chain || Lands(c, s, st, k)
    ensures k in s.chain ==> Do(c, s, st).chain[k] == s.chain[k]
    ensures k !in s.chain && Lands(c, s, st, k) ==> Do(c, s, st).chain[k] == st.p.energy
  {
  }

  ghost predicate LandsAt(c: Config, s: Sys, run: seq<Step>, i: int, k: MintKey) {
    0 <= i < |run| && Lands(c, Exec(c, s, run[..i]), run[i], k)
  }

  /**
   Minted once: over every run a key is on chain exactly when it was before or an intent for it landed,
   and its amount is the first one, whatever lands later.
   */
  lemma {:induction false} MintedOnce(c: Config, s: Sys, run: seq<Step>, k: MintKey)
    ensures k in Exec(c, s, run).chain <==> k in s.chain || exists i :: LandsAt(c, s, run, i, k)
    ensures k in s.chain ==> Exec(c, s, run).chain[k] == s.chain[k]
    ensures k !in s.chain && k in Exec(c, s, run).chain ==>
      exists i :: LandsAt(c, s, run, i, k) && (forall j :: 0 <= j < i ==> !LandsAt(c, s, run, j, k))
               && Exec(c, s, run).chain[k] == run[i].p.energy
  {
    if run != [] {
      var n := |run| - 1;
      var pre, st := run[..n], run[n];
      MintedOnce(c, s, pre, k);
      ChainAfterStep(c, Exec(c, s, pre), st, k);
      forall j | 0 <= j < n ensures LandsAt(c, s, pre, j, k) <==> LandsAt(c, s, run, j, k) {
        assert pre[..j] == run[..j];
      }
      assert forall j :: LandsAt(c, s, run, j, k) ==> j == n || LandsAt(c, s, pre, j, k);
      if k in Exec(c, s, pre).chain && k !in s.chain {
        var i :| LandsAt(c, s, pre, i, k) && (forall j :: 0 <= j < i ==> !LandsAt(c, s, pre, j, k))
              && Exec(c, s, pre).chain[k] == pre[i].p.energy;
        assert LandsAt(c, s, run, i, k) && run[i] == pre[i];
      } else if Lands(c, Exec(c, s, pre), st, k) {
        assert LandsAt(c, s, run, n, k);
      }
    }
  }

  // ----- the bins hash -----

  /** The step is the writer's HSET of a snapshot of `k` taking effect. */
  ghost predicate Writes(c: Config, s: Sys, st: Step, k: BinKey) {
    Enabled(c, s, st) && st.WriteThrough? && st.reply.Applied() && s.queue[0].Key() == k
  }

  /** The step is the sweep's HDEL for `k` taking effect, for a bin that was not given up as lost. */
  ghost predicate Deletes(c: Config, s: Sys, st: Step, k: BinKey) {
    && Enabled(c, s, st) && st.SweepStep? && st.sweep.Evict? && st.sweep.reply.Applied()
    && !s.sweep.phase.handoff.Lost? && s.sweep.cur.Key() == k
  }

  lemma BinsAfterStep(c: Config, s: Sys, st: Step, k: BinKey)
    ensures k in Do(c, s, st).bins <==> Writes(c, s, st, k) || (k in s.bins && !Deletes(c, s, st, k))
  {
    if Enabled(c, s, st) {
      match st
      case SweepStep(a) => BinsAfterSweep(c, s, a, k);
      case _ =>
    }
  }

  lemma BinsAfterSweep(c: Config, s: Sys, a: SweepAction, k: BinKey)
    requires SweepEnabled(c, s, a)
    ensures k in FireSweep(c, s, a).bins <==>
              k in s.bins
              && !(a.Evict? && a.reply.Applied() && !s.sweep.phase.handoff.Lost? && s.sweep.cur.Key() == k)
  {
    match a
    case Evict(_) =>
    case _ =>
  }

  ghost function BinMarks(c: Config, s: Sys, run: seq<Step>, k: BinKey): seq<Mark> {
    if run == [] then []
    else
      var pre := run[..|run| - 1];
      var t, st := Exec(c, s, pre), run[|run| - 1];
      BinMarks(c, s, pre, k) + [if Writes(c, t, st, k) then Store else if Deletes(c, t, st, k) then Clear else Other]
  }

  /**
   In the bins hash at the end of a run exactly when an applied write came after every applied deletion;
   a bin given up as lost is never deleted.
   */
  lemma {:induction false} DurableIffWrittenLast(c: Config, s: Sys, run: seq<Step>, k: BinKey)
    ensures k in Exec(c, s, run).bins <==> StoredLast(BinMarks(c, s, run, k), k in s.bins)
  {
    if run != [] {
      var pre, st := run[..|run| - 1], run[|run| - 1];
      var t := Exec(c, s, pre);
      DurableIffWrittenLast(c, s, pre, k);
      BinsAfterStep(c, t, st, k);
      var m := if Writes(c, t, st, k) then Store else if Deletes(c, t, st, k) then Clear else Other;
      StoredLastStep(BinMarks(c, s, pre, k), m, k in s.bins);
    }
  }
}
