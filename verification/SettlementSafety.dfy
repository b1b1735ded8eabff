/** Nothing owed is lost: what every step of the settlement pipeline keeps, over every run. */
module SettlementSafety {
  import opened Wrappers
  import opened Windows
  import opened Billing
  import opened Settlement

  /** The mint has a durable home: queued, parked, or already on chain. */
  ghost predicate Safe(s: Sys, k: MintKey) {
    k in s.outbox || k in s.parked || k in s.chain
  }

  ghost predicate AllIn(ks: seq<MintKey>, chain: map<MintKey, real>) {
    forall i :: 0 <= i < |ks| ==> ks[i] in chain
  }

  /** A task only removes what is on chain. */
  ghost predicate RemovesConfirmed(tasks: map<nat, Task>, chain: map<MintKey, real>) {
    forall id :: id in tasks && tasks[id].Removing? ==> AllIn(tasks[id].fields, chain)
  }

  /** The outbox copy is only deleted by `park` while the parked copy (or the mint) exists. */
  ghost predicate ParksBeforeDelete(drain: Drain, parked: map<MintKey, PendingMint>, chain: map<MintKey, real>) {
    drain.Parking? && drain.stored ==> drain.cur.Field() in parked || drain.cur.Field() in chain
  }

  /** What the sweep concluded about the current bin is true of the state. */
  ghost predicate HandoffTrue(c: Config, sweep: Sweep, enqueued: set<MintKey>, unowned: set<BillingBin>,
                              chain: map<MintKey, real>)
  {
    sweep.Sweeping? ==>
      && (CarriesMint(sweep.phase) ==> sweep.phase.p.Field() == MintKeyOf(sweep.cur))
      && sweep.phase != Evicting(BestEffortOnly)
      && (sweep.phase == Evicting(NotApplicable) ==>
            !PlanMint(sweep.cur, c.mintEnabled).Surplus? || sweep.cur in unowned)
      && (sweep.phase == Evicting(Enqueued) ==> MintKeyOf(sweep.cur) in enqueued)
      && (sweep.phase == Evicting(MintedDirectly) ==> MintKeyOf(sweep.cur) in chain)
  }

  predicate CarriesMint(phase: SweepPhase) {
    phase.Enqueueing? || phase.DirectClaim? || phase.DirectResolve? || phase.DirectAwait?
  }

  ghost predicate Ledger(s: Sys) {
    && (forall k :: k in s.enqueued ==> Safe(s, k))
    && (forall k :: k in s.handed ==> k in s.enqueued || k in s.chain)
  }

  ghost predicate Inv(c: Config, s: Sys) {
    && RemovesConfirmed(s.tasks, s.chain)
    && ParksBeforeDelete(s.drain, s.parked, s.chain)
    && HandoffTrue(c, s.sweep, s.enqueued, s.unowned, s.chain)
    && Ledger(s)
  }

  /** A durable home is never given up before the mint is on chain, whoever it belongs to. */
  ghost predicate Grows(s: Sys, t: Sys) {
    forall k :: Safe(s, k) ==> Safe(t, k)
  }

  /** The step keeps the invariant and every durable home. */
  ghost predicate Good(c: Config, s: Sys, t: Sys) {
    Inv(c, t) && Grows(s, t)
  }

  /** A change of the sweep, the drain loop, the in-flight set and the published intents only. */
  lemma FrameKeeps(c: Config, s: Sys, t: Sys)
    requires Inv(c, s)
    requires t == s.(sweep := t.sweep, drain := t.drain, inFlight := t.inFlight, published := t.published)
    requires HandoffTrue(c, t.sweep, t.enqueued, t.unowned, t.chain)
    requires ParksBeforeDelete(t.drain, t.parked, t.chain)
    ensures Good(c, s, t)
  {
  }

  // ----- sweep steps -----

  lemma TakeKeeps(c: Config, s: Sys, now: Instant, order: seq<BillingBin>)
    requires Inv(c, s)
    ensures Good(c, s, FireTake(c, s, now, order))
  {
  }

  lemma PlanKeeps(c: Config, s: Sys, readModel: Lookup, sourceOfTruth: Lookup, nowMs: int)
    requires Inv(c, s) && s.sweep.Sweeping? && s.sweep.phase.Planning?
    ensures Good(c, s, FirePlan(c, s, readModel, sourceOfTruth, nowMs))
  {
  }

  /** The state between the HSET of an enqueue and the sweep's next move. */
  lemma StoreKeeps(c: Config, s: Sys, p: PendingMint, reply: Reply)
    requires Inv(c, s)
    ensures Good(c, s, HsetOutbox(s, p, reply))
  {
  }

  /** The sweep moves on, perhaps leaving a new task behind. */
  lemma MoveOnKeeps(c: Config, s: Sys, t: Sys, id: nat, task: Task)
    requires Inv(c, s) && t == s.(sweep := t.sweep, tasks := t.tasks)
    requires t.tasks == s.tasks || (t.tasks == s.tasks[id := task] && task.Claiming?)
    requires HandoffTrue(c, t.sweep, t.enqueued, t.unowned, t.chain)
    ensures Good(c, s, t)
  {
  }

  lemma EnqueueKeeps(c: Config, s: Sys, reply: Reply, id: nat)
    requires Inv(c, s) && s.sweep.Sweeping? && s.sweep.phase.Enqueueing? && id !in s.tasks
    ensures Good(c, s, FireEnqueue(s, reply, id))
  {
    var p := s.sweep.phase.p;
    StoreKeeps(c, s, p, reply);
    EnqueueEffect(s, reply, id);
    MoveOnKeeps(c, HsetOutbox(s, p, reply), FireEnqueue(s, reply, id), id, Claiming([p], None, []));
  }

  lemma ClaimDirectKeeps(c: Config, s: Sys)
    requires Inv(c, s) && s.sweep.Sweeping? && s.sweep.phase.DirectClaim?
    ensures Good(c, s, FireDirectClaim(s))
  {
    FrameKeeps(c, s, FireDirectClaim(s));
  }

  lemma ResolveDirectKeeps(c: Config, s: Sys, walletOk: bool)
    requires Inv(c, s) && s.sweep.Sweeping? && s.sweep.phase.DirectResolve?
    ensures Good(c, s, FireDirectResolve(s, walletOk))
  {
    FrameKeeps(c, s, FireDirectResolve(s, walletOk));
  }

  lemma ReplyDirectKeeps(c: Config, s: Sys, success: bool)
    requires Inv(c, s) && s.sweep.Sweeping? && s.sweep.phase.DirectAwait?
    requires success ==> s.sweep.phase.p.Field() in s.chain
    ensures Good(c, s, FireDirectReply(s, success))
  {
    FrameKeeps(c, s, FireDirectReply(s, success));
  }

  lemma EvictKeeps(c: Config, s: Sys, reply: Reply)
    requires Inv(c, s) && s.sweep.Sweeping? && s.sweep.phase.Evicting?
    ensures Good(c, s, FireEvict(c, s, reply))
  {
  }

  lemma {:induction false} SweepKeeps(c: Config, s: Sys, a: SweepAction)
    requires Inv(c, s) && SweepEnabled(c, s, a)
    ensures Good(c, s, FireSweep(c, s, a))
  {
    match a
    case Take(now, order) => TakeKeeps(c, s, now, order);
    case Plan(readModel, sourceOfTruth, nowMs) => PlanKeeps(c, s, readModel, sourceOfTruth, nowMs);
    case Enqueue(reply, id) => EnqueueKeeps(c, s, reply, id);
    case ClaimDirect => ClaimDirectKeeps(c, s);
    case ResolveDirect(walletOk) => ResolveDirectKeeps(c, s, walletOk);
    case ReplyDirect(success) => ReplyDirectKeeps(c, s, success);
    case Evict(reply) => EvictKeeps(c, s, reply);
  }

  // ----- task steps -----

  /** A task that removes nothing, or only confirmed keys, may be set under any id. */
  lemma SetTaskKeeps(c: Config, s: Sys, id: nat, t: Task)
    requires Inv(c, s) && (t.Removing? ==> AllIn(t.fields, s.chain))
    ensures Good(c, s, SetTask(s, id, t))
  {
  }

  lemma EndTaskKeeps(c: Config, s: Sys, id: nat)
    requires Inv(c, s)
    ensures Good(c, s, EndTask(s, id))
  {
  }

  /** The two deletions of `remove` touch a key that is on chain. */
  lemma DeleteConfirmedKeeps(c: Config, s: Sys, k: MintKey)
    requires Inv(c, s) && k in s.chain
    ensures Good(c, s, s.(outbox := s.outbox - {k}))
    ensures Good(c, s, s.(parked := s.parked - {k}))
  {
  }

  lemma RemoveKeeps(c: Config, s: Sys, id: nat, reply: Reply)
    requires Inv(c, s) && id in s.tasks && s.tasks[id].Removing?
    ensures Good(c, s, FireRemove(s, id, reply))
  {
    var t := s.tasks[id];
    if t.fields == [] {
      EndTaskKeeps(c, s, id);
    } else {
      assert AllIn(t.fields, s.chain);
      assert AllIn(t.fields[1..], s.chain);
      DeleteConfirmedKeeps(c, s, t.fields[0]);
      if !t.second {
        var s1 := if reply.Applied() then s.(outbox := s.outbox - {t.fields[0]}) else s;
        SetTaskKeeps(c, s1, id, if reply.Ok? then t.(second := true) else Removing(t.fields[1..], false));
      } else {
        var s1 := if reply.Applied() then s.(parked := s.parked - {t.fields[0]}) else s;
        SetTaskKeeps(c, s1, id, Removing(t.fields[1..], false));
      }
    }
  }

  lemma ClaimKeeps(c: Config, s: Sys, id: nat)
    requires Inv(c, s) && TaskEnabled(s, id, Claim)
    ensures Good(c, s, FireClaim(s, id))
  {
    var t := FireClaim(s, id);
    var s1 := s.(inFlight := t.inFlight);
    FrameKeeps(c, s, s1);
    SetTaskKeeps(c, s1, id, t.tasks[id]);
  }

  lemma ResolveKeeps(c: Config, s: Sys, id: nat, walletOk: bool)
    requires Inv(c, s) && TaskEnabled(s, id, Resolve(walletOk))
    ensures Good(c, s, FireResolve(s, id, walletOk))
  {
    var t := FireResolve(s, id, walletOk);
    var s1 := s.(inFlight := t.inFlight);
    FrameKeeps(c, s, s1);
    SetTaskKeeps(c, s1, id, t.tasks[id]);
  }

  lemma PublishKeeps(c: Config, s: Sys, id: nat)
    requires Inv(c, s) && TaskEnabled(s, id, Publish)
    ensures Good(c, s, FirePublish(s, id))
  {
    var t := FirePublish(s, id);
    var s1 := s.(published := t.published);
    FrameKeeps(c, s, s1);
    if s.tasks[id].held == [] { EndTaskKeeps(c, s1, id); } else { SetTaskKeeps(c, s1, id, t.tasks[id]); }
  }

  lemma ReplyKeeps(c: Config, s: Sys, id: nat, confirmed: seq<MintKey>)
    requires Inv(c, s) && id in s.tasks && s.tasks[id].Awaiting? && AllIn(confirmed, s.chain)
    ensures Good(c, s, FireReply(s, id, confirmed))
  {
    var t := FireReply(s, id, confirmed);
    var s1 := s.(inFlight := t.inFlight);
    FrameKeeps(c, s, s1);
    SetTaskKeeps(c, s1, id, t.tasks[id]);
  }

  lemma AbortKeeps(c: Config, s: Sys, id: nat)
    requires Inv(c, s) && id in s.tasks
    ensures Good(c, s, FireAbort(s, id))
  {
    var s1 := s.(inFlight := FireAbort(s, id).inFlight);
    FrameKeeps(c, s, s1);
    EndTaskKeeps(c, s1, id);
  }

  lemma TaskKeeps(c: Config, s: Sys, id: nat, a: TaskAction)
    requires Inv(c, s) && TaskEnabled(s, id, a)
    ensures Good(c, s, FireTask(s, id, a))
  {
    match a
    case Claim => ClaimKeeps(c, s, id);
    case Resolve(walletOk) => ResolveKeeps(c, s, id, walletOk);
    case Publish => PublishKeeps(c, s, id);
    case Reply(confirmed) => ReplyKeeps(c, s, id, confirmed);
    case Remove(reply) => RemoveKeeps(c, s, id, reply);
    case Abort => AbortKeeps(c, s, id);
  }

  // ----- drain steps and the rest -----

  lemma ParkStoreKeeps(c: Config, s: Sys, reply: Reply)
    requires Inv(c, s) && s.drain.Parking?
    ensures Good(c, s, FireParkStore(s, reply))
  {
  }

  lemma ParkDeleteKeeps(c: Config, s: Sys, reply: Reply)
    requires Inv(c, s) && s.drain.Parking? && s.drain.stored
    ensures Good(c, s, FireParkDelete(s, reply))
  {
  }

  lemma SpawnKeeps(c: Config, s: Sys, id: nat, size: nat)
    requires Inv(c, s) && s.drain.Draining?
    ensures Good(c, s, FireSpawn(s, id, size))
  {
    var t := FireSpawn(s, id, size);
    FrameKeeps(c, s, s.(drain := t.drain));
    if s.drain.toMint != [] {
      SetTaskKeeps(c, s.(drain := t.drain), id, t.tasks[id]);
    }
  }

  lemma DrainKeeps(c: Config, s: Sys, a: DrainAction)
    requires Inv(c, s) && DrainEnabled(s, a)
    ensures Good(c, s, FireDrain(c, s, a))
  {
    match a
    case ParkStore(reply) => ParkStoreKeeps(c, s, reply);
    case ParkDelete(reply) => ParkDeleteKeeps(c, s, reply);
    case Tick(_, _) => FrameKeeps(c, s, FireDrain(c, s, a));
    case Pick => FrameKeeps(c, s, FireDrain(c, s, a));
    case Spawn(id, size) => SpawnKeeps(c, s, id, size);
  }

  lemma OtherKeeps(c: Config, s: Sys, st: Step)
    requires Inv(c, s) && Enabled(c, s, st)
    requires st.Ingest? || st.WriteThrough? || st.Land? || st.Crash?
    ensures Good(c, s, Fire(c, s, st))
  {
  }

  lemma {:induction false} StepKeeps(c: Config, s: Sys, st: Step)
    requires Inv(c, s)
    ensures Good(c, s, Do(c, s, st))
  {
    if Enabled(c, s, st) {
      match st
      case SweepStep(a) => SweepKeeps(c, s, a);
      case TaskStep(id, a) => TaskKeeps(c, s, id, a);
      case DrainStep(a) => DrainKeeps(c, s, a);
      case _ => OtherKeeps(c, s, st);
    }
  }

  // ----- whole runs -----

  /** A process that has just started on any stored state, with an empty history. */
  ghost predicate Booted(s: Sys) {
    s == Restarted(s) && s.taken == {} && s.enqueued == {} && s.unowned == {} && s.handed == {}
  }

  lemma {:induction false} RunKeeps(c: Config, s: Sys, run: seq<Step>)
    requires Inv(c, s)
    ensures Good(c, s, Exec(c, s, run))
  {
    if run != [] {
      var pre := run[..|run| - 1];
      RunKeeps(c, s, pre);
      StepKeeps(c, Exec(c, s, pre), run[|run| - 1]);
    }
  }

  lemma {:induction false} ExecSplit(c: Config, s: Sys, run: seq<Step>, n: nat)
    requires n <= |run|
    ensures Exec(c, s, run) == Exec(c, Exec(c, s, run[..n]), run[n..])
  {
    if n == |run| {
      assert run[..n] == run && run[n..] == [];
    } else {
      var pre, tail := run[..|run| - 1], run[n..];
      ExecSplit(c, s, pre, n);
      assert pre[..n] == run[..n];
      assert tail[..|tail| - 1] == pre[n..];
      assert tail[|tail| - 1] == run[|run| - 1];
    }
  }

  /**
   Once enqueued, a mint stays queued or parked until it is on chain: at every later point of
   every run, whatever fails, crashes or interleaves.
   */
  lemma EnqueuedUntilConfirmed(c: Config, s: Sys, run: seq<Step>, n: nat, k: MintKey)
    requires Booted(s) && n <= |run|
    requires k in Exec(c, s, run[..n]).enqueued
    ensures Safe(Exec(c, s, run), k)
  {
    var mid := Exec(c, s, run[..n]);
    RunKeeps(c, s, run[..n]);
    RunKeeps(c, mid, run[n..]);
    ExecSplit(c, s, run, n);
  }

  /**
   A sweep deletes the durable entry of an owed surplus bin only when the mint was enqueued or
   confirmed, and the mint then has a durable home at every later point.
   */
  lemma EvictedSurplusIsSafe(c: Config, s: Sys, run: seq<Step>, n: nat, k: MintKey)
    requires Booted(s) && n <= |run|
    requires k in Exec(c, s, run[..n]).handed
    ensures var mid := Exec(c, s, run[..n]); k in mid.enqueued || k in mid.chain
    ensures Safe(Exec(c, s, run), k)
  {
    var mid := Exec(c, s, run[..n]);
    RunKeeps(c, s, run[..n]);
    assert Safe(mid, k);
    RunKeeps(c, mid, run[n..]);
    ExecSplit(c, s, run, n);
  }
}
