/** What is minted: every amount on chain is the surplus of a bin that a sweep took. */
module SettlementAmounts {
  import opened Wrappers
  import opened Windows
  import opened Billing
  import opened BillingProofs
  import opened Settlement
  import opened SettlementProvenance

  type Bins = set<BillingBin>

  /** Some taken bin has this key and this surplus. */
  ghost predicate Earned(taken: Bins, k: MintKey, energy: real) {
    exists b :: b in taken && MintKeyOf(b) == k && b.NetSurplus() == Some(energy)
  }

  ghost predicate Backed(taken: Bins, p: PendingMint) {
    Earned(taken, p.Field(), p.energy)
  }

  ghost predicate BackedSeq(taken: Bins, ps: seq<PendingMint>) {
    forall i :: 0 <= i < |ps| ==> Backed(taken, ps[i])
  }

  ghost predicate BackedMap(taken: Bins, m: map<MintKey, PendingMint>) {
    forall k :: k in m ==> Backed(taken, m[k])
  }

  ghost predicate BackedTask(taken: Bins, t: Task) {
    match t
    case Claiming(todo, resolving, held) =>
      BackedSeq(taken, todo) && BackedSeq(taken, held) && (resolving.Some? ==> Backed(taken, resolving.value))
    case Awaiting(held) => BackedSeq(taken, held)
    case Removing(_, _) => true
  }

  ghost predicate BackedTasks(taken: Bins, tasks: map<nat, Task>) {
    forall id :: id in tasks ==> BackedTask(taken, tasks[id])
  }

  ghost predicate BackedDrain(taken: Bins, d: Drain) {
    match d
    case DrainIdle => true
    case Draining(_, todo, toMint) => BackedSeq(taken, todo) && BackedSeq(taken, toMint)
    case Parking(_, cur, _, todo, toMint) => Backed(taken, cur) && BackedSeq(taken, todo) && BackedSeq(taken, toMint)
  }

  ghost predicate BackedSweep(taken: Bins, w: Sweep) {
    w.Sweeping? && (w.phase.Enqueueing? || w.phase.DirectClaim? || w.phase.DirectResolve? || w.phase.DirectAwait?) ==>
      Backed(taken, w.phase.p)
  }

  ghost predicate BackedSet(taken: Bins, ps: set<PendingMint>) {
    forall p :: p in ps ==> Backed(taken, p)
  }

  ghost predicate BackedChain(taken: Bins, chain: map<MintKey, real>) {
    forall k :: k in chain ==> Earned(taken, k, chain[k])
  }

  /** Every mint, wherever it is on its way, is backed. */
  ghost predicate AllBacked(s: Sys) {
    && BackedMap(s.taken, s.outbox) && BackedMap(s.taken, s.parked)
    && BackedSet(s.taken, s.published) && BackedChain(s.taken, s.chain)
    && BackedTasks(s.taken, s.tasks) && BackedDrain(s.taken, s.drain) && BackedSweep(s.taken, s.sweep)
  }

  // ----- steps -----

  lemma MoreTaken(s: Sys, taken: Bins)
    requires AllBacked(s) && s.taken <= taken
    ensures BackedMap(taken, s.outbox) && BackedMap(taken, s.parked) && BackedSet(taken, s.published)
    ensures BackedChain(taken, s.chain) && BackedTasks(taken, s.tasks) && BackedDrain(taken, s.drain)
  {
    forall k, e | Earned(s.taken, k, e) ensures Earned(taken, k, e) {
      var b :| b in s.taken && MintKeyOf(b) == k && b.NetSurplus() == Some(e);
      assert b in taken;
    }
    MoreMap(s.taken, taken, s.outbox);
    MoreMap(s.taken, taken, s.parked);
    forall id | id in s.tasks ensures BackedTask(taken, s.tasks[id]) {
      assert BackedTask(s.taken, s.tasks[id]);
    }
  }

  lemma MoreMap(a: Bins, b: Bins, m: map<MintKey, PendingMint>)
    requires BackedMap(a, m)
    requires forall k, e :: Earned(a, k, e) ==> Earned(b, k, e)
    ensures BackedMap(b, m)
  {
  }

  lemma TakeBacked(c: Config, s: Sys, now: Instant, order: seq<BillingBin>)
    requires AllBacked(s)
    ensures AllBacked(FireTake(c, s, now, order))
  {
    MoreTaken(s, FireTake(c, s, now, order).taken);
  }

  lemma PlanBacked(c: Config, s: Sys, readModel: Lookup, sourceOfTruth: Lookup, nowMs: int)
    requires AllBacked(s) && s.sweep.Sweeping? && s.sweep.phase.Planning? && s.sweep.cur in s.taken
    ensures AllBacked(FirePlan(c, s, readModel, sourceOfTruth, nowMs))
  {
    PlannedIsBacked(c, s, readModel, sourceOfTruth, nowMs);
    SweepFrame(s, FirePlan(c, s, readModel, sourceOfTruth, nowMs));
  }

  lemma PlannedIsBacked(c: Config, s: Sys, readModel: Lookup, sourceOfTruth: Lookup, nowMs: int)
    requires s.sweep.Sweeping? && s.sweep.cur in s.taken
    ensures BackedSweep(s.taken, FirePlan(c, s, readModel, sourceOfTruth, nowMs).sweep)
  {
    var phase := FirePlan(c, s, readModel, sourceOfTruth, nowMs).sweep.phase;
    PlannedMint(c, s, readModel, sourceOfTruth, nowMs);
    if phase.Enqueueing? { IsEarned(s.taken, s.sweep.cur, phase.p); }
  }

  /** The planned mint is the surplus of the current bin. */
  lemma PlannedMint(c: Config, s: Sys, readModel: Lookup, sourceOfTruth: Lookup, nowMs: int)
    requires s.sweep.Sweeping?
    ensures var phase := FirePlan(c, s, readModel, sourceOfTruth, nowMs).sweep.phase;
            && (phase.Enqueueing? || phase.Evicting?)
            && (phase.Enqueueing? ==> phase.p.Field() == MintKeyOf(s.sweep.cur))
            && (phase.Enqueueing? ==> s.sweep.cur.NetSurplus() == Some(phase.p.energy))
  {
  }

  lemma IsEarned(taken: Bins, b: BillingBin, p: PendingMint)
    requires b in taken && p.Field() == MintKeyOf(b) && b.NetSurplus() == Some(p.energy)
    ensures Backed(taken, p)
  {
  }

  lemma SweepFrame(s: Sys, t: Sys)
    requires AllBacked(s) && t == s.(sweep := t.sweep, unowned := t.unowned) && BackedSweep(s.taken, t.sweep)
    ensures AllBacked(t)
  {
  }

  lemma EnqueueBacked(s: Sys, reply: Reply, id: nat)
    requires AllBacked(s) && s.sweep.Sweeping? && s.sweep.phase.Enqueueing?
    ensures AllBacked(FireEnqueue(s, reply, id))
  {
    var p := s.sweep.phase.p;
    EnqueueEffect(s, reply, id);
    BackedUpdate(s.taken, s.outbox, s.tasks, p, id);
  }

  /** A backed mint may be queued, and a task may be started for it. */
  lemma BackedUpdate(taken: Bins, m: map<MintKey, PendingMint>, tasks: map<nat, Task>, p: PendingMint, id: nat)
    requires Backed(taken, p) && BackedMap(taken, m) && BackedTasks(taken, tasks)
    ensures BackedMap(taken, m[p.Field() := p]) && BackedTasks(taken, tasks[id := Claiming([p], None, [])])
  {
    assert BackedSeq(taken, [p]);
  }

  lemma DirectBacked(c: Config, s: Sys, a: SweepAction)
    requires AllBacked(s) && SweepEnabled(c, s, a) && (a.ClaimDirect? || a.ResolveDirect? || a.ReplyDirect?)
    ensures AllBacked(FireSweep(c, s, a))
  {
    match a
    case ClaimDirect =>
    case ResolveDirect(_) =>
    case ReplyDirect(_) =>
  }

  lemma {:induction false} SweepBacked(c: Config, s: Sys, a: SweepAction)
    requires AllBacked(s) && SweepEnabled(c, s, a) && GenuineSweep(s.sweep, s.taken)
    ensures AllBacked(FireSweep(c, s, a))
  {
    match a
    case Take(now, order) => TakeBacked(c, s, now, order);
    case Plan(readModel, sourceOfTruth, nowMs) => PlanBacked(c, s, readModel, sourceOfTruth, nowMs);
    case Enqueue(reply, id) => EnqueueBacked(s, reply, id);
    case Evict(reply) =>
    case _ => DirectBacked(c, s, a);
  }

  /** A task may be replaced by a backed one; it may publish and delete, but not invent. */
  lemma TaskFrame(s: Sys, t: Sys, id: nat)
    requires AllBacked(s)
    requires t == s.(tasks := t.tasks, inFlight := t.inFlight, published := t.published, outbox := t.outbox,
                     parked := t.parked)
    requires || t.tasks == s.tasks - {id}
             || (id in t.tasks && t.tasks == s.tasks[id := t.tasks[id]] && BackedTask(s.taken, t.tasks[id]))
    requires BackedSet(s.taken, t.published) && BackedMap(s.taken, t.outbox) && BackedMap(s.taken, t.parked)
    ensures AllBacked(t)
  {
  }

  lemma ClaimBacked(s: Sys, id: nat)
    requires AllBacked(s) && TaskEnabled(s, id, Claim)
    ensures AllBacked(FireClaim(s, id))
  {
    assert BackedTask(s.taken, s.tasks[id]);
    TaskFrame(s, FireClaim(s, id), id);
  }

  lemma ResolveBacked(s: Sys, id: nat, walletOk: bool)
    requires AllBacked(s) && TaskEnabled(s, id, Resolve(walletOk))
    ensures AllBacked(FireResolve(s, id, walletOk))
  {
    assert BackedTask(s.taken, s.tasks[id]);
    TaskFrame(s, FireResolve(s, id, walletOk), id);
  }

  lemma PublishBacked(s: Sys, id: nat)
    requires AllBacked(s) && TaskEnabled(s, id, Publish)
    ensures AllBacked(FirePublish(s, id))
  {
    assert BackedTask(s.taken, s.tasks[id]);
    TaskFrame(s, FirePublish(s, id), id);
  }

  lemma RemoveBacked(s: Sys, id: nat, reply: Reply)
    requires AllBacked(s) && id in s.tasks && s.tasks[id].Removing?
    ensures AllBacked(FireRemove(s, id, reply))
  {
    var t := FireRemove(s, id, reply);
    TaskFrame(s, t, id);
  }

  lemma {:induction false} TaskBacked(s: Sys, id: nat, a: TaskAction)
    requires AllBacked(s) && TaskEnabled(s, id, a)
    ensures AllBacked(FireTask(s, id, a))
  {
    match a
    case Claim => ClaimBacked(s, id);
    case Resolve(walletOk) => ResolveBacked(s, id, walletOk);
    case Publish => PublishBacked(s, id);
    case Reply(confirmed) => TaskFrame(s, FireReply(s, id, confirmed), id);
    case Remove(reply) => RemoveBacked(s, id, reply);
    case Abort => TaskFrame(s, FireAbort(s, id), id);
  }

  lemma TickBacked(s: Sys, nowMs: int, entries: seq<PendingMint>)
    requires AllBacked(s) && ListsOutbox(s.outbox, entries)
    ensures AllBacked(s.(drain := Draining(nowMs, entries, [])))
  {
    forall i | 0 <= i < |entries| ensures Backed(s.taken, entries[i]) {
      assert entries[i] in entries;
    }
  }

  lemma SpawnBacked(s: Sys, id: nat, size: nat)
    requires AllBacked(s) && s.drain.Draining?
    ensures AllBacked(FireSpawn(s, id, size))
  {
    var ps := s.drain.toMint;
    BackedSplit(s.taken, s.tasks, id, ps, if size < |ps| then size else |ps|);
  }

  lemma BackedSplit(taken: Bins, tasks: map<nat, Task>, id: nat, ps: seq<PendingMint>, n: nat)
    requires BackedTasks(taken, tasks) && BackedSeq(taken, ps) && n <= |ps|
    ensures BackedTasks(taken, tasks[id := Claiming(ps[..n], None, [])]) && BackedSeq(taken, ps[n..])
  {
    assert BackedTask(taken, Claiming(ps[..n], None, []));
  }

  /** The drain loop moves on; the two hashes hold backed mints only. */
  lemma DrainFrame(s: Sys, t: Sys)
    requires AllBacked(s) && t == s.(drain := t.drain, outbox := t.outbox, parked := t.parked)
    requires BackedDrain(s.taken, t.drain) && BackedMap(s.taken, t.outbox) && BackedMap(s.taken, t.parked)
    ensures AllBacked(t)
  {
  }

  lemma PickBacked(c: Config, s: Sys)
    requires AllBacked(s) && s.drain.Draining? && s.drain.todo != []
    ensures AllBacked(FirePick(c, s))
  {
    BackedMove(s.taken, s.drain.todo, s.drain.toMint);
    DrainFrame(s, FirePick(c, s));
  }

  lemma BackedMove(taken: Bins, todo: seq<PendingMint>, toMint: seq<PendingMint>)
    requires BackedSeq(taken, todo) && BackedSeq(taken, toMint) && todo != []
    ensures Backed(taken, todo[0]) && BackedSeq(taken, todo[1..]) && BackedSeq(taken, toMint + [todo[0]])
  {
  }

  lemma ParkBacked(s: Sys, reply: Reply)
    requires AllBacked(s) && s.drain.Parking?
    ensures AllBacked(FireParkStore(s, reply)) && AllBacked(FireParkDelete(s, reply))
  {
    DrainFrame(s, FireParkStore(s, reply));
    DrainFrame(s, FireParkDelete(s, reply));
  }

  lemma StepBacked(c: Config, s: Sys, st: Step)
    requires AllBacked(s) && GenuineSweep(s.sweep, s.taken)
    ensures AllBacked(Do(c, s, st))
  {
    if Enabled(c, s, st) {
      match st
      case SweepStep(a) => SweepBacked(c, s, a);
      case TaskStep(id, a) => TaskBacked(s, id, a);
      case DrainStep(a) => {
        match a
        case Tick(nowMs, entries) => TickBacked(s, nowMs, entries);
        case Spawn(id, size) => SpawnBacked(s, id, size);
        case Pick => PickBacked(c, s);
        case ParkStore(reply) => ParkBacked(s, reply);
        case ParkDelete(reply) => ParkBacked(s, reply);
      }
      case _ =>
    }
  }

  /**
   Over every run from first boot, crashes included, whatever is minted for a key is the net
   surplus of a bin that some sweep took under that key.
   */
  lemma {:induction false} RunBacked(c: Config, run: seq<Step>)
    ensures AllBacked(Exec(c, FIRST_BOOT, run))
  {
    if run != [] {
      var pre := run[..|run| - 1];
      RunBacked(c, pre);
      RunGenuine(c, FIRST_BOOT, pre);
      StepBacked(c, Exec(c, FIRST_BOOT, pre), run[|run| - 1]);
    }
  }

  // ----- from readings to the chain, within one process lifetime -----

  /** The aggregator events of a run. */
  ghost function Events(c: Config, s: Sys, run: seq<Step>): seq<Event> {
    if run == [] then []
    else
      var pre, st := run[..|run| - 1], run[|run| - 1];
      Events(c, s, pre) + EventOf(c, Exec(c, s, pre), st)
  }

  ghost function EventOf(c: Config, s: Sys, st: Step): seq<Event> {
    if !Enabled(c, s, st) then []
    else if st.Ingest? then [Read(st.r, st.now)]
    else if st.SweepStep? && st.sweep.Take? then [Event.Sweep(st.sweep.now, c.grace)]
    else []
  }

  ghost predicate NoCrash(run: seq<Step>) {
    forall i :: 0 <= i < |run| ==> !run[i].Crash?
  }

  lemma StepProjects(c: Config, s: Sys, st: Step)
    requires !st.Crash?
    ensures EventOf(c, s, st) == [] ==> Do(c, s, st).agg == s.agg && Do(c, s, st).taken == s.taken
    ensures EventOf(c, s, st) != [] ==> Do(c, s, st).agg == Apply(s.agg, EventOf(c, s, st)[0])
    ensures var es := EventOf(c, s, st);
            forall b :: b in Do(c, s, st).taken ==>
              b in s.taken || (es != [] && Takes(s.agg, es[0], b.Key()) && s.agg.active[b.Key()] == b)
  {
    if Enabled(c, s, st) && st.SweepStep? && st.sweep.Take? {
      TakeProjects(c, s, st.sweep.now, st.sweep.order);
    }
  }

  lemma TakeProjects(c: Config, s: Sys, now: Instant, order: seq<BillingBin>)
    requires ListsCompleted(s.agg, now, c.grace, order)
    ensures FireTake(c, s, now, order).agg == Apply(s.agg, Event.Sweep(now, c.grace))
    ensures forall b :: b in FireTake(c, s, now, order).taken ==>
              b in s.taken || (Takes(s.agg, Event.Sweep(now, c.grace), b.Key()) && s.agg.active[b.Key()] == b)
  {
  }

  /** The aggregator inside the pipeline runs exactly the pipeline's readings and sweeps. */
  lemma {:induction false} AggregatorRun(c: Config, run: seq<Step>)
    requires NoCrash(run)
    ensures var s, es := Exec(c, FIRST_BOOT, run), Events(c, FIRST_BOOT, run);
            && s.agg == Run(EMPTY_AGG, es)
            && forall b :: b in s.taken ==> b in Taken(EMPTY_AGG, es, b.Key())
  {
    if run != [] {
      var pre, st := run[..|run| - 1], run[|run| - 1];
      AggregatorRun(c, pre);
      var s, es := Exec(c, FIRST_BOOT, pre), Events(c, FIRST_BOOT, pre);
      StepProjects(c, s, st);
      var e := EventOf(c, s, st);
      if e == [] {
        assert es + e == es;
      } else {
        assert (es + e)[..|es|] == es && (es + e)[|es|] == e[0];
        assert |es + e| == |es| + 1;
      }
    }
  }

  /** In such a lifetime a taken bin holds all that its meter reported for its window. */
  lemma {:induction false} TakenIsWhole(c: Config, run: seq<Step>, b: BillingBin)
    requires NoCrash(run) && OrderlyRun(EMPTY_AGG, Events(c, FIRST_BOOT, run), c.grace)
    requires b in Exec(c, FIRST_BOOT, run).taken
    ensures var rs := Offered(Events(c, FIRST_BOOT, run), b.Key());
            b.generated == SumReadings(Generated, rs) && b.consumed == SumReadings(Consumed, rs)
  {
    var es := Events(c, FIRST_BOOT, run);
    AggregatorRun(c, run);
    WindowSettlesWhole(es, b.Key(), c.grace);
    assert InBin(Generated, Some(b)) == SumReadings(Generated, Offered(es, b.Key()));
    assert InBin(Consumed, Some(b)) == SumReadings(Consumed, Offered(es, b.Key()));
  }

  /** An amount on chain is the surplus of a taken bin, and the key tells which. */
  lemma MintedIsTaken(c: Config, run: seq<Step>, serial: string, w: Instant) returns (b: BillingBin)
    requires w % WINDOW == 0 && MintKey(serial, Millis(w)) in Exec(c, FIRST_BOOT, run).chain
    ensures b in Exec(c, FIRST_BOOT, run).taken && b.Key() == BinKey(MeterId(serial), w)
    ensures b.NetSurplus() == Some(Exec(c, FIRST_BOOT, run).chain[MintKey(serial, Millis(w))])
  {
    var s, k := Exec(c, FIRST_BOOT, run), MintKey(serial, Millis(w));
    RunBacked(c, run);
    assert Earned(s.taken, k, s.chain[k]);
    b :| b in s.taken && MintKeyOf(b) == k && b.NetSurplus() == Some(s.chain[k]);
    RunGenuine(c, FIRST_BOOT, run);
    assert Genuine(b);
    WindowMillisInjective(b.start, w);
  }

  /**
   From readings to tokens: in a lifetime without a crash, with readings within grace and no
   silent meter at a sweep, an amount on chain for a serial and window is exactly the energy
   generated minus the energy consumed over all readings of that meter in that window.
   */
  lemma {:induction false} MintedIsMeteredSurplus(c: Config, run: seq<Step>, serial: string, w: Instant)
    requires NoCrash(run) && w % WINDOW == 0
    requires OrderlyRun(EMPTY_AGG, Events(c, FIRST_BOOT, run), c.grace)
    requires MintKey(serial, Millis(w)) in Exec(c, FIRST_BOOT, run).chain
    ensures var rs := Offered(Events(c, FIRST_BOOT, run), BinKey(MeterId(serial), w));
            && Exec(c, FIRST_BOOT, run).chain[MintKey(serial, Millis(w))]
               == SumReadings(Generated, rs) - SumReadings(Consumed, rs)
            && SumReadings(Generated, rs) > SumReadings(Consumed, rs)
  {
    var b := MintedIsTaken(c, run, serial, w);
    TakenIsWhole(c, run, b);
  }
}
