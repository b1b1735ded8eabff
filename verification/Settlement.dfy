/**
 The settlement pipeline as a state machine.

 One state holds what survives a crash (the bins, outbox and parked hashes, the published
 mint intents and the chain), what the process holds (aggregator, write-through queue, the
 sweep, the drain loop, mint tasks and the in-flight set), and a history that only the
 properties read. Each step is one atomic action of the code: one locked section, one Redis
 command, one registry answer, one reply. A step that is not enabled changes nothing.

 A Redis command may fail with or without its effect, a mint may land after its reply was
 lost, and a crash may come between any two steps.
 */
module Settlement {
  import opened Wrappers
  import opened Ints
  import opened Windows
  import opened Billing

  // ----- values -----

  datatype MintKey = MintKey(serial: string, windowMs: int)

  datatype PendingMint = PendingMint(serial: string, meter: MeterId, windowMs: int, energy: real, enqueuedAt: int) {
    function Field(): MintKey {
      MintKey(serial, windowMs)
    }
  }

  function MintKeyOf(b: BillingBin): MintKey {
    MintKey(b.serial, Millis(b.start))
  }

  function MintKeyFor(k: BinKey): MintKey {
    MintKey(k.meter.name, Millis(k.start))
  }

  datatype MintDecision = Surplus(kwh: real) | NoSurplus | Disabled

  function PlanMint(b: BillingBin, enabled: bool): MintDecision {
    if !enabled then Disabled
    else match b.NetSurplus()
      case Some(kwh) => Surplus(kwh)
      case None => NoSurplus
  }

  datatype Handoff = NotApplicable | Enqueued | MintedDirectly | BestEffortOnly | Lost

  predicate BinDurablySettled(h: Handoff) {
    !h.Lost?
  }

  predicate IsExpired(p: PendingMint, nowMs: int, maxAgeSecs: nat) {
    maxAgeSecs != 0 && Saturate(nowMs - p.enqueuedAt) > Saturate(AsI64(maxAgeSecs) * 1000)
  }

  /** A registry answer. */
  datatype Lookup = Found | Missing | Failed

  /** Only a definite miss in the read-model and in the source of truth makes an owner unknown. */
  predicate OwnerKnown(readModel: Lookup, sourceOfTruth: Lookup) {
    match readModel
    case Found => true
    case Failed => true
    case Missing => !sourceOfTruth.Missing?
  }

  /** How a Redis command ended; an error says nothing about its effect. */
  datatype Reply = Ok | ErrorAfterEffect | ErrorWithoutEffect {
    predicate Applied() { !ErrorWithoutEffect? }
  }

  // ----- state -----

  datatype SweepPhase =
    | Planning
    | Enqueueing(p: PendingMint, retry: bool)
    | DirectClaim(p: PendingMint)
    | DirectResolve(p: PendingMint)
    | DirectAwait(p: PendingMint)
    | Evicting(handoff: Handoff)

  datatype Sweep = SweepIdle | Sweeping(cur: BillingBin, rest: seq<BillingBin>, phase: SweepPhase)

  datatype Drain =
    | DrainIdle
    | Draining(nowMs: int, todo: seq<PendingMint>, toMint: seq<PendingMint>)
    | Parking(nowMs: int, cur: PendingMint, stored: bool, todo: seq<PendingMint>, toMint: seq<PendingMint>)

  /** One mint attempt for one or more entries, with the outbox removal that follows it. */
  datatype Task =
    | Claiming(todo: seq<PendingMint>, resolving: Option<PendingMint>, held: seq<PendingMint>)
    | Awaiting(held: seq<PendingMint>)
    | Removing(fields: seq<MintKey>, second: bool)

  datatype Config = Config(mintEnabled: bool, grace: int, maxAgeSecs: nat)

  datatype Sys = Sys(
    bins: map<BinKey, BillingBin>,
    outbox: map<MintKey, PendingMint>,
    parked: map<MintKey, PendingMint>,
    published: set<PendingMint>,
    chain: map<MintKey, real>,
    agg: AggState,
    queue: seq<BillingBin>,
    sweep: Sweep,
    drain: Drain,
    tasks: map<nat, Task>,
    inFlight: set<MintKey>,
    taken: set<BillingBin>,
    enqueued: set<MintKey>,
    unowned: set<BillingBin>,
    handed: set<MintKey>)

  /** First boot: nothing stored, nothing on chain. */
  const FIRST_BOOT :=
    Sys(map[], map[], map[], {}, map[], EMPTY_AGG, [], SweepIdle, DrainIdle, map[], {}, {}, {}, {}, {})

  /** A restart: the process part is rebuilt from the bins hash. */
  function Restarted(s: Sys): Sys {
    s.(agg := EMPTY_AGG.(active := s.bins), queue := [], sweep := SweepIdle, drain := DrainIdle,
       tasks := map[], inFlight := {})
  }

  // ----- steps -----

  datatype SweepAction =
    | Take(now: Instant, order: seq<BillingBin>)
    | Plan(readModel: Lookup, sourceOfTruth: Lookup, nowMs: int)
    | Enqueue(reply: Reply, id: nat)
    | ClaimDirect
    | ResolveDirect(walletOk: bool)
    | ReplyDirect(success: bool)
    | Evict(reply: Reply)

  datatype TaskAction =
    | Claim
    | Resolve(walletOk: bool)
    | Publish
    | Reply(confirmed: seq<MintKey>)
    | Remove(result: Reply)
    | Abort

  datatype DrainAction =
    | Tick(nowMs: int, entries: seq<PendingMint>)
    | Pick
    | ParkStore(reply: Reply)
    | ParkDelete(reply: Reply)
    | Spawn(id: nat, size: nat)

  datatype Step =
    | Ingest(r: Reading, now: Instant)
    | WriteThrough(reply: Reply)
    | SweepStep(sweep: SweepAction)
    | TaskStep(id: nat, task: TaskAction)
    | DrainStep(drain: DrainAction)
    | Land(p: PendingMint)
    | Crash

  /** `order` lists the completed bins, each once. */
  ghost predicate ListsCompleted(a: AggState, now: Instant, grace: int, order: seq<BillingBin>) {
    && (forall b :: b in order <==> b.Key() in CompletedKeys(a, now, grace) && a.active[b.Key()] == b)
    && (forall i, j :: 0 <= i < j < |order| ==> order[i].Key() != order[j].Key())
  }

  ghost predicate ListsOutbox(outbox: map<MintKey, PendingMint>, order: seq<PendingMint>) {
    forall p :: p in order <==> exists k :: k in outbox && outbox[k] == p
  }

  ghost predicate SweepEnabled(c: Config, s: Sys, a: SweepAction) {
    if a.Take? then s.sweep.SweepIdle? && ListsCompleted(s.agg, a.now, c.grace, a.order)
    else
      s.sweep.Sweeping? &&
      match a
      case Take(_, _) => true
      case Plan(_, _, _) => s.sweep.phase.Planning?
      case Enqueue(_, id) => s.sweep.phase.Enqueueing? && id !in s.tasks
      case ClaimDirect => s.sweep.phase.DirectClaim?
      case ResolveDirect(_) => s.sweep.phase.DirectResolve?
      // A success reply for a key means that the key is minted.
      case ReplyDirect(success) => s.sweep.phase.DirectAwait? && (success ==> s.sweep.phase.p.Field() in s.chain)
      case Evict(_) => s.sweep.phase.Evicting?
  }

  ghost predicate TaskEnabled(s: Sys, id: nat, a: TaskAction) {
    id in s.tasks &&
    var t := s.tasks[id];
    match a
    case Claim => t.Claiming? && t.resolving.None? && t.todo != []
    case Resolve(_) => t.Claiming? && t.resolving.Some?
    case Publish => t.Claiming? && t.resolving.None? && t.todo == []
    case Reply(confirmed) => t.Awaiting? && forall k :: k in confirmed ==> k in s.chain
    case Remove(_) => t.Removing?
    case Abort => true
  }

  ghost predicate DrainEnabled(s: Sys, a: DrainAction) {
    match a
    case Tick(_, entries) => s.drain.DrainIdle? && ListsOutbox(s.outbox, entries)
    case Pick => s.drain.Draining? && s.drain.todo != []
    case ParkStore(_) => s.drain.Parking? && !s.drain.stored
    case ParkDelete(_) => s.drain.Parking? && s.drain.stored
    case Spawn(id, size) => s.drain.Draining? && s.drain.todo == [] && id !in s.tasks && size > 0
  }

  ghost predicate Enabled(c: Config, s: Sys, st: Step) {
    match st
    case Ingest(r, _) => r.meter == MeterId(r.serial)
    case WriteThrough(_) => s.queue != []
    case SweepStep(a) => SweepEnabled(c, s, a)
    case TaskStep(id, a) => TaskEnabled(s, id, a)
    case DrainStep(a) => DrainEnabled(s, a)
    case Land(p) => p in s.published
    case Crash => true
  }

  // ----- the sweep -----

  /** The sweep that starts on a list of taken bins. */
  function StartSweep(order: seq<BillingBin>): Sweep {
    if order == [] then SweepIdle else Sweeping(order[0], order[1..], Planning)
  }

  function Phase(s: Sys, phase: SweepPhase): Sys
    requires s.sweep.Sweeping?
  {
    s.(sweep := s.sweep.(phase := phase))
  }

  /** The bin, if its owner is in neither table. */
  function MissingEverywhere(b: BillingBin, readModel: Lookup, sourceOfTruth: Lookup): set<BillingBin> {
    if readModel.Missing? && sourceOfTruth.Missing? then {b} else {}
  }

  /** Decide what happens to the surplus of the current bin; `unowned` keeps the last answer about its owner. */
  function FirePlan(c: Config, s: Sys, readModel: Lookup, sourceOfTruth: Lookup, nowMs: int): (t: Sys)
    requires s.sweep.Sweeping?
    ensures t == s.(sweep := t.sweep, unowned := t.unowned)
    ensures t.sweep.Sweeping? && t.sweep == s.sweep.(phase := t.sweep.phase)
  {
    var b := s.sweep.cur;
    match PlanMint(b, c.mintEnabled)
    case Surplus(kwh) =>
      if OwnerKnown(readModel, sourceOfTruth)
      then Phase(s, Enqueueing(PendingMint(b.serial, b.meter, Millis(b.start), kwh, nowMs), false))
           .(unowned := s.unowned - {b})
      else Phase(s, Evicting(NotApplicable)).(unowned := s.unowned + MissingEverywhere(b, readModel, sourceOfTruth))
    case NoSurplus => Phase(s, Evicting(NotApplicable))
    case Disabled => Phase(s, Evicting(NotApplicable))
  }

  /** The HSET of `enqueue`. */
  function HsetOutbox(s: Sys, p: PendingMint, reply: Reply): (t: Sys)
    ensures t == s.(outbox := t.outbox, enqueued := t.enqueued)
  {
    if reply.Applied() then s.(outbox := s.outbox[p.Field() := p], enqueued := s.enqueued + {p.Field()}) else s
  }

  /** First enqueue spawns an attempt; a failed one is retried once; then a direct mint is the last resort. */
  function FireEnqueue(s: Sys, reply: Reply, id: nat): (t: Sys)
    requires s.sweep.Sweeping? && s.sweep.phase.Enqueueing?
    ensures t == s.(outbox := t.outbox, sweep := t.sweep, tasks := t.tasks, enqueued := t.enqueued)
    ensures t.sweep.Sweeping? && t.sweep == s.sweep.(phase := t.sweep.phase)
  {
    var p, retry := s.sweep.phase.p, s.sweep.phase.retry;
    var s1 := HsetOutbox(s, p, reply);
    if reply.Ok? then
      var s2 := Phase(s1, Evicting(Enqueued));
      if retry then s2 else s2.(tasks := s.tasks[id := Claiming([p], None, [])])
    else if !retry then Phase(s1, Enqueueing(p, true))
    else Phase(s1, DirectClaim(p))
  }

  /** The same, as the sweep and the tasks see it. */
  lemma EnqueueEffect(s: Sys, reply: Reply, id: nat)
    requires s.sweep.Sweeping? && s.sweep.phase.Enqueueing?
    ensures var p, retry, t := s.sweep.phase.p, s.sweep.phase.retry, FireEnqueue(s, reply, id);
            && t == HsetOutbox(s, p, reply).(sweep := t.sweep, tasks := t.tasks)
            && t.tasks == (if reply.Ok? && !retry then s.tasks[id := Claiming([p], None, [])] else s.tasks)
            && t.sweep.phase == if reply.Ok? then Evicting(Enqueued)
                                else if retry then DirectClaim(p) else Enqueueing(p, true)
  {
  }

  /** Delete the durable entry of a bin that is safe elsewhere, and go to the next bin. */
  function FireEvict(c: Config, s: Sys, reply: Reply): (t: Sys)
    requires s.sweep.Sweeping? && s.sweep.phase.Evicting?
    ensures t == s.(bins := t.bins, sweep := t.sweep, handed := t.handed)
  {
    var b := s.sweep.cur;
    var s1 := if BinDurablySettled(s.sweep.phase.handoff) && reply.Applied()
              then s.(bins := s.bins - {b.Key()},
                      handed := s.handed + if Owed(c, s, b) then {MintKeyOf(b)} else {})
              else s;
    s1.(sweep := StartSweep(s.sweep.rest))
  }

  /** The bin carries a surplus, and its owner was not found to be definitively unregistered. */
  predicate Owed(c: Config, s: Sys, b: BillingBin) {
    PlanMint(b, c.mintEnabled).Surplus? && b !in s.unowned
  }

  // ----- mint tasks -----

  function SetTask(s: Sys, id: nat, t: Task): Sys {
    s.(tasks := s.tasks[id := t])
  }

  function EndTask(s: Sys, id: nat): Sys {
    s.(tasks := s.tasks - {id})
  }

  function Fields(ps: seq<PendingMint>): seq<MintKey> {
    seq(|ps|, i requires 0 <= i < |ps| => ps[i].Field())
  }

  /** The keys whose guards a task holds. */
  function TaskGuards(t: Task): seq<MintKey> {
    match t
    case Claiming(_, resolving, held) => Fields(held) + if resolving.Some? then [resolving.value.Field()] else []
    case Awaiting(held) => Fields(held)
    case Removing(_, _) => []
  }

  function FireClaim(s: Sys, id: nat): (t: Sys)
    requires id in s.tasks && s.tasks[id].Claiming? && s.tasks[id].todo != []
    ensures t == s.(tasks := t.tasks, inFlight := t.inFlight)
  {
    var t := s.tasks[id];
    var p := t.todo[0];
    if p.Field() in s.inFlight then SetTask(s, id, t.(todo := t.todo[1..]))
    else SetTask(s, id, t.(todo := t.todo[1..], resolving := Some(p))).(inFlight := s.inFlight + {p.Field()})
  }

  function FireResolve(s: Sys, id: nat, walletOk: bool): (t: Sys)
    requires id in s.tasks && s.tasks[id].Claiming? && s.tasks[id].resolving.Some?
    ensures t == s.(tasks := t.tasks, inFlight := t.inFlight)
  {
    var t := s.tasks[id];
    var p := t.resolving.value;
    if walletOk then SetTask(s, id, t.(resolving := None, held := t.held + [p]))
    else SetTask(s, id, t.(resolving := None)).(inFlight := s.inFlight - {p.Field()})
  }

  function FirePublish(s: Sys, id: nat): (t: Sys)
    requires id in s.tasks && s.tasks[id].Claiming? && s.tasks[id].resolving.None?
    ensures t == s.(tasks := t.tasks, published := t.published)
  {
    var held := s.tasks[id].held;
    if held == [] then EndTask(s, id)
    else SetTask(s, id, Awaiting(held)).(published := s.published + set p | p in held)
  }

  /** The reply names the confirmed keys; an envelope failure names none. Every guard drops. */
  function FireReply(s: Sys, id: nat, confirmed: seq<MintKey>): (t: Sys)
    requires id in s.tasks && s.tasks[id].Awaiting?
    ensures t == s.(tasks := t.tasks, inFlight := t.inFlight)
  {
    SetTask(s, id, Removing(confirmed, false)).(inFlight := s.inFlight - SetOf(TaskGuards(s.tasks[id])))
  }

  /** `remove`: delete from the outbox, then (best effort) from the parked hash, field by field. */
  function FireRemove(s: Sys, id: nat, reply: Reply): (t: Sys)
    requires id in s.tasks && s.tasks[id].Removing?
    ensures t == s.(tasks := t.tasks, outbox := t.outbox, parked := t.parked)
    ensures forall k :: k in t.outbox ==> k in s.outbox && t.outbox[k] == s.outbox[k]
    ensures forall k :: k in t.parked ==> k in s.parked && t.parked[k] == s.parked[k]
  {
    var t := s.tasks[id];
    if t.fields == [] then EndTask(s, id)
    else if !t.second then
      var s1 := if reply.Applied() then s.(outbox := s.outbox - {t.fields[0]}) else s;
      SetTask(s1, id, if reply.Ok? then t.(second := true) else Removing(t.fields[1..], false))
    else
      var s1 := if reply.Applied() then s.(parked := s.parked - {t.fields[0]}) else s;
      SetTask(s1, id, Removing(t.fields[1..], false))
  }

  /** A panic or an early exit drops the guards the task still holds. */
  function FireAbort(s: Sys, id: nat): (t: Sys)
    requires id in s.tasks
    ensures t == s.(tasks := t.tasks, inFlight := t.inFlight)
  {
    EndTask(s, id).(inFlight := s.inFlight - SetOf(TaskGuards(s.tasks[id])))
  }

  // ----- the drain loop -----

  function FirePick(c: Config, s: Sys): (t: Sys)
    requires s.drain.Draining? && s.drain.todo != []
    ensures t == s.(drain := t.drain)
  {
    var d := s.drain;
    var p := d.todo[0];
    if IsExpired(p, d.nowMs, c.maxAgeSecs)
    then s.(drain := Parking(d.nowMs, p, false, d.todo[1..], d.toMint))
    else s.(drain := Draining(d.nowMs, d.todo[1..], d.toMint + [p]))
  }

  function FireParkStore(s: Sys, reply: Reply): (t: Sys)
    requires s.drain.Parking?
    ensures t == s.(drain := t.drain, parked := t.parked)
  {
    var d := s.drain;
    var s1 := if reply.Applied() then s.(parked := s.parked[d.cur.Field() := d.cur]) else s;
    s1.(drain := if reply.Ok? then Parking(d.nowMs, d.cur, true, d.todo, d.toMint)
                 else Draining(d.nowMs, d.todo, d.toMint))
  }

  function FireParkDelete(s: Sys, reply: Reply): (t: Sys)
    requires s.drain.Parking?
    ensures t == s.(drain := t.drain, outbox := t.outbox)
  {
    var d := s.drain;
    var s1 := if reply.Applied() then s.(outbox := s.outbox - {d.cur.Field()}) else s;
    s1.(drain := Draining(d.nowMs, d.todo, d.toMint))
  }

  /** Batches of at most `size` entries; the loop is idle again once nothing is left. */
  function FireSpawn(s: Sys, id: nat, size: nat): (t: Sys)
    requires s.drain.Draining?
    ensures t == s.(drain := t.drain, tasks := t.tasks)
  {
    var d := s.drain;
    if d.toMint == [] then s.(drain := DrainIdle)
    else
      var n := if size < |d.toMint| then size else |d.toMint|;
      SetTask(s, id, Claiming(d.toMint[..n], None, [])).(drain := Draining(d.nowMs, d.todo, d.toMint[n..]))
  }

  // ----- everything together -----

  function FireIngest(s: Sys, r: Reading, now: Instant): (t: Sys)
    ensures t == s.(agg := t.agg, queue := t.queue)
  {
    var (a, snapshot) := HandleReading(s.agg, r, now);
    s.(agg := a, queue := s.queue + if snapshot.Some? then [snapshot.value] else [])
  }

  function FireWrite(s: Sys, reply: Reply): (t: Sys)
    requires s.queue != []
    ensures t == s.(queue := t.queue, bins := t.bins)
  {
    var b := s.queue[0];
    s.(queue := s.queue[1..], bins := if reply.Applied() then s.bins[b.Key() := b] else s.bins)
  }

  function FireTake(c: Config, s: Sys, now: Instant, order: seq<BillingBin>): (t: Sys)
    ensures t == s.(agg := t.agg, sweep := t.sweep, taken := t.taken)
  {
    s.(agg := RemoveBins(s.agg, CompletedKeys(s.agg, now, c.grace)),
       sweep := StartSweep(order),
       taken := s.taken + set b | b in order)
  }

  /** One settlement account per (meter, window): the first landing mint fixes the amount. */
  function FireLand(s: Sys, p: PendingMint): (t: Sys)
    ensures t == s.(chain := t.chain)
  {
    if p.Field() in s.chain then s else s.(chain := s.chain[p.Field() := p.energy])
  }

  function FireDirectClaim(s: Sys): (t: Sys)
    requires s.sweep.Sweeping? && s.sweep.phase.DirectClaim?
    ensures t == s.(sweep := t.sweep, inFlight := t.inFlight)
    ensures t.sweep.Sweeping? && t.sweep == s.sweep.(phase := t.sweep.phase)
  {
    var p := s.sweep.phase.p;
    if p.Field() in s.inFlight then Phase(s, Evicting(Lost))
    else Phase(s, DirectResolve(p)).(inFlight := s.inFlight + {p.Field()})
  }

  function FireDirectResolve(s: Sys, walletOk: bool): (t: Sys)
    requires s.sweep.Sweeping? && s.sweep.phase.DirectResolve?
    ensures t == s.(sweep := t.sweep, inFlight := t.inFlight, published := t.published)
    ensures t.sweep.Sweeping? && t.sweep == s.sweep.(phase := t.sweep.phase)
  {
    var p := s.sweep.phase.p;
    if walletOk then Phase(s, DirectAwait(p)).(published := s.published + {p})
    else Phase(s, Evicting(Lost)).(inFlight := s.inFlight - {p.Field()})
  }

  function FireDirectReply(s: Sys, success: bool): (t: Sys)
    requires s.sweep.Sweeping? && s.sweep.phase.DirectAwait?
    ensures t == s.(sweep := t.sweep, inFlight := t.inFlight)
    ensures t.sweep.Sweeping? && t.sweep == s.sweep.(phase := t.sweep.phase)
  {
    var p := s.sweep.phase.p;
    Phase(s, Evicting(if success then MintedDirectly else Lost)).(inFlight := s.inFlight - {p.Field()})
  }

  ghost function FireSweep(c: Config, s: Sys, a: SweepAction): (t: Sys)
    requires SweepEnabled(c, s, a)
    ensures t.parked == s.parked && t.chain == s.chain && t.queue == s.queue && t.drain == s.drain
    ensures !a.Take? ==> t.agg == s.agg && t.taken == s.taken
    ensures !a.Evict? ==> t.bins == s.bins
  {
    match a
    case Take(now, order) => FireTake(c, s, now, order)
    case Plan(readModel, sourceOfTruth, nowMs) => FirePlan(c, s, readModel, sourceOfTruth, nowMs)
    case Enqueue(reply, id) => FireEnqueue(s, reply, id)
    case ClaimDirect => FireDirectClaim(s)
    case ResolveDirect(walletOk) => FireDirectResolve(s, walletOk)
    case ReplyDirect(success) => FireDirectReply(s, success)
    case Evict(reply) => FireEvict(c, s, reply)
  }

  ghost function FireTask(s: Sys, id: nat, a: TaskAction): (t: Sys)
    requires TaskEnabled(s, id, a)
    ensures t == s.(tasks := t.tasks, inFlight := t.inFlight, published := t.published, outbox := t.outbox,
                    parked := t.parked)
  {
    match a
    case Claim => FireClaim(s, id)
    case Resolve(walletOk) => FireResolve(s, id, walletOk)
    case Publish => FirePublish(s, id)
    case Reply(confirmed) => FireReply(s, id, confirmed)
    case Remove(reply) => FireRemove(s, id, reply)
    case Abort => FireAbort(s, id)
  }

  ghost function FireDrain(c: Config, s: Sys, a: DrainAction): (t: Sys)
    requires DrainEnabled(s, a)
    ensures t == s.(drain := t.drain, tasks := t.tasks, outbox := t.outbox, parked := t.parked)
  {
    match a
    case Tick(nowMs, entries) => s.(drain := Draining(nowMs, entries, []))
    case Pick => FirePick(c, s)
    case ParkStore(reply) => FireParkStore(s, reply)
    case ParkDelete(reply) => FireParkDelete(s, reply)
    case Spawn(id, size) => FireSpawn(s, id, size)
  }

  ghost function Fire(c: Config, s: Sys, st: Step): Sys
    requires Enabled(c, s, st)
  {
    match st
    case Ingest(r, now) => FireIngest(s, r, now)
    case WriteThrough(reply) => FireWrite(s, reply)
    case SweepStep(a) => FireSweep(c, s, a)
    case TaskStep(id, a) => FireTask(s, id, a)
    case DrainStep(a) => FireDrain(c, s, a)
    case Land(p) => FireLand(s, p)
    case Crash => Restarted(s)
  }

  ghost function Do(c: Config, s: Sys, st: Step): Sys {
    if Enabled(c, s, st) then Fire(c, s, st) else s
  }

  /** The state after a list of steps, oldest first. */
  ghost function Exec(c: Config, s: Sys, run: seq<Step>): Sys {
    if run == [] then s else Do(c, Exec(c, s, run[..|run| - 1]), run[|run| - 1])
  }
}
