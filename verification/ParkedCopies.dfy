/**
 When a parked copy of a mint stays. `park` stores the parked copy and then deletes the outbox
 copy; `remove` deletes the outbox copy and then the parked one. Run one after the other they
 leave nothing behind, but if `park` stores after `remove` has already cleared the parked hash,
 a copy of a confirmed mint stays parked.
 */
module ParkedCopies {
  import opened Wrappers
  import opened Windows
  import opened Billing
  import opened Settlement

  /** The step is `park`'s HSET for `k` taking effect. */
  ghost predicate Stores(c: Config, s: Sys, st: Step, k: MintKey) {
    && Enabled(c, s, st) && st.DrainStep? && st.drain.ParkStore? && st.drain.reply.Applied()
    && s.drain.cur.Field() == k
  }

  /** The step is `remove`'s second HDEL for `k` taking effect. */
  ghost predicate Clears(c: Config, s: Sys, st: Step, k: MintKey) {
    && Enabled(c, s, st) && st.TaskStep? && st.task.Remove? && st.task.result.Applied()
    && var t := s.tasks[st.id];
       t.second && t.fields != [] && t.fields[0] == k
  }

  lemma ParkedAfterTask(s: Sys, id: nat, a: TaskAction, k: MintKey)
    requires TaskEnabled(s, id, a)
    ensures var t := s.tasks[id];
            var clears := a.Remove? && a.result.Applied() && t.second && t.fields != [] && t.fields[0] == k;
            k in FireTask(s, id, a).parked <==> k in s.parked && !clears
  {
    match a
    case Remove(_) =>
    case _ =>
  }

  lemma ParkedAfterDrain(c: Config, s: Sys, a: DrainAction, k: MintKey)
    requires DrainEnabled(s, a)
    ensures k in FireDrain(c, s, a).parked <==>
              k in s.parked || (a.ParkStore? && a.reply.Applied() && s.drain.cur.Field() == k)
  {
    match a
    case ParkStore(_) =>
    case _ =>
  }

  lemma {:induction false} ParkedAfterStep(c: Config, s: Sys, st: Step, k: MintKey)
    ensures k in Do(c, s, st).parked <==> Stores(c, s, st, k) || (k in s.parked && !Clears(c, s, st, k))
  {
    if Enabled(c, s, st) {
      match st
      case TaskStep(id, a) => ParkedAfterTask(s, id, a, k);
      case DrainStep(a) => ParkedAfterDrain(c, s, a, k);
      case _ =>
    }
  }

  /** What a step does to one key of a hash. */
  datatype Mark = Store | Clear | Other

  ghost function MarkOf(c: Config, s: Sys, st: Step, k: MintKey): Mark {
    if Stores(c, s, st, k) then Store else if Clears(c, s, st, k) then Clear else Other
  }

  ghost function Marks(c: Config, s: Sys, run: seq<Step>, k: MintKey): seq<Mark> {
    if run == [] then []
    else Marks(c, s, run[..|run| - 1], k) + [MarkOf(c, Exec(c, s, run[..|run| - 1]), run[|run| - 1], k)]
  }

  ghost predicate NoClearFrom(marks: seq<Mark>, n: nat) {
    forall j :: n <= j < |marks| ==> marks[j] != Clear
  }

  /** A store that no later clear undoes. */
  ghost predicate Stands(marks: seq<Mark>, i: int) {
    0 <= i < |marks| && marks[i] == Store && NoClearFrom(marks, i + 1)
  }

  ghost predicate StoredLast(marks: seq<Mark>, before: bool) {
    (exists i :: Stands(marks, i)) || (before && NoClearFrom(marks, 0))
  }

  lemma StoredLastStep(marks: seq<Mark>, m: Mark, before: bool)
    ensures StoredLast(marks + [m], before) <==> m == Store || (StoredLast(marks, before) && m != Clear)
  {
    var all, n := marks + [m], |marks|;
    assert all[n] == m && forall j :: 0 <= j < n ==> all[j] == marks[j];
    if m == Store { assert Stands(all, n); }
    if i :| Stands(all, i) { assert i < n ==> Stands(marks, i); }
    if m != Clear {
      if i :| Stands(marks, i) { assert Stands(all, i); }
    }
  }

  /** Exactly when a key is parked at the end of a run: a store of it came after every clear of it. */
  lemma {:induction false} ParkedIffStoredLast(c: Config, s: Sys, run: seq<Step>, k: MintKey)
    ensures k in Exec(c, s, run).parked <==> StoredLast(Marks(c, s, run, k), k in s.parked)
  {
    if run != [] {
      var pre := run[..|run| - 1];
      var mid := Exec(c, s, pre);
      ParkedIffStoredLast(c, s, pre, k);
      ParkedAfterStep(c, mid, run[|run| - 1], k);
      StoredLastStep(Marks(c, s, pre, k), MarkOf(c, mid, run[|run| - 1], k), k in s.parked);
    }
  }

  // ----- the two orders of a confirming `remove` and a `park` -----

  lemma {:induction false} ExecAppend(c: Config, s: Sys, a: seq<Step>, b: seq<Step>)
    ensures Exec(c, s, a + b) == Exec(c, Exec(c, s, a), b)
    decreases |b|
  {
    if b == [] {
      assert a + b == a;
    } else {
      var b' := b[..|b| - 1];
      ExecAppend(c, s, a, b');
      assert (a + b)[..|a + b| - 1] == a + b';
    }
  }

  lemma ExecOne(c: Config, s: Sys, st: Step)
    ensures Exec(c, s, [st]) == Do(c, s, st)
  {
    assert [st][..0] == [];
    assert Exec(c, s, [st][..0]) == s;
  }

  lemma ExecTwo(c: Config, s: Sys, a: Step, b: Step)
    ensures Exec(c, s, [a, b]) == Do(c, Do(c, s, a), b)
  {
    ExecOne(c, s, a);
    assert [a, b][..1] == [a];
  }

  /** The reply confirms `k`, and `remove` runs both of its deletions. */
  function ConfirmRun(id: nat, k: MintKey): seq<Step> {
    [TaskStep(id, Reply([k])), TaskStep(id, Remove(Ok))] + [TaskStep(id, Remove(Ok)), TaskStep(id, Remove(Ok))]
  }

  /** `park` runs both of its commands. */
  const PARK_RUN: seq<Step> := [DrainStep(ParkStore(Ok)), DrainStep(ParkDelete(Ok))]

  lemma FirstHalf(c: Config, s: Sys, id: nat, k: MintKey)
    requires id in s.tasks && s.tasks[id].Awaiting? && k in s.chain
    ensures Do(c, Do(c, s, TaskStep(id, Reply([k]))), TaskStep(id, Remove(Ok)))
         == s.(tasks := s.tasks[id := Removing([k], true)], outbox := s.outbox - {k},
               inFlight := s.inFlight - SetOf(TaskGuards(s.tasks[id])))
  {
    var s1 := Do(c, s, TaskStep(id, Reply([k])));
    assert s1 == s.(tasks := s.tasks[id := Removing([k], false)],
                    inFlight := s.inFlight - SetOf(TaskGuards(s.tasks[id])));
    assert s1.tasks[id := Removing([k], true)] == s.tasks[id := Removing([k], true)];
  }

  lemma SecondHalf(c: Config, s: Sys, id: nat, k: MintKey)
    requires id in s.tasks && s.tasks[id] == Removing([k], true)
    ensures Do(c, Do(c, s, TaskStep(id, Remove(Ok))), TaskStep(id, Remove(Ok)))
         == s.(tasks := s.tasks - {id}, parked := s.parked - {k})
  {
    var s1 := Do(c, s, TaskStep(id, Remove(Ok)));
    assert [k][1..] == [];
    assert s1 == s.(tasks := s.tasks[id := Removing([], false)], parked := s.parked - {k});
    assert s1.tasks - {id} == s.tasks - {id};
  }

  lemma ConfirmRuns(c: Config, s: Sys, id: nat, k: MintKey)
    requires id in s.tasks && s.tasks[id].Awaiting? && k in s.chain
    ensures Exec(c, s, ConfirmRun(id, k))
         == s.(tasks := s.tasks - {id}, outbox := s.outbox - {k}, parked := s.parked - {k},
               inFlight := s.inFlight - SetOf(TaskGuards(s.tasks[id])))
  {
    var rm := TaskStep(id, Remove(Ok));
    ExecAppend(c, s, [TaskStep(id, Reply([k])), rm], [rm, rm]);
    ExecTwo(c, s, TaskStep(id, Reply([k])), rm);
    FirstHalf(c, s, id, k);
    var mid := Do(c, Do(c, s, TaskStep(id, Reply([k]))), rm);
    ExecTwo(c, mid, rm, rm);
    SecondHalf(c, mid, id, k);
    assert mid.tasks - {id} == s.tasks - {id};
  }

  lemma ParkRuns(c: Config, s: Sys)
    requires s.drain.Parking? && !s.drain.stored
    ensures var d := s.drain;
            Exec(c, s, PARK_RUN) == s.(parked := s.parked[d.cur.Field() := d.cur], outbox := s.outbox - {d.cur.Field()},
                                      drain := Draining(d.nowMs, d.todo, d.toMint))
  {
    ExecTwo(c, s, DrainStep(ParkStore(Ok)), DrainStep(ParkDelete(Ok)));
  }

  /**
   The race of a confirming attempt with `park`, from any state in which both are under way for
   the same key. If `remove` runs last, nothing is left; if `park` runs last, the confirmed mint
   stays in the parked hash.
   */
  lemma RaceLeavesParkedCopy(c: Config, s: Sys, id: nat)
    requires s.drain.Parking? && !s.drain.stored
    requires id in s.tasks && s.tasks[id].Awaiting? && s.drain.cur.Field() in s.chain
    ensures var k := s.drain.cur.Field();
            var t := Exec(c, s, PARK_RUN + ConfirmRun(id, k));
            k in t.chain && k !in t.outbox && k !in t.parked
    ensures var k := s.drain.cur.Field();
            var t := Exec(c, s, ConfirmRun(id, k) + PARK_RUN);
            k in t.chain && k !in t.outbox && k in t.parked
  {
    var k := s.drain.cur.Field();
    ExecAppend(c, s, PARK_RUN, ConfirmRun(id, k));
    ParkRuns(c, s);
    ConfirmRuns(c, Exec(c, s, PARK_RUN), id, k);
    ExecAppend(c, s, ConfirmRun(id, k), PARK_RUN);
    ConfirmRuns(c, s, id, k);
    ParkRuns(c, Exec(c, s, ConfirmRun(id, k)));
  }

  // ----- a run from first boot that races -----

  function Metered(serial: string, generated: real, at: Instant): Reading {
    Reading(MeterId(serial), 0, serial, generated, 0.0, at, None, None, None)
  }

  /** One kWh in the first window, and a reading of the next window that completes it. */
  function FirstBin(serial: string): BillingBin {
    AddReading(EmptyBin(Metered(serial, 1.0, 0)), Metered(serial, 1.0, 0))
  }

  function FirstMint(serial: string): PendingMint {
    PendingMint(serial, MeterId(serial), 0, 1.0, 0)
  }

  /** Minting on, no grace, and a mint is parked after one second. */
  const RACE_CONFIG := Config(true, 0, 1)

  function BinRun(serial: string): seq<Step> {
    [Ingest(Metered(serial, 1.0, 0), 0), Ingest(Metered(serial, 0.0, WINDOW), 0)]
    + [SweepStep(Take(0, [FirstBin(serial)])), SweepStep(Plan(Found, Found, 0))]
  }

  function PublishRun(): seq<Step> {
    [SweepStep(Enqueue(Ok, 0)), TaskStep(0, Claim)] + [TaskStep(0, Resolve(true)), TaskStep(0, Publish)]
  }

  function ExpireRun(serial: string): seq<Step> {
    [Land(FirstMint(serial)), DrainStep(Tick(5000, [FirstMint(serial)]))] + [DrainStep(Pick)]
  }

  /** The surplus is metered, taken and planned. */
  ghost predicate Planned(s: Sys, p: PendingMint) {
    && s.sweep.Sweeping? && s.sweep.phase == Enqueueing(p, false) && s.drain == DrainIdle
    && s.outbox == map[] && s.parked == map[] && s.tasks == map[] && s.inFlight == {}
  }

  /** It is queued, and published by a task that waits for the reply. */
  ghost predicate Waiting(s: Sys, p: PendingMint) {
    && s.tasks == map[0 := Awaiting([p])] && p in s.published && s.outbox == map[p.Field() := p] && s.drain == DrainIdle
  }

  lemma {:induction false} BinsComplete(serial: string)
    ensures var s2 := Exec(RACE_CONFIG, FIRST_BOOT, BinRun(serial)[..2]);
            && s2 == FIRST_BOOT.(agg := s2.agg, queue := s2.queue)
            && ListsCompleted(s2.agg, 0, 0, [FirstBin(serial)])
  {
    var r0, r1 := Metered(serial, 1.0, 0), Metered(serial, 0.0, WINDOW);
    assert BinRun(serial)[..2] == [Ingest(r0, 0), Ingest(r1, 0)];
    ExecTwo(RACE_CONFIG, FIRST_BOOT, Ingest(r0, 0), Ingest(r1, 0));
    var a1 := HandleReading(EMPTY_AGG, r0, 0).0;
    var a2 := HandleReading(a1, r1, 0).0;
    var b0, b1 := FirstBin(serial), AddReading(EmptyBin(r1), r1);
    assert a1.active == map[b0.Key() := b0];
    assert a2.active == map[b0.Key() := b0, b1.Key() := b1] && a2.progress[r0.meter].watermark == WINDOW;
    assert CompletedKeys(a2, 0, 0) == {b0.Key()};
  }

  lemma {:induction false} BinRuns(serial: string)
    ensures Planned(Exec(RACE_CONFIG, FIRST_BOOT, BinRun(serial)), FirstMint(serial))
  {
    var run := BinRun(serial);
    BinsComplete(serial);
    assert run == run[..2] + [run[2], run[3]];
    ExecAppend(RACE_CONFIG, FIRST_BOOT, run[..2], [run[2], run[3]]);
    ExecTwo(RACE_CONFIG, Exec(RACE_CONFIG, FIRST_BOOT, run[..2]), run[2], run[3]);
    assert FirstBin(serial).NetSurplus() == Some(1.0);
  }

  /** It is queued, and a task has claimed its key. */
  ghost predicate Claimed(s: Sys, p: PendingMint) {
    s.tasks == map[0 := Claiming([], Some(p), [])] && s.outbox == map[p.Field() := p] && s.drain == DrainIdle
  }

  lemma EnqueueRuns(s: Sys, p: PendingMint)
    requires Planned(s, p)
    ensures var s1 := Do(RACE_CONFIG, s, SweepStep(Enqueue(Ok, 0)));
            && s1.tasks == map[0 := Claiming([p], None, [])] && s1.outbox == map[p.Field() := p]
            && s1.drain == DrainIdle && s1.inFlight == {}
  {
    EnqueueEffect(s, Ok, 0);
  }

  lemma ClaimRuns(s: Sys, p: PendingMint)
    requires Planned(s, p)
    ensures Claimed(Do(RACE_CONFIG, Do(RACE_CONFIG, s, SweepStep(Enqueue(Ok, 0))), TaskStep(0, Claim)), p)
  {
    EnqueueRuns(s, p);
    assert [p][1..] == [];
  }

  lemma ResolveRuns(s: Sys, p: PendingMint)
    requires Claimed(s, p)
    ensures var t := Do(RACE_CONFIG, s, TaskStep(0, Resolve(true)));
            t == s.(tasks := map[0 := Claiming([], None, [p])])
  {
    assert [] + [p] == [p];
  }

  lemma PublishStep(s: Sys, p: PendingMint)
    requires s.tasks == map[0 := Claiming([], None, [p])] && s.outbox == map[p.Field() := p] && s.drain == DrainIdle
    ensures Waiting(Do(RACE_CONFIG, s, TaskStep(0, Publish)), p)
  {
    assert p in [p];
  }

  lemma {:induction false} PublishRuns(s: Sys, p: PendingMint)
    requires Planned(s, p)
    ensures Waiting(Exec(RACE_CONFIG, s, PublishRun()), p)
  {
    var run := PublishRun();
    ExecAppend(RACE_CONFIG, s, [run[0], run[1]], [run[2], run[3]]);
    ExecTwo(RACE_CONFIG, s, run[0], run[1]);
    ClaimRuns(s, p);
    var s2 := Exec(RACE_CONFIG, s, [run[0], run[1]]);
    ExecTwo(RACE_CONFIG, s2, run[2], run[3]);
    ResolveRuns(s2, p);
    PublishStep(Do(RACE_CONFIG, s2, run[2]), p);
  }

  lemma {:induction false} ExpireRuns(serial: string, s: Sys)
    requires Waiting(s, FirstMint(serial))
    ensures var t := Exec(RACE_CONFIG, s, ExpireRun(serial));
            && t.drain == Parking(5000, FirstMint(serial), false, [], [])
            && t.tasks == map[0 := Awaiting([FirstMint(serial)])] && FirstMint(serial).Field() in t.chain
  {
    var run, p := ExpireRun(serial), FirstMint(serial);
    ExecAppend(RACE_CONFIG, s, [run[0], run[1]], [run[2]]);
    ExecTwo(RACE_CONFIG, s, run[0], run[1]);
    var s1 := Do(RACE_CONFIG, s, run[0]);
    assert s1.outbox[p.Field()] == p && ListsOutbox(s1.outbox, [p]);
    var s2 := Exec(RACE_CONFIG, s, [run[0], run[1]]);
    assert s2.drain == Draining(5000, [p], []);
    ExecOne(RACE_CONFIG, s2, run[2]);
    assert [p][1..] == [];
  }

  /** From first boot to a state in which both are under way for the key. */
  function RaceRun(serial: string): seq<Step> {
    BinRun(serial) + PublishRun() + ExpireRun(serial)
  }

  /**
   The comments' claim fails on a run from first boot: it ends with a confirmed mint in the parked
   hash. Had the two come in the other order, nothing would be left.
   */
  lemma ConfirmedMintStaysParked(serial: string)
    ensures var k := FirstMint(serial).Field();
            var t := Exec(RACE_CONFIG, FIRST_BOOT, RaceRun(serial) + (ConfirmRun(0, k) + PARK_RUN));
            k in t.chain && k !in t.outbox && k in t.parked
    ensures var k := FirstMint(serial).Field();
            var t := Exec(RACE_CONFIG, FIRST_BOOT, RaceRun(serial) + (PARK_RUN + ConfirmRun(0, k)));
            k in t.chain && k !in t.outbox && k !in t.parked
  {
    var c, p := RACE_CONFIG, FirstMint(serial);
    BinRuns(serial);
    var s1 := Exec(c, FIRST_BOOT, BinRun(serial));
    PublishRuns(s1, p);
    ExecAppend(c, FIRST_BOOT, BinRun(serial), PublishRun());
    var s2 := Exec(c, s1, PublishRun());
    ExpireRuns(serial, s2);
    ExecAppend(c, FIRST_BOOT, BinRun(serial) + PublishRun(), ExpireRun(serial));
    RaceLeavesParkedCopy(c, Exec(c, FIRST_BOOT, RaceRun(serial)), 0);
    ExecAppend(c, FIRST_BOOT, RaceRun(serial), ConfirmRun(0, p.Field()) + PARK_RUN);
    ExecAppend(c, FIRST_BOOT, RaceRun(serial), PARK_RUN + ConfirmRun(0, p.Field()));
  }
}
