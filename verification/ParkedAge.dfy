/** Only mints that outlived the age limit are parked: each parked entry goes back to a tick of the run. */
module ParkedAge {
  import opened Ints
  import opened Settlement

  /**
   The age limit on all 64-bit values. No limit for 0; a limit that overflows in milliseconds never expires;
   otherwise the exact age decides, however far apart the clocks are. A limit of 2^63 seconds or more wraps
   to a negative one, so that even a fresh entry is past it.
   */
  lemma ExpiredIff(p: PendingMint, nowMs: int, maxAgeSecs: nat)
    requires IsI64(nowMs) && IsI64(p.enqueuedAt) && maxAgeSecs < 0x1_0000_0000_0000_0000
    ensures maxAgeSecs == 0 ==> !IsExpired(p, nowMs, maxAgeSecs)
    ensures 0 < maxAgeSecs && maxAgeSecs * 1000 < I64_MAX ==>
      (IsExpired(p, nowMs, maxAgeSecs) <==> nowMs - p.enqueuedAt > maxAgeSecs * 1000)
    ensures maxAgeSecs <= I64_MAX <= maxAgeSecs * 1000 ==> !IsExpired(p, nowMs, maxAgeSecs)
    ensures maxAgeSecs > I64_MAX && nowMs >= p.enqueuedAt ==> IsExpired(p, nowMs, maxAgeSecs)
  {
  }

  /** Step `i` of the run is a drain tick at clock `nowMs` that takes place and lists `p` from the outbox. */
  ghost predicate TickLists(c: Config, s: Sys, run: seq<Step>, i: int, nowMs: int, p: PendingMint) {
    && 0 <= i < |run| && run[i].DrainStep? && run[i].drain.Tick? && Enabled(c, Exec(c, s, run[..i]), run[i])
    && run[i].drain.nowMs == nowMs && p in run[i].drain.entries
  }

  /** Some tick of the run listed `p` when it had outlived the limit. */
  ghost predicate Outlived(c: Config, s: Sys, run: seq<Step>, p: PendingMint) {
    exists i, nowMs :: TickLists(c, s, run, i, nowMs, p) && IsExpired(p, nowMs, c.maxAgeSecs)
  }

  ghost predicate ParkedOutlived(c: Config, s: Sys, run: seq<Step>, parked: map<MintKey, PendingMint>) {
    forall k :: k in parked ==>
      || (k in s.parked && s.parked[k] == parked[k])
      || (parked[k].Field() == k && Outlived(c, s, run, parked[k]))
  }

  /** All of `ps` were listed by one tick at clock `nowMs`. */
  ghost predicate FromTick(c: Config, s: Sys, run: seq<Step>, i: int, nowMs: int, ps: seq<PendingMint>) {
    0 <= i < |run| && forall j :: 0 <= j < |ps| ==> TickLists(c, s, run, i, nowMs, ps[j])
  }

  /** What the drain loop still has to look at comes from a tick, and what it parks was expired at it. */
  ghost predicate DrainFromTick(c: Config, s: Sys, run: seq<Step>, d: Drain) {
    match d
    case DrainIdle => true
    case Draining(nowMs, todo, _) => exists i :: FromTick(c, s, run, i, nowMs, todo)
    case Parking(nowMs, cur, _, todo, _) =>
      Outlived(c, s, run, cur) && exists i :: FromTick(c, s, run, i, nowMs, todo)
  }

  ghost predicate Inv(c: Config, s: Sys, run: seq<Step>, t: Sys) {
    ParkedOutlived(c, s, run, t.parked) && DrainFromTick(c, s, run, t.drain)
  }

  // ----- a longer run keeps what a tick listed -----

  lemma TickStays(c: Config, s: Sys, run: seq<Step>, st: Step, i: int, nowMs: int, p: PendingMint)
    requires TickLists(c, s, run, i, nowMs, p)
    ensures TickLists(c, s, run + [st], i, nowMs, p)
  {
    assert (run + [st])[..i] == run[..i];
  }

  lemma OutlivedStays(c: Config, s: Sys, run: seq<Step>, st: Step, p: PendingMint)
    requires Outlived(c, s, run, p)
    ensures Outlived(c, s, run + [st], p)
  {
    var i, nowMs :| TickLists(c, s, run, i, nowMs, p) && IsExpired(p, nowMs, c.maxAgeSecs);
    TickStays(c, s, run, st, i, nowMs, p);
  }

  lemma FromTickStays(c: Config, s: Sys, run: seq<Step>, st: Step, i: int, nowMs: int, ps: seq<PendingMint>)
    requires FromTick(c, s, run, i, nowMs, ps)
    ensures FromTick(c, s, run + [st], i, nowMs, ps)
  {
    forall j | 0 <= j < |ps| ensures TickLists(c, s, run + [st], i, nowMs, ps[j]) {
      TickStays(c, s, run, st, i, nowMs, ps[j]);
    }
  }

  lemma InvStays(c: Config, s: Sys, run: seq<Step>, st: Step, t: Sys)
    requires Inv(c, s, run, t)
    ensures Inv(c, s, run + [st], t)
  {
    forall k | k in t.parked && Outlived(c, s, run, t.parked[k]) ensures Outlived(c, s, run + [st], t.parked[k]) {
      OutlivedStays(c, s, run, st, t.parked[k]);
    }
    if t.drain.Draining? || t.drain.Parking? {
      var i :| FromTick(c, s, run, i, t.drain.nowMs, t.drain.todo);
      FromTickStays(c, s, run, st, i, t.drain.nowMs, t.drain.todo);
    }
    if t.drain.Parking? { OutlivedStays(c, s, run, st, t.drain.cur); }
  }

  // ----- the drain steps -----

  lemma TickKeeps(c: Config, s: Sys, run: seq<Step>, t: Sys, nowMs: int, entries: seq<PendingMint>)
    requires run != [] && run[|run| - 1] == DrainStep(Tick(nowMs, entries)) && t == Exec(c, s, run[..|run| - 1])
    requires Enabled(c, t, run[|run| - 1])
    ensures DrainFromTick(c, s, run, Draining(nowMs, entries, []))
  {
    assert FromTick(c, s, run, |run| - 1, nowMs, entries);
  }

  lemma PickKeeps(c: Config, s: Sys, run: seq<Step>, t: Sys)
    requires Inv(c, s, run, t) && t.drain.Draining? && t.drain.todo != []
    ensures Inv(c, s, run, FirePick(c, t))
  {
    var d := t.drain;
    var i :| FromTick(c, s, run, i, d.nowMs, d.todo);
    assert TickLists(c, s, run, i, d.nowMs, d.todo[0]);
    assert FromTick(c, s, run, i, d.nowMs, d.todo[1..]);
    if IsExpired(d.todo[0], d.nowMs, c.maxAgeSecs) { assert Outlived(c, s, run, d.todo[0]); }
  }

  lemma ParkKeeps(c: Config, s: Sys, run: seq<Step>, t: Sys, reply: Reply)
    requires Inv(c, s, run, t) && t.drain.Parking?
    ensures Inv(c, s, run, FireParkStore(t, reply)) && Inv(c, s, run, FireParkDelete(t, reply))
  {
  }

  lemma SpawnKeeps(c: Config, s: Sys, run: seq<Step>, t: Sys, id: nat, size: nat)
    requires Inv(c, s, run, t) && t.drain.Draining?
    ensures Inv(c, s, run, FireSpawn(t, id, size))
  {
  }

  lemma DrainKeeps(c: Config, s: Sys, run: seq<Step>, t: Sys, a: DrainAction)
    requires run != [] && run[|run| - 1] == DrainStep(a) && t == Exec(c, s, run[..|run| - 1])
    requires Inv(c, s, run, t) && DrainEnabled(t, a)
    ensures Inv(c, s, run, FireDrain(c, t, a))
  {
    match a
    case Tick(nowMs, entries) => TickKeeps(c, s, run, t, nowMs, entries);
    case Pick => PickKeeps(c, s, run, t);
    case ParkStore(reply) => ParkKeeps(c, s, run, t, reply);
    case ParkDelete(reply) => ParkKeeps(c, s, run, t, reply);
    case Spawn(id, size) => SpawnKeeps(c, s, run, t, id, size);
  }

  /** A step outside the drain loop adds nothing to the parked hash, and leaves the loop or restarts it. */
  lemma OtherSteps(c: Config, t: Sys, st: Step)
    requires !st.DrainStep?
    ensures var u := Do(c, t, st);
            && (u.drain == t.drain || u.drain == DrainIdle)
            && forall k :: k in u.parked ==> k in t.parked && u.parked[k] == t.parked[k]
  {
    if st.TaskStep? && Enabled(c, t, st) { TaskSteps(t, st.id, st.task); }
  }

  lemma TaskSteps(t: Sys, id: nat, a: TaskAction)
    requires TaskEnabled(t, id, a)
    ensures var u := FireTask(t, id, a);
            u.drain == t.drain && forall k :: k in u.parked ==> k in t.parked && u.parked[k] == t.parked[k]
  {
    match a
    case Remove(_) =>
    case _ =>
  }

  /**
   Over every run from a restart, a parked mint was parked before, or a tick of this run listed it
   from the outbox at a clock by which it had outlived the limit; with limit 0 nothing is parked anew.
   */
  lemma {:induction false} ParkedOutlivedLimit(c: Config, s: Sys, run: seq<Step>)
    requires s.drain == DrainIdle
    ensures Inv(c, s, run, Exec(c, s, run))
    ensures c.maxAgeSecs == 0 ==> forall k :: k in Exec(c, s, run).parked ==> k in s.parked
  {
    if run != [] {
      var pre, st := run[..|run| - 1], run[|run| - 1];
      var t := Exec(c, s, pre);
      ParkedOutlivedLimit(c, s, pre);
      InvStays(c, s, pre, st, t);
      assert pre + [st] == run;
      if !st.DrainStep? {
        OtherSteps(c, t, st);
      } else if Enabled(c, t, st) {
        DrainKeeps(c, s, run, t, st.drain);
      }
    }
  }
}
