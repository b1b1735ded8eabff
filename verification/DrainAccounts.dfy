/**
 The drain loop leaves nothing out: between a tick and its return to idle, every listed entry is either
 taken into parking, because it had outlived the limit, or handed to exactly one mint task, in order.
 */
module DrainAccounts {
  import opened Settlement

  // ----- the two fates of a listed entry -----

  type Choice = PendingMint -> bool

  /** The entries that satisfy the choice, in order. */
  function Those(ps: seq<PendingMint>, f: Choice): seq<PendingMint> {
    if ps == [] then []
    else Those(ps[..|ps| - 1], f) + if f(ps[|ps| - 1]) then [ps[|ps| - 1]] else []
  }

  /** Past the limit at the tick's clock. */
  function IsOld(nowMs: int, maxAgeSecs: nat): Choice {
    p => IsExpired(p, nowMs, maxAgeSecs)
  }

  function IsYoung(nowMs: int, maxAgeSecs: nat): Choice {
    p => !IsExpired(p, nowMs, maxAgeSecs)
  }

  lemma {:induction false} ThoseHold(ps: seq<PendingMint>, f: Choice)
    ensures forall p :: p in Those(ps, f) <==> p in ps && f(p)
  {
    if ps != [] {
      var pre, p := ps[..|ps| - 1], ps[|ps| - 1];
      ThoseHold(pre, f);
      assert forall q :: q in ps <==> q in pre || q == p;
    }
  }

  lemma OneMore<T>(a: seq<T>, b: seq<T>, c: seq<T>, x: T, first: bool)
    requires multiset(a) + multiset(b) == multiset(c)
    ensures multiset(if first then a + [x] else a) + multiset(if first then b else b + [x]) == multiset(c + [x])
  {
    assert multiset(a + [x]) == multiset(a) + multiset{x};
    assert multiset(b + [x]) == multiset(b) + multiset{x};
    assert multiset(c + [x]) == multiset(c) + multiset{x};
  }

  lemma ThoseLast(ps: seq<PendingMint>, f: Choice)
    requires ps != []
    ensures var pre, p := ps[..|ps| - 1], ps[|ps| - 1];
            Those(ps, f) == if f(p) then Those(pre, f) + [p] else Those(pre, f)
  {
  }

  lemma {:induction false} EachIsOneOfTwo(ps: seq<PendingMint>, f: Choice, g: Choice)
    requires forall i :: 0 <= i < |ps| ==> (f(ps[i]) <==> !g(ps[i]))
    ensures multiset(Those(ps, f)) + multiset(Those(ps, g)) == multiset(ps)
  {
    if ps != [] {
      var pre, p := ps[..|ps| - 1], ps[|ps| - 1];
      EachIsOneOfTwo(pre, f, g);
      ThoseLast(ps, f);
      ThoseLast(ps, g);
      OneMore(Those(pre, f), Those(pre, g), pre, p, f(p));
      assert ps == pre + [p];
    }
  }

  lemma ThoseSnoc(ps: seq<PendingMint>, n: nat, f: Choice)
    requires n < |ps|
    ensures Those(ps[..n + 1], f) == if f(ps[n]) then Those(ps[..n], f) + [ps[n]] else Those(ps[..n], f)
  {
    assert ps[..n + 1][..n] == ps[..n];
  }

  // ----- what the run shows -----

  /** The entries of the task that a step of the drain loop starts. */
  ghost function Started(c: Config, t: Sys, st: Step): seq<PendingMint> {
    if st.DrainStep? && st.drain.Spawn? && Enabled(c, t, st) && st.drain.id in Do(c, t, st).tasks
       && Do(c, t, st).tasks[st.drain.id].Claiming?
    then Do(c, t, st).tasks[st.drain.id].todo else []
  }

  /** The entry that a step takes into parking. */
  ghost function TakenIn(c: Config, t: Sys, st: Step): seq<PendingMint> {
    if st.DrainStep? && Do(c, t, st).drain.Parking? && !t.drain.Parking? then [Do(c, t, st).drain.cur] else []
  }

  /** All entries of tasks started after step `i`, task after task. */
  ghost function Spawned(c: Config, s: Sys, run: seq<Step>, i: nat): seq<PendingMint> {
    if |run| <= i + 1 then []
    else Spawned(c, s, run[..|run| - 1], i) + Started(c, Exec(c, s, run[..|run| - 1]), run[|run| - 1])
  }

  /** All entries taken into parking after step `i`. */
  ghost function Retired(c: Config, s: Sys, run: seq<Step>, i: nat): seq<PendingMint> {
    if |run| <= i + 1 then []
    else Retired(c, s, run[..|run| - 1], i) + TakenIn(c, Exec(c, s, run[..|run| - 1]), run[|run| - 1])
  }

  ghost predicate TicksAt(c: Config, s: Sys, run: seq<Step>, i: int) {
    0 <= i < |run| && run[i].DrainStep? && run[i].drain.Tick? && Enabled(c, Exec(c, s, run[..i]), run[i])
  }

  /** Step `i` is a tick that takes place, and since then there was neither a crash nor another tick. */
  ghost predicate LastTick(c: Config, s: Sys, run: seq<Step>, i: int) {
    TicksAt(c, s, run, i) && forall m :: i < m < |run| ==> !run[m].Crash? && !TicksAt(c, s, run, m)
  }

  // ----- the balance, on values -----

  function Todo(d: Drain): seq<PendingMint> {
    if d.DrainIdle? then [] else d.todo
  }

  function ToMint(d: Drain): seq<PendingMint> {
    if d.DrainIdle? then [] else d.toMint
  }

  /** What is done is started, waiting to start, or retired; what is left is the rest of the listing. */
  ghost predicate Balanced(young: Choice, old': Choice, entries: seq<PendingMint>, d: Drain,
                           spawned: seq<PendingMint>, retired: seq<PendingMint>)
  {
    var n := |entries| - |Todo(d)|;
    && 0 <= n && entries[n..] == Todo(d)
    && Those(entries[..n], young) == spawned + ToMint(d)
    && Those(entries[..n], old') == retired
  }

  lemma PickBalances(young: Choice, old': Choice, entries: seq<PendingMint>, d: Drain, d': Drain,
                     spawned: seq<PendingMint>, retired: seq<PendingMint>)
    requires Balanced(young, old', entries, d, spawned, retired) && d.Draining? && d.todo != []
    requires young(d.todo[0]) <==> !old'(d.todo[0])
    requires d' == if old'(d.todo[0]) then Parking(d.nowMs, d.todo[0], false, d.todo[1..], d.toMint)
                   else Draining(d.nowMs, d.todo[1..], d.toMint + [d.todo[0]])
    ensures Balanced(young, old', entries, d', spawned, retired + if d'.Parking? then [d.todo[0]] else [])
  {
    var n := |entries| - |d.todo|;
    assert entries[n] == d.todo[0] && entries[n + 1..] == d.todo[1..];
    ThoseSnoc(entries, n, young);
    ThoseSnoc(entries, n, old');
    assert retired + [] == retired;
  }

  lemma SpawnBalances(young: Choice, old': Choice, entries: seq<PendingMint>, d: Drain, d': Drain, n: nat,
                      spawned: seq<PendingMint>, retired: seq<PendingMint>)
    requires Balanced(young, old', entries, d, spawned, retired) && d.Draining? && n <= |d.toMint|
    requires d' == Draining(d.nowMs, d.todo, d.toMint[n..])
    ensures Balanced(young, old', entries, d', spawned + d.toMint[..n], retired)
  {
    Regroup(spawned, d.toMint, n);
  }

  lemma Regroup(a: seq<PendingMint>, b: seq<PendingMint>, n: nat)
    requires n <= |b|
    ensures a + b == (a + b[..n]) + b[n..]
  {
  }

  // ----- the steps -----

  /** The loop works on the listing of a tick at clock `nowMs`. */
  ghost predicate OnListing(c: Config, nowMs: int, entries: seq<PendingMint>, d: Drain,
                            spawned: seq<PendingMint>, retired: seq<PendingMint>)
  {
    && (!d.DrainIdle? ==> d.nowMs == nowMs)
    && Balanced(IsYoung(nowMs, c.maxAgeSecs), IsOld(nowMs, c.maxAgeSecs), entries, d, spawned, retired)
  }

  lemma PickEffect(c: Config, t: Sys)
    requires Enabled(c, t, DrainStep(Pick))
    ensures var d, p := t.drain, t.drain.todo[0];
            var u := Do(c, t, DrainStep(Pick));
            && u.drain == (if IsExpired(p, d.nowMs, c.maxAgeSecs)
                           then Parking(d.nowMs, p, false, d.todo[1..], d.toMint)
                           else Draining(d.nowMs, d.todo[1..], d.toMint + [p]))
            && Started(c, t, DrainStep(Pick)) == []
            && TakenIn(c, t, DrainStep(Pick)) == if u.drain.Parking? then [p] else []
  {
  }

  lemma SpawnEffect(c: Config, t: Sys, id: nat, size: nat)
    requires Enabled(c, t, DrainStep(Spawn(id, size)))
    ensures var d, st := t.drain, DrainStep(Spawn(id, size));
            var n := if size < |d.toMint| then size else |d.toMint|;
            && Do(c, t, st).drain
               == (if d.toMint == [] then DrainIdle else Draining(d.nowMs, d.todo, d.toMint[n..]))
            && Started(c, t, st) == d.toMint[..n] && TakenIn(c, t, st) == []
  {
  }

  lemma ParkEffect(c: Config, t: Sys, st: Step)
    requires Enabled(c, t, st) && st.DrainStep? && (st.drain.ParkStore? || st.drain.ParkDelete?)
    ensures var d, d' := t.drain, Do(c, t, st).drain;
            !d'.DrainIdle? && d'.nowMs == d.nowMs && d'.todo == d.todo && d'.toMint == d.toMint
    ensures Started(c, t, st) == [] && TakenIn(c, t, st) == []
  {
  }

  lemma QuietStep(c: Config, t: Sys, st: Step)
    requires !st.Crash? && !(Enabled(c, t, st) && st.DrainStep?)
    ensures Do(c, t, st).drain == t.drain && Started(c, t, st) == [] && TakenIn(c, t, st) == []
  {
  }

  lemma PickStep(c: Config, t: Sys, nowMs: int, entries: seq<PendingMint>, spawned: seq<PendingMint>,
                 retired: seq<PendingMint>)
    requires OnListing(c, nowMs, entries, t.drain, spawned, retired) && Enabled(c, t, DrainStep(Pick))
    ensures OnListing(c, nowMs, entries, Do(c, t, DrainStep(Pick)).drain, spawned,
                      retired + TakenIn(c, t, DrainStep(Pick)))
  {
    PickEffect(c, t);
    PickBalances(IsYoung(nowMs, c.maxAgeSecs), IsOld(nowMs, c.maxAgeSecs), entries, t.drain,
                 Do(c, t, DrainStep(Pick)).drain, spawned, retired);
  }

  lemma SpawnStep(c: Config, t: Sys, id: nat, size: nat, nowMs: int, entries: seq<PendingMint>,
                  spawned: seq<PendingMint>, retired: seq<PendingMint>)
    requires OnListing(c, nowMs, entries, t.drain, spawned, retired)
    requires Enabled(c, t, DrainStep(Spawn(id, size)))
    ensures var st := DrainStep(Spawn(id, size));
            OnListing(c, nowMs, entries, Do(c, t, st).drain, spawned + Started(c, t, st), retired)
  {
    var d := t.drain;
    SpawnEffect(c, t, id, size);
    if d.toMint != [] {
      SpawnBalances(IsYoung(nowMs, c.maxAgeSecs), IsOld(nowMs, c.maxAgeSecs), entries, d,
                    Do(c, t, DrainStep(Spawn(id, size))).drain, if size < |d.toMint| then size else |d.toMint|,
                    spawned, retired);
    }
  }

  /** A step other than a tick or a crash moves the loop along its listing. */
  lemma StepBalances(c: Config, t: Sys, st: Step, nowMs: int, entries: seq<PendingMint>, spawned: seq<PendingMint>,
                     retired: seq<PendingMint>)
    requires OnListing(c, nowMs, entries, t.drain, spawned, retired)
    requires !st.Crash? && !(Enabled(c, t, st) && st.DrainStep? && st.drain.Tick?)
    ensures OnListing(c, nowMs, entries, Do(c, t, st).drain, spawned + Started(c, t, st),
                      retired + TakenIn(c, t, st))
  {
    assert spawned + [] == spawned && retired + [] == retired;
    if !(Enabled(c, t, st) && st.DrainStep?) {
      QuietStep(c, t, st);
    } else if st.drain.Pick? {
      PickEffect(c, t);
      PickStep(c, t, nowMs, entries, spawned, retired);
    } else if st.drain.Spawn? {
      SpawnEffect(c, t, st.drain.id, st.drain.size);
      SpawnStep(c, t, st.drain.id, st.drain.size, nowMs, entries, spawned, retired);
    } else {
      ParkEffect(c, t, st);
    }
  }

  lemma TickPrefix(c: Config, s: Sys, run: seq<Step>, i: nat)
    requires LastTick(c, s, run, i) && i < |run| - 1
    ensures LastTick(c, s, run[..|run| - 1], i)
    ensures !run[|run| - 1].Crash? && !TicksAt(c, s, run, |run| - 1)
  {
    var pre := run[..|run| - 1];
    assert pre[..i] == run[..i];
    forall m | i < m < |pre| ensures !pre[m].Crash? && !TicksAt(c, s, pre, m) {
      assert pre[..m] == run[..m];
      assert !TicksAt(c, s, run, m);
    }
  }

  lemma TickStarts(c: Config, s: Sys, run: seq<Step>, i: nat)
    requires TicksAt(c, s, run, i) && i == |run| - 1
    ensures OnListing(c, run[i].drain.nowMs, run[i].drain.entries, Exec(c, s, run).drain, [], [])
  {
    TickEffect(c, Exec(c, s, run[..i]), run[i]);
    StartBalances(IsYoung(run[i].drain.nowMs, c.maxAgeSecs), IsOld(run[i].drain.nowMs, c.maxAgeSecs),
                  run[i].drain.nowMs, run[i].drain.entries);
  }

  lemma TickEffect(c: Config, t: Sys, st: Step)
    requires Enabled(c, t, st) && st.DrainStep? && st.drain.Tick?
    ensures Do(c, t, st).drain == Draining(st.drain.nowMs, st.drain.entries, [])
  {
  }

  lemma StartBalances(young: Choice, old': Choice, nowMs: int, entries: seq<PendingMint>)
    ensures Balanced(young, old', entries, Draining(nowMs, entries, []), [], [])
  {
    assert entries[..0] == [];
  }

  lemma {:induction false} RunBalances(c: Config, s: Sys, run: seq<Step>, i: nat)
    requires LastTick(c, s, run, i)
    ensures OnListing(c, run[i].drain.nowMs, run[i].drain.entries, Exec(c, s, run).drain,
                      Spawned(c, s, run, i), Retired(c, s, run, i))
    decreases |run|
  {
    var n := |run| - 1;
    if n == i {
      TickStarts(c, s, run, i);
    } else {
      TickPrefix(c, s, run, i);
      RunBalances(c, s, run[..n], i);
      StepBalances(c, Exec(c, s, run[..n]), run[n], run[i].drain.nowMs, run[i].drain.entries,
                   Spawned(c, s, run[..n], i), Retired(c, s, run[..n], i));
    }
  }

  /**
   Over every run: when the loop is idle again after a tick, without a crash, the tasks started since hold
   exactly the listed entries within the limit, each once and in order, and exactly the others were taken
   into parking. No entry of the tick is left out.
   */
  lemma TickServesAll(c: Config, s: Sys, run: seq<Step>, i: nat)
    requires LastTick(c, s, run, i) && Exec(c, s, run).drain == DrainIdle
    ensures var nowMs, entries := run[i].drain.nowMs, run[i].drain.entries;
            var spawned, retired := Spawned(c, s, run, i), Retired(c, s, run, i);
            && spawned == Those(entries, IsYoung(nowMs, c.maxAgeSecs))
            && retired == Those(entries, IsOld(nowMs, c.maxAgeSecs))
            && multiset(spawned) + multiset(retired) == multiset(entries)
            && (forall p :: p in spawned <==> p in entries && !IsExpired(p, nowMs, c.maxAgeSecs))
            && (forall p :: p in retired <==> p in entries && IsExpired(p, nowMs, c.maxAgeSecs))
  {
    var nowMs, entries := run[i].drain.nowMs, run[i].drain.entries;
    var young, old' := IsYoung(nowMs, c.maxAgeSecs), IsOld(nowMs, c.maxAgeSecs);
    RunBalances(c, s, run, i);
    assert entries[..|entries|] == entries;
    EachIsOneOfTwo(entries, young, old');
    ThoseHold(entries, young);
    ThoseHold(entries, old');
  }

  /** A task of the loop starts with one to `size` entries, and holds nothing yet. */
  lemma BatchIsBounded(c: Config, t: Sys, id: nat, size: nat)
    requires Enabled(c, t, DrainStep(Spawn(id, size)))
    ensures var u := Do(c, t, DrainStep(Spawn(id, size)));
            id in u.tasks ==>
              && u.tasks[id].Claiming? && 0 < |u.tasks[id].todo| <= size
              && u.tasks[id].held == [] && u.tasks[id].resolving.None?
  {
  }
}
