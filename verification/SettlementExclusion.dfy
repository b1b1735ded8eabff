/** At most one outstanding mint publish per key, and an in-flight set that equals the live guards. */
module SettlementExclusion {
  import opened Wrappers
  import opened Windows
  import opened Billing
  import opened Settlement

  /** Who can hold an in-flight guard: the sweep's direct attempt, or a mint task. */
  datatype Holder = Direct | ByTask(id: nat)

  type Guards = map<Holder, seq<MintKey>>

  function SweepGuards(w: Sweep): seq<MintKey> {
    if w.Sweeping? && (w.phase.DirectResolve? || w.phase.DirectAwait?) then [w.phase.p.Field()] else []
  }

  ghost function HeldBy(tasks: map<nat, Task>, direct: seq<MintKey>): (m: Guards)
    ensures Direct in m && m[Direct] == direct
    ensures forall id {:trigger ByTask(id)} :: ByTask(id) in m <==> id in tasks
    ensures forall id {:trigger ByTask(id)} :: id in tasks ==> m[ByTask(id)] == TaskGuards(tasks[id])
  {
    (map h | h in (set id | id in tasks :: ByTask(id)) :: TaskGuards(tasks[h.id]))[Direct := direct]
  }

  /** The live guards of a state, holder by holder. */
  ghost function Held(s: Sys): Guards {
    HeldBy(s.tasks, SweepGuards(s.sweep))
  }

  // ----- the in-flight set, apart from the pipeline -----

  ghost predicate NoDup(ks: seq<MintKey>) {
    forall i, j :: 0 <= i < j < |ks| ==> ks[i] != ks[j]
  }

  ghost predicate Apart(a: seq<MintKey>, b: seq<MintKey>) {
    forall k :: k in a ==> k !in b
  }

  ghost predicate Within(a: seq<MintKey>, f: set<MintKey>) {
    forall k :: k in a ==> k in f
  }

  ghost predicate HeldBySome(m: Guards, k: MintKey) {
    exists h :: h in m && k in m[h]
  }

  /** No key is guarded twice, and the set is exactly the guarded keys. */
  ghost predicate Exclusive(m: Guards, f: set<MintKey>) {
    && (forall h :: h in m ==> NoDup(m[h]) && Within(m[h], f))
    && (forall g, h :: g in m && h in m && g != h ==> Apart(m[g], m[h]))
    && (forall k :: k in f ==> HeldBySome(m, k))
  }

  /** A successful `try_begin`: the key was free and gets one guard. */
  lemma Begin(m: Guards, f: set<MintKey>, h: Holder, k: MintKey)
    requires Exclusive(m, f) && h in m && k !in f
    ensures Exclusive(m[h := m[h] + [k]], f + {k})
  {
    var m' := m[h := m[h] + [k]];
    forall x | x in f + {k} ensures HeldBySome(m', x) {
      if x == k { assert x in m'[h]; }
      else {
        assert HeldBySome(m, x);
        var g :| g in m && x in m[g];
        assert x in m'[g];
      }
    }
    forall g | g in m' ensures NoDup(m'[g]) && Within(m'[g], f + {k}) {
      assert NoDup(m[g]) && Within(m[g], f);
    }
    forall g, g' | g in m' && g' in m' && g != g' ensures Apart(m'[g], m'[g']) {
      assert Apart(m[g], m[g']) && Within(m[g], f) && Within(m[g'], f);
    }
  }

  /** Dropping guards: a holder keeps the first `n` of them and the rest leave the set. */
  lemma Drop(m: Guards, f: set<MintKey>, h: Holder, n: nat)
    requires Exclusive(m, f) && h in m && n <= |m[h]|
    ensures Exclusive(m[h := m[h][..n]], f - SetOf(m[h][n..]))
  {
    var m', f' := m[h := m[h][..n]], f - SetOf(m[h][n..]);
    assert NoDup(m[h]);
    forall g | g in m' ensures NoDup(m'[g]) && Within(m'[g], f') {
      assert NoDup(m[g]) && Within(m[g], f);
      if g == h { PrefixApart(m[h], n); } else { assert Apart(m[g], m[h]); }
    }
    forall g, g' | g in m' && g' in m' && g != g' ensures Apart(m'[g], m'[g']) {
      assert Apart(m[g], m[g']);
    }
    forall k | k in f' ensures HeldBySome(m', k) {
      assert HeldBySome(m, k);
      var g :| g in m && k in m[g];
      if g == h { assert m[h] == m[h][..n] + m[h][n..]; }
      assert k in m'[g];
    }
  }

  lemma PrefixApart(ks: seq<MintKey>, n: nat)
    requires NoDup(ks) && n <= |ks|
    ensures NoDup(ks[..n]) && Apart(ks[..n], ks[n..])
  {
  }

  /** A holder without guards may come and go. */
  lemma Idle(m: Guards, f: set<MintKey>, h: Holder)
    requires Exclusive(m, f)
    requires h in m ==> m[h] == []
    ensures Exclusive(m[h := []], f) && Exclusive(m - {h}, f)
  {
    forall k | k in f ensures HeldBySome(m[h := []], k) && HeldBySome(m - {h}, k) {
      assert HeldBySome(m, k);
      var g :| g in m && k in m[g];
      assert g in m - {h} && k in (m - {h})[g] && k in m[h := []][g];
    }
  }

  // ----- steps -----

  ghost predicate Excl(s: Sys) {
    Exclusive(Held(s), s.inFlight)
  }

  lemma SetTaskHeld(tasks: map<nat, Task>, direct: seq<MintKey>, id: nat, task: Task)
    ensures HeldBy(tasks[id := task], direct) == HeldBy(tasks, direct)[ByTask(id) := TaskGuards(task)]
  {
    var l, r := HeldBy(tasks[id := task], direct), HeldBy(tasks, direct)[ByTask(id) := TaskGuards(task)];
    forall h ensures h in l <==> h in r { if h.ByTask? { assert h == ByTask(h.id); } }
    forall h | h in l ensures l[h] == r[h] { if h.ByTask? { assert h == ByTask(h.id); } }
  }

  lemma EndTaskHeld(tasks: map<nat, Task>, direct: seq<MintKey>, id: nat)
    ensures HeldBy(tasks - {id}, direct) == HeldBy(tasks, direct) - {ByTask(id)}
  {
    var l, r := HeldBy(tasks - {id}, direct), HeldBy(tasks, direct) - {ByTask(id)};
    forall h ensures h in l <==> h in r { if h.ByTask? { assert h == ByTask(h.id); } }
    forall h | h in l ensures l[h] == r[h] { if h.ByTask? { assert h == ByTask(h.id); } }
  }

  lemma DirectHeld(tasks: map<nat, Task>, direct: seq<MintKey>, direct': seq<MintKey>)
    ensures HeldBy(tasks, direct') == HeldBy(tasks, direct)[Direct := direct']
  {
    var l, r := HeldBy(tasks, direct'), HeldBy(tasks, direct)[Direct := direct'];
    forall h ensures h in l <==> h in r { if h.ByTask? { assert h == ByTask(h.id); } }
    forall h | h in l ensures l[h] == r[h] { if h.ByTask? { assert h == ByTask(h.id); } }
  }

  /** Setting one task changes one entry; everything else that the guards depend on is the same. */
  lemma HeldSetTask(s: Sys, t: Sys, id: nat, task: Task)
    requires t.tasks == s.tasks[id := task] && SweepGuards(t.sweep) == SweepGuards(s.sweep)
    ensures Held(t) == Held(s)[ByTask(id) := TaskGuards(task)]
  {
    SetTaskHeld(s.tasks, SweepGuards(s.sweep), id, task);
  }

  lemma HeldEndTask(s: Sys, t: Sys, id: nat)
    requires t.tasks == s.tasks - {id} && t.sweep == s.sweep
    ensures Held(t) == Held(s) - {ByTask(id)}
  {
    EndTaskHeld(s.tasks, SweepGuards(s.sweep), id);
  }

  lemma HeldSweep(s: Sys, t: Sys)
    requires t.tasks == s.tasks
    ensures Held(t) == Held(s)[Direct := SweepGuards(t.sweep)]
  {
    DirectHeld(s.tasks, SweepGuards(s.sweep), SweepGuards(t.sweep));
  }

  lemma FieldsAppend(ps: seq<PendingMint>, p: PendingMint)
    ensures Fields(ps + [p]) == Fields(ps) + [p.Field()]
  {
  }

  /** The guards of a task that is still claiming. */
  lemma ClaimingHeld(s: Sys, id: nat)
    requires id in s.tasks && s.tasks[id].Claiming? && s.tasks[id].resolving.None?
    ensures ByTask(id) in Held(s) && Held(s)[ByTask(id)] == Fields(s.tasks[id].held) == TaskGuards(s.tasks[id])
  {
  }

  /** A task step after which the task holds what it held before. */
  lemma {:induction false} SameTaskExcludes(s: Sys, t: Sys, id: nat, task: Task)
    requires Excl(s) && id in s.tasks && t.tasks == s.tasks[id := task] && TaskGuards(task) == TaskGuards(s.tasks[id])
    requires t.inFlight == s.inFlight && t.sweep == s.sweep
    ensures Excl(t)
  {
    HeldSetTask(s, t, id, task);
    assert Held(s)[ByTask(id) := Held(s)[ByTask(id)]] == Held(s);
  }

  lemma {:induction false} ClaimExcludes(s: Sys, id: nat)
    requires Excl(s) && TaskEnabled(s, id, Claim)
    ensures Excl(FireClaim(s, id))
  {
    var t, k := FireClaim(s, id), s.tasks[id].todo[0].Field();
    ClaimingHeld(s, id);
    if k in s.inFlight {
      SameTaskExcludes(s, t, id, t.tasks[id]);
    } else {
      HeldSetTask(s, t, id, t.tasks[id]);
      Begin(Held(s), s.inFlight, ByTask(id), k);
    }
  }

  lemma {:induction false} ResolveExcludes(s: Sys, id: nat, walletOk: bool)
    requires Excl(s) && TaskEnabled(s, id, Resolve(walletOk))
    ensures Excl(FireResolve(s, id, walletOk))
  {
    var t, h := FireResolve(s, id, walletOk), ByTask(id);
    var held, p := s.tasks[id].held, s.tasks[id].resolving.value;
    HeldSetTask(s, t, id, t.tasks[id]);
    var m := Held(s);
    assert m[h] == Fields(held) + [p.Field()];
    if walletOk {
      FieldsAppend(held, p);
      assert TaskGuards(t.tasks[id]) == m[h];
      assert m[h := m[h]] == m;
    } else {
      assert m[h][|held|..] == [p.Field()];
      assert SetOf(m[h][|held|..]) == {p.Field()};
      assert TaskGuards(t.tasks[id]) == m[h][..|held|];
      Drop(m, s.inFlight, h, |held|);
    }
  }

  lemma {:induction false} PublishExcludes(s: Sys, id: nat)
    requires Excl(s) && TaskEnabled(s, id, Publish)
    ensures Excl(FirePublish(s, id))
  {
    var t := FirePublish(s, id);
    ClaimingHeld(s, id);
    if s.tasks[id].held == [] {
      HeldEndTask(s, t, id);
      Idle(Held(s), s.inFlight, ByTask(id));
    } else {
      SameTaskExcludes(s, t, id, t.tasks[id]);
    }
  }

  /** Replies, panics and early exits alike: every guard of the task goes. */
  lemma ReleaseAll(s: Sys, id: nat)
    requires Excl(s) && id in s.tasks
    ensures var f := s.inFlight - SetOf(TaskGuards(s.tasks[id]));
            Exclusive(Held(s)[ByTask(id) := []], f) && Exclusive(Held(s) - {ByTask(id)}, f)
  {
    var m, h := Held(s), ByTask(id);
    var f := s.inFlight - SetOf(TaskGuards(s.tasks[id]));
    assert m[h][0..] == m[h] == TaskGuards(s.tasks[id]);
    Drop(m, s.inFlight, h, 0);
    assert m[h][..0] == [];
    Idle(m[h := []], f, h);
    assert m[h := []] - {h} == m - {h};
  }

  lemma {:induction false} ReplyExcludes(s: Sys, id: nat, confirmed: seq<MintKey>)
    requires Excl(s) && id in s.tasks && s.tasks[id].Awaiting?
    ensures Excl(FireReply(s, id, confirmed))
  {
    ReleaseAll(s, id);
    HeldSetTask(s, FireReply(s, id, confirmed), id, Removing(confirmed, false));
  }

  lemma {:induction false} AbortExcludes(s: Sys, id: nat)
    requires Excl(s) && id in s.tasks
    ensures Excl(FireAbort(s, id))
  {
    ReleaseAll(s, id);
    HeldEndTask(s, FireAbort(s, id), id);
  }

  lemma {:induction false} RemoveExcludes(s: Sys, id: nat, reply: Reply)
    requires Excl(s) && id in s.tasks && s.tasks[id].Removing?
    ensures Excl(FireRemove(s, id, reply))
  {
    var t := FireRemove(s, id, reply);
    Idle(Held(s), s.inFlight, ByTask(id));
    if s.tasks[id].fields == [] {
      HeldEndTask(s, t, id);
    } else {
      HeldSetTask(s, t, id, t.tasks[id]);
    }
  }

  lemma {:induction false} TaskExcludes(s: Sys, id: nat, a: TaskAction)
    requires Excl(s) && TaskEnabled(s, id, a)
    ensures Excl(FireTask(s, id, a))
  {
    match a
    case Claim => ClaimExcludes(s, id);
    case Resolve(walletOk) => ResolveExcludes(s, id, walletOk);
    case Publish => PublishExcludes(s, id);
    case Reply(confirmed) => ReplyExcludes(s, id, confirmed);
    case Remove(reply) => RemoveExcludes(s, id, reply);
    case Abort => AbortExcludes(s, id);
  }

  lemma {:induction false} ClaimDirectExcludes(s: Sys)
    requires Excl(s) && s.sweep.Sweeping? && s.sweep.phase.DirectClaim?
    ensures Excl(FireDirectClaim(s))
  {
    var m, k, t := Held(s), s.sweep.phase.p.Field(), FireDirectClaim(s);
    HeldSweep(s, t);
    if k in s.inFlight {
      assert m[Direct := []] == m;
    } else {
      Begin(m, s.inFlight, Direct, k);
      assert m[Direct] + [k] == [k];
    }
  }

  lemma ReleaseDirect(s: Sys)
    requires Excl(s) && SweepGuards(s.sweep) != []
    ensures Exclusive(Held(s)[Direct := []], s.inFlight - {s.sweep.phase.p.Field()})
  {
    var m := Held(s);
    assert SetOf(m[Direct][0..]) == {s.sweep.phase.p.Field()};
    Drop(m, s.inFlight, Direct, 0);
    assert m[Direct][..0] == [];
  }

  lemma ResolveDirectExcludes(s: Sys, walletOk: bool)
    requires Excl(s) && s.sweep.Sweeping? && s.sweep.phase.DirectResolve?
    ensures Excl(FireDirectResolve(s, walletOk))
  {
    HeldSweep(s, FireDirectResolve(s, walletOk));
    if walletOk {
      assert Held(s)[Direct := Held(s)[Direct]] == Held(s);
    } else {
      ReleaseDirect(s);
    }
  }

  lemma ReplyDirectExcludes(s: Sys, success: bool)
    requires Excl(s) && s.sweep.Sweeping? && s.sweep.phase.DirectAwait?
    ensures Excl(FireDirectReply(s, success))
  {
    HeldSweep(s, FireDirectReply(s, success));
    ReleaseDirect(s);
  }

  /** A step that touches neither the tasks nor a direct guard. */
  lemma FrameExcludes(s: Sys, t: Sys)
    requires Excl(s) && t.tasks == s.tasks && t.inFlight == s.inFlight && SweepGuards(t.sweep) == SweepGuards(s.sweep)
    ensures Excl(t)
  {
  }

  /** Starting a task that holds nothing yet. */
  lemma {:induction false} SpawnExcludes(s: Sys, t: Sys, id: nat, todo: seq<PendingMint>)
    requires Excl(s) && id !in s.tasks && t.tasks == s.tasks[id := Claiming(todo, None, [])]
    requires t.inFlight == s.inFlight && SweepGuards(t.sweep) == SweepGuards(s.sweep)
    ensures Excl(t)
  {
    HeldSetTask(s, t, id, t.tasks[id]);
    Idle(Held(s), s.inFlight, ByTask(id));
  }

  lemma {:induction false} EnqueueExcludes(s: Sys, reply: Reply, id: nat)
    requires Excl(s) && s.sweep.Sweeping? && s.sweep.phase.Enqueueing? && id !in s.tasks
    ensures Excl(FireEnqueue(s, reply, id))
  {
    EnqueueEffect(s, reply, id);
    if reply.Ok? && !s.sweep.phase.retry {
      SpawnExcludes(s, FireEnqueue(s, reply, id), id, [s.sweep.phase.p]);
    } else {
      FrameExcludes(s, FireEnqueue(s, reply, id));
    }
  }

  lemma TakeExcludes(c: Config, s: Sys, now: Instant, order: seq<BillingBin>)
    requires Excl(s) && s.sweep.SweepIdle?
    ensures Excl(FireTake(c, s, now, order))
  {
    FrameExcludes(s, FireTake(c, s, now, order));
  }

  lemma PlanExcludes(c: Config, s: Sys, readModel: Lookup, sourceOfTruth: Lookup, nowMs: int)
    requires Excl(s) && s.sweep.Sweeping? && s.sweep.phase.Planning?
    ensures Excl(FirePlan(c, s, readModel, sourceOfTruth, nowMs))
  {
    FrameExcludes(s, FirePlan(c, s, readModel, sourceOfTruth, nowMs));
  }

  lemma EvictExcludes(c: Config, s: Sys, reply: Reply)
    requires Excl(s) && s.sweep.Sweeping? && s.sweep.phase.Evicting?
    ensures Excl(FireEvict(c, s, reply))
  {
    FrameExcludes(s, FireEvict(c, s, reply));
  }

  lemma {:induction false} SweepExcludes(c: Config, s: Sys, a: SweepAction)
    requires Excl(s) && SweepEnabled(c, s, a)
    ensures Excl(FireSweep(c, s, a))
  {
    match a
    case Take(now, order) => TakeExcludes(c, s, now, order);
    case Plan(readModel, sourceOfTruth, nowMs) => PlanExcludes(c, s, readModel, sourceOfTruth, nowMs);
    case Enqueue(reply, id) => EnqueueExcludes(s, reply, id);
    case ClaimDirect => ClaimDirectExcludes(s);
    case ResolveDirect(walletOk) => ResolveDirectExcludes(s, walletOk);
    case ReplyDirect(success) => ReplyDirectExcludes(s, success);
    case Evict(reply) => EvictExcludes(c, s, reply);
  }

  lemma {:induction false} DrainExcludes(c: Config, s: Sys, a: DrainAction)
    requires Excl(s) && DrainEnabled(s, a)
    ensures Excl(FireDrain(c, s, a))
  {
    var t := FireDrain(c, s, a);
    if a.Spawn? && s.drain.toMint != [] {
      SpawnExcludes(s, t, a.id, t.tasks[a.id].todo);
    } else {
      FrameExcludes(s, t);
    }
  }

  lemma RestartExcludes(s: Sys)
    ensures Excl(Restarted(s))
  {
    var m := Held(Restarted(s));
    assert forall h :: h in m ==> h == Direct && m[h] == [];
  }

  lemma {:induction false} StepExcludes(c: Config, s: Sys, st: Step)
    requires Excl(s)
    ensures Excl(Do(c, s, st))
  {
    if Enabled(c, s, st) {
      match st
      case SweepStep(a) => SweepExcludes(c, s, a);
      case TaskStep(id, a) => TaskExcludes(s, id, a);
      case DrainStep(a) => DrainExcludes(c, s, a);
      case Crash => RestartExcludes(s);
      case Ingest(r, now) => FrameExcludes(s, FireIngest(s, r, now));
      case WriteThrough(reply) => FrameExcludes(s, FireWrite(s, reply));
      case Land(p) => FrameExcludes(s, FireLand(s, p));
    }
  }

  // ----- whole runs -----

  lemma {:induction false} RunExcludes(c: Config, s: Sys, run: seq<Step>)
    requires Excl(s)
    ensures Excl(Exec(c, s, run))
  {
    if run != [] {
      RunExcludes(c, s, run[..|run| - 1]);
      StepExcludes(c, Exec(c, s, run[..|run| - 1]), run[|run| - 1]);
    }
  }

  /** The keys of published intents that a holder is waiting on. */
  function Outstanding(s: Sys, h: Holder): seq<MintKey> {
    match h
    case Direct => if s.sweep.Sweeping? && s.sweep.phase.DirectAwait? then [s.sweep.phase.p.Field()] else []
    case ByTask(id) => if id in s.tasks && s.tasks[id].Awaiting? then Fields(s.tasks[id].held) else []
  }

  lemma OutstandingIsHeld(s: Sys, h: Holder)
    requires Outstanding(s, h) != []
    ensures h in Held(s) && Held(s)[h] == Outstanding(s, h)
  {
    if h.ByTask? { assert h == ByTask(h.id); }
  }

  lemma OutstandingOnce(s: Sys, g: Holder, i: nat, h: Holder, j: nat)
    requires Excl(s)
    requires i < |Outstanding(s, g)| && j < |Outstanding(s, h)| && Outstanding(s, g)[i] == Outstanding(s, h)[j]
    ensures g == h && i == j
  {
    OutstandingIsHeld(s, g);
    OutstandingIsHeld(s, h);
    var m := Held(s);
    assert m[g][i] in m[g] && m[h][j] in m[h];
    if g == h { assert NoDup(m[g]); }
  }

  /**
   In-flight exclusion: at every point of every run after a restart, no two outstanding
   publishes carry the same key, whether they wait in one batch or in two holders.
   */
  lemma {:induction false} NoTwoOutstandingPublishes(c: Config, s: Sys, run: seq<Step>, g: Holder, i: nat,
                                                     h: Holder, j: nat)
    requires s == Restarted(s)
    requires var t := Exec(c, s, run);
             i < |Outstanding(t, g)| && j < |Outstanding(t, h)| && Outstanding(t, g)[i] == Outstanding(t, h)[j]
    ensures g == h && i == j
  {
    RestartExcludes(s);
    RunExcludes(c, s, run);
    OutstandingOnce(Exec(c, s, run), g, i, h, j);
  }

  /** The in-flight set always equals the keys of live guards. */
  lemma InFlightIsLiveGuards(c: Config, s: Sys, run: seq<Step>, k: MintKey)
    requires s == Restarted(s)
    ensures var t := Exec(c, s, run);
            k in t.inFlight <==> exists h :: h in Held(t) && k in Held(t)[h]
  {
    RestartExcludes(s);
    RunExcludes(c, s, run);
    var t := Exec(c, s, run);
    if k in t.inFlight { assert HeldBySome(Held(t), k); }
    if h :| h in Held(t) && k in Held(t)[h] { assert Within(Held(t)[h], t.inFlight); }
  }
}
