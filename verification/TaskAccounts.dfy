/**
 A mint task leaves no entry out: it tries each of its entries once and in order, and publishes exactly
 those whose key was free and whose wallet resolved. After the reply it deletes every confirmed field.
 */
module TaskAccounts {
  import opened Wrappers
  import opened Settlement

  // ----- the life of one task -----

  /** Step `i` starts the task `id` for the entries `ps`. */
  ghost predicate StartsAt(c: Config, s: Sys, run: seq<Step>, i: int, id: nat, ps: seq<PendingMint>) {
    && 0 <= i < |run| && id in Exec(c, s, run[..i + 1]).tasks
    && Exec(c, s, run[..i + 1]).tasks[id] == Claiming(ps, None, [])
  }

  /** The task has been there ever since. */
  ghost predicate Lives(c: Config, s: Sys, run: seq<Step>, i: int, id: nat) {
    0 <= i && forall m :: i < m <= |run| ==> id in Exec(c, s, run[..m]).tasks
  }

  lemma LivesPrefix(c: Config, s: Sys, run: seq<Step>, i: nat, id: nat, ps: seq<PendingMint>)
    requires StartsAt(c, s, run, i, id, ps) && Lives(c, s, run, i, id) && i < |run| - 1
    ensures StartsAt(c, s, run[..|run| - 1], i, id, ps) && Lives(c, s, run[..|run| - 1], i, id)
  {
    var pre := run[..|run| - 1];
    assert pre[..i + 1] == run[..i + 1];
    forall m | i < m <= |pre| ensures id in Exec(c, s, pre[..m]).tasks {
      assert pre[..m] == run[..m];
    }
  }

  /** Steps that are not the task's own leave it alone. */
  lemma {:induction false} OthersLeave(c: Config, t: Sys, st: Step, id: nat)
    requires id in t.tasks && id in Do(c, t, st).tasks && !(st.TaskStep? && st.id == id && Enabled(c, t, st))
    ensures Do(c, t, st).tasks[id] == t.tasks[id]
  {
    if Enabled(c, t, st) {
      match st
      case SweepStep(a) => SweepLeaves(c, t, a, id);
      case TaskStep(other, a) => TaskLeaves(t, other, a, id);
      case _ =>
    }
  }

  lemma SweepLeaves(c: Config, t: Sys, a: SweepAction, id: nat)
    requires SweepEnabled(c, t, a) && id in t.tasks
    ensures id in FireSweep(c, t, a).tasks && FireSweep(c, t, a).tasks[id] == t.tasks[id]
  {
    match a
    case Enqueue(reply, fresh') => EnqueueEffect(t, reply, fresh');
    case _ =>
  }

  lemma TaskLeaves(t: Sys, other: nat, a: TaskAction, id: nat)
    requires TaskEnabled(t, other, a) && id in t.tasks && other != id
    ensures id in FireTask(t, other, a).tasks && FireTask(t, other, a).tasks[id] == t.tasks[id]
  {
    match a
    case Claim =>
    case Resolve(_) =>
    case Publish =>
    case Reply(_) =>
    case Remove(_) =>
    case Abort =>
  }

  // ----- what happens to each entry -----

  /** The key was held by another attempt; or claimed, and then the wallet resolved or not. */
  datatype Attempt = Busy | Claimed | Usable | Unusable

  /** What the steps of the task say of its entries so far, in order. */
  ghost function Outcomes(c: Config, s: Sys, run: seq<Step>, i: nat, id: nat, ps: seq<PendingMint>): seq<Attempt> {
    if |run| <= i + 1 then []
    else
      var pre, st := run[..|run| - 1], run[|run| - 1];
      var before, t := Outcomes(c, s, pre, i, id, ps), Exec(c, s, pre);
      if !Enabled(c, t, st) || !st.TaskStep? || st.id != id then before
      else if st.task.Claim? && |before| < |ps|
      then before + [if ps[|before|].Field() in t.inFlight then Busy else Claimed]
      else if st.task.Resolve? && before != []
      then before[..|before| - 1] + [if st.task.walletOk then Usable else Unusable]
      else before
  }

  /** The entries whose key was free and whose wallet resolved. */
  function Chosen(ps: seq<PendingMint>, outs: seq<Attempt>): seq<PendingMint>
    requires |outs| <= |ps|
  {
    if outs == [] then []
    else
      var n := |outs| - 1;
      Chosen(ps, outs[..n]) + if outs[n] == Usable then [ps[n]] else []
  }

  ghost predicate Settled(outs: seq<Attempt>) {
    forall k :: 0 <= k < |outs| ==> outs[k] != Claimed
  }

  /** The task is where its outcomes say. */
  ghost predicate InStep(ps: seq<PendingMint>, outs: seq<Attempt>, t: Task, published: set<PendingMint>) {
    && |outs| <= |ps|
    && match t
       case Claiming(todo, resolving, held) =>
         && todo == ps[|outs|..] && held == Chosen(ps, outs)
         && (if outs != [] && outs[|outs| - 1] == Claimed
             then resolving == Some(ps[|outs| - 1]) && Settled(outs[..|outs| - 1])
             else resolving == None && Settled(outs))
       case Awaiting(held) =>
         && |outs| == |ps| && Settled(outs) && held == Chosen(ps, outs) && held != []
         && forall p :: p in held ==> p in published
       case Removing(_, _) => |outs| == |ps| && Settled(outs)
  }

  lemma ClaimInStep(ps: seq<PendingMint>, outs: seq<Attempt>, t: Task, t': Task, busy: bool,
                    published: set<PendingMint>)
    requires InStep(ps, outs, t, published) && t.Claiming? && t.resolving.None? && t.todo != []
    requires t' == if busy then t.(todo := t.todo[1..]) else t.(todo := t.todo[1..], resolving := Some(t.todo[0]))
    ensures InStep(ps, outs + [if busy then Busy else Claimed], t', published)
  {
    var more := outs + [if busy then Busy else Claimed];
    assert more[..|outs|] == outs && t.todo[0] == ps[|outs|] && t.todo[1..] == ps[|outs| + 1..];
  }

  lemma ResolveInStep(ps: seq<PendingMint>, outs: seq<Attempt>, t: Task, t': Task, ok: bool,
                      published: set<PendingMint>)
    requires InStep(ps, outs, t, published) && t.Claiming? && t.resolving.Some?
    requires t' == if ok then t.(resolving := None, held := t.held + [t.resolving.value]) else t.(resolving := None)
    ensures outs != [] && InStep(ps, outs[..|outs| - 1] + [if ok then Usable else Unusable], t', published)
  {
    var n := |outs| - 1;
    var more := outs[..n] + [if ok then Usable else Unusable];
    assert more[..n] == outs[..n];
  }

  lemma PublishInStep(ps: seq<PendingMint>, outs: seq<Attempt>, t: Task, published: set<PendingMint>)
    requires InStep(ps, outs, t, published) && t.Claiming? && t.resolving.None? && t.todo == [] && t.held != []
    ensures InStep(ps, outs, Awaiting(t.held), published + set p | p in t.held)
  {
  }

  lemma {:induction false} RunInStep(c: Config, s: Sys, run: seq<Step>, i: nat, id: nat, ps: seq<PendingMint>)
    requires StartsAt(c, s, run, i, id, ps) && Lives(c, s, run, i, id)
    ensures var t := Exec(c, s, run);
            id in t.tasks && InStep(ps, Outcomes(c, s, run, i, id, ps), t.tasks[id], t.published)
    decreases |run|
  {
    var n := |run| - 1;
    assert run[..|run|] == run;
    if n > i {
      var pre, st := run[..n], run[n];
      LivesPrefix(c, s, run, i, id, ps);
      RunInStep(c, s, pre, i, id, ps);
      StepInStep(c, Exec(c, s, pre), st, id, ps, Outcomes(c, s, pre, i, id, ps));
    }
  }

  /** One step, with the outcomes it adds. */
  lemma {:induction false} StepInStep(c: Config, t: Sys, st: Step, id: nat, ps: seq<PendingMint>, outs: seq<Attempt>)
    requires id in t.tasks && id in Do(c, t, st).tasks && InStep(ps, outs, t.tasks[id], t.published)
    ensures var u := Do(c, t, st);
            InStep(ps, if !Enabled(c, t, st) || !st.TaskStep? || st.id != id then outs
                       else if st.task.Claim? && |outs| < |ps|
                       then outs + [if ps[|outs|].Field() in t.inFlight then Busy else Claimed]
                       else if st.task.Resolve? && outs != []
                       then outs[..|outs| - 1] + [if st.task.walletOk then Usable else Unusable]
                       else outs,
                   u.tasks[id], u.published)
  {
    PublishedGrows(c, t, st);
    if !(st.TaskStep? && st.id == id && Enabled(c, t, st)) {
      OthersLeave(c, t, st, id);
    } else {
      OwnStep(c, t, id, st.task, ps, outs);
    }
  }

  lemma PublishedGrows(c: Config, t: Sys, st: Step)
    ensures t.published <= Do(c, t, st).published
  {
    if Enabled(c, t, st) {
      match st
      case SweepStep(a) => PublishedAfterSweep(c, t, a);
      case TaskStep(id, a) => PublishedAfterTask(t, id, a);
      case _ =>
    }
  }

  lemma PublishedAfterSweep(c: Config, t: Sys, a: SweepAction)
    requires SweepEnabled(c, t, a)
    ensures t.published <= FireSweep(c, t, a).published
  {
    match a
    case ResolveDirect(_) =>
    case _ =>
  }

  lemma PublishedAfterTask(t: Sys, id: nat, a: TaskAction)
    requires TaskEnabled(t, id, a)
    ensures t.published <= FireTask(t, id, a).published
  {
    match a
    case Publish =>
    case _ =>
  }

  lemma OwnStep(c: Config, t: Sys, id: nat, a: TaskAction, ps: seq<PendingMint>, outs: seq<Attempt>)
    requires TaskEnabled(t, id, a) && id in FireTask(t, id, a).tasks && InStep(ps, outs, t.tasks[id], t.published)
    ensures var u := FireTask(t, id, a);
            InStep(ps, if a.Claim? && |outs| < |ps|
                       then outs + [if ps[|outs|].Field() in t.inFlight then Busy else Claimed]
                       else if a.Resolve? && outs != []
                       then outs[..|outs| - 1] + [if a.walletOk then Usable else Unusable]
                       else outs,
                   u.tasks[id], u.published)
  {
    var k, u := t.tasks[id], FireTask(t, id, a);
    match a
    case Claim =>
      assert k.todo[0] == ps[|outs|];
      ClaimInStep(ps, outs, k, u.tasks[id], ps[|outs|].Field() in t.inFlight, t.published);
    case Resolve(ok) => ResolveInStep(ps, outs, k, u.tasks[id], ok, t.published);
    case Publish => PublishInStep(ps, outs, k, t.published);
    case Reply(_) =>
    case Remove(_) =>
    case Abort =>
  }

  /**
   Over every run: when a task waits for its reply, it has tried every one of its entries, and what it has
   published is exactly those whose key was free when their turn came and whose wallet resolved, in order.
   */
  lemma TaskPublishesChosen(c: Config, s: Sys, run: seq<Step>, i: nat, id: nat, ps: seq<PendingMint>)
    requires StartsAt(c, s, run, i, id, ps) && Lives(c, s, run, i, id)
    requires id in Exec(c, s, run).tasks && Exec(c, s, run).tasks[id].Awaiting?
    ensures var outs, t := Outcomes(c, s, run, i, id, ps), Exec(c, s, run);
            && |outs| == |ps| && Settled(outs) && t.tasks[id].held == Chosen(ps, outs)
            && forall p :: p in t.tasks[id].held ==> p in t.published
  {
    RunInStep(c, s, run, i, id, ps);
  }

  // ----- the removal after a reply -----

  /** Step `i` is a reply to the task that confirms the fields. */
  ghost predicate ConfirmsAt(c: Config, s: Sys, run: seq<Step>, i: int, id: nat, fields: seq<MintKey>) {
    0 <= i < |run| && run[i] == TaskStep(id, Reply(fields)) && Enabled(c, Exec(c, s, run[..i]), run[i])
  }

  /** The field whose outbox entry a step of the task deletes. */
  ghost function FirstOf(c: Config, t: Sys, st: Step, id: nat): seq<MintKey> {
    if Enabled(c, t, st) && st.TaskStep? && st.id == id && st.task.Remove?
       && !t.tasks[id].second && t.tasks[id].fields != []
    then [t.tasks[id].fields[0]] else []
  }

  ghost function Deleted(c: Config, s: Sys, run: seq<Step>, i: nat, id: nat): seq<MintKey> {
    if |run| <= i + 1 then []
    else Deleted(c, s, run[..|run| - 1], i, id) + FirstOf(c, Exec(c, s, run[..|run| - 1]), run[|run| - 1], id)
  }

  /** Deleted and remaining fields make up the reply. */
  ghost predicate OnReply(fields: seq<MintKey>, t: Task, deleted: seq<MintKey>) {
    && t.Removing? && (t.second ==> t.fields != [])
    && fields == deleted + if t.second then t.fields[1..] else t.fields
  }

  lemma RemoveOnReply(fields: seq<MintKey>, t: Task, t': Task, deleted: seq<MintKey>)
    requires OnReply(fields, t, deleted) && t.fields != []
    requires || (!t.second && t' == t.(second := true)) || t' == Removing(t.fields[1..], false)
    ensures OnReply(fields, t', deleted + if t.second then [] else [t.fields[0]])
  {
    assert t.fields == [t.fields[0]] + t.fields[1..];
    assert deleted + [] == deleted;
  }

  lemma {:induction false} StepOnReply(c: Config, t: Sys, st: Step, id: nat, fields: seq<MintKey>,
                                       deleted: seq<MintKey>)
    requires id in t.tasks && id in Do(c, t, st).tasks && OnReply(fields, t.tasks[id], deleted)
    ensures OnReply(fields, Do(c, t, st).tasks[id], deleted + FirstOf(c, t, st, id))
  {
    assert deleted + [] == deleted;
    if !(st.TaskStep? && st.id == id && Enabled(c, t, st)) {
      OthersLeave(c, t, st, id);
    } else if st.task.Remove? {
      RemoveEffect(t, id, st.task.result);
      if t.tasks[id].fields != [] { RemoveOnReply(fields, t.tasks[id], Do(c, t, st).tasks[id], deleted); }
    }
  }

  lemma RemoveEffect(t: Sys, id: nat, reply: Reply)
    requires id in t.tasks && t.tasks[id].Removing?
    ensures var k, u := t.tasks[id], FireRemove(t, id, reply);
            if k.fields == [] then id !in u.tasks
            else id in u.tasks
                 && ((!k.second && u.tasks[id] == k.(second := true)) || u.tasks[id] == Removing(k.fields[1..], false))
  {
  }

  lemma ConfirmsPrefix(c: Config, s: Sys, run: seq<Step>, i: nat, id: nat, fields: seq<MintKey>)
    requires ConfirmsAt(c, s, run, i, id, fields) && Lives(c, s, run, i, id) && i < |run| - 1
    ensures ConfirmsAt(c, s, run[..|run| - 1], i, id, fields) && Lives(c, s, run[..|run| - 1], i, id)
    ensures id in Exec(c, s, run).tasks
  {
    var pre := run[..|run| - 1];
    assert pre[..i] == run[..i] && run[..|run|] == run;
    forall m | i < m <= |pre| ensures id in Exec(c, s, pre[..m]).tasks {
      assert pre[..m] == run[..m];
    }
  }

  /** The reply itself. */
  lemma ReplyOnReply(c: Config, s: Sys, run: seq<Step>, i: nat, id: nat, fields: seq<MintKey>)
    requires ConfirmsAt(c, s, run, i, id, fields) && i == |run| - 1
    ensures id in Exec(c, s, run).tasks && OnReply(fields, Exec(c, s, run).tasks[id], [])
  {
    assert run[..i] == run[..|run| - 1];
  }

  lemma {:induction false} RunOnReply(c: Config, s: Sys, run: seq<Step>, i: nat, id: nat, fields: seq<MintKey>)
    requires ConfirmsAt(c, s, run, i, id, fields) && Lives(c, s, run, i, id)
    ensures id in Exec(c, s, run).tasks && OnReply(fields, Exec(c, s, run).tasks[id], Deleted(c, s, run, i, id))
    decreases |run|
  {
    var n := |run| - 1;
    if n == i {
      ReplyOnReply(c, s, run, i, id, fields);
    } else {
      var pre := run[..n];
      ConfirmsPrefix(c, s, run, i, id, fields);
      RunOnReply(c, s, pre, i, id, fields);
      StepOnReply(c, Exec(c, s, pre), run[n], id, fields, Deleted(c, s, pre, i, id));
    }
  }

  /** Over every run: a task that ends its removal has issued the deletion of every confirmed field, in order. */
  lemma RemovalServesAll(c: Config, s: Sys, run: seq<Step>, i: nat, id: nat, fields: seq<MintKey>, reply: Reply)
    requires ConfirmsAt(c, s, run, i, id, fields) && Lives(c, s, run, i, id)
    requires id !in Do(c, Exec(c, s, run), TaskStep(id, Remove(reply))).tasks
    ensures Deleted(c, s, run, i, id) == fields
  {
    RunOnReply(c, s, run, i, id, fields);
    RemoveEffect(Exec(c, s, run), id, reply);
  }
}
