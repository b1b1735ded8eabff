/** At most once, and nothing dropped, over every run of the VEN listener. */
module VenProofs {
  import opened Windows
  import opened Ven

  // ----- one event -----

  /** Stored versions never go down. */
  ghost predicate Rises(a: Seen, b: Seen) {
    forall k :: k in a ==> k in b && a[k] <= b[k]
  }

  lemma ProcessRises(seen: Seen, l: Listed, now: Instant)
    ensures Rises(seen, MarkSeen(seen, Process(seen, l, now), l.event.modified))
  {
    var e := l.event;
    var executed := Executed(seen, e.id, e.modified);
    DecisionSound(e.content, now, executed);
    forall n | AtLeast(seen, Part(e.id, n), e.modified) ensures n in executed {
      assert Part(e.id, n) in seen;
    }
  }

  lemma {:induction false} ScanRises(seen: Seen, listing: seq<Listed>, now: Instant)
    ensures Rises(seen, Scan(seen, listing, now))
  {
    if listing != [] {
      var pre := listing[..|listing| - 1];
      ScanRises(seen, pre, now);
      ProcessRises(Scan(seen, pre, now), listing[|listing| - 1], now);
    }
  }

  /** One of the two dedup keys of the dispatch is on record at its version or a later one. */
  ghost predicate Guarded(seen: Seen, d: Dispatched) {
    AtLeast(seen, Whole(d.id), d.version) || AtLeast(seen, Part(d.id, d.interval), d.version)
  }

  /** A guarded dispatch is not repeated, and a new one becomes guarded. */
  lemma ProcessOnce(seen: Seen, l: Listed, now: Instant, d: Dispatched)
    ensures var o := Process(seen, l, now);
            d in LogOf(o, l.event) ==> !Guarded(seen, d) && Guarded(MarkSeen(seen, o, l.event.modified), d)
  {
    var e := l.event;
    var executed := Executed(seen, e.id, e.modified);
    DecisionSound(e.content, now, executed);
    if AtLeast(seen, Part(d.id, d.interval), d.version) && d.id == e.id && d.version == e.modified {
      assert Part(d.id, d.interval) in seen;
      assert d.interval in executed;
    }
  }

  function Count(log: seq<Dispatched>, d: Dispatched): nat {
    if log == [] then 0 else Count(log[..|log| - 1], d) + if log[|log| - 1] == d then 1 else 0
  }

  lemma {:induction false} CountAppend(a: seq<Dispatched>, b: seq<Dispatched>, d: Dispatched)
    ensures Count(a + b, d) == Count(a, d) + Count(b, d)
    decreases |b|
  {
    if b == [] {
      assert a + b == a;
    } else {
      CountAppend(a, b[..|b| - 1], d);
      assert (a + b)[..|a + b| - 1] == a + b[..|b| - 1];
    }
  }

  lemma CountLog(o: Outcome, e: VtnEvent, d: Dispatched)
    ensures Count(LogOf(o, e), d) == if d in LogOf(o, e) then 1 else 0
  {
    if o.Fired? {
      var x := Dispatched(e.id, o.interval, e.modified);
      assert LogOf(o, e) == [x] && [x][..0] == [];
      assert Count([x], d) == Count([x][..0], d) + if x == d then 1 else 0;
    }
  }

  /** Within one listing: guarded before means never fired; fired at most once, and then guarded. */
  lemma {:induction false} ScanOnce(seen: Seen, listing: seq<Listed>, now: Instant, d: Dispatched)
    ensures Count(ScanLog(seen, listing, now), d) <= 1
    ensures Guarded(seen, d) ==> Count(ScanLog(seen, listing, now), d) == 0
    ensures Guarded(seen, d) || Count(ScanLog(seen, listing, now), d) == 1 ==> Guarded(Scan(seen, listing, now), d)
  {
    if listing != [] {
      var pre, l := listing[..|listing| - 1], listing[|listing| - 1];
      ScanOnce(seen, pre, now, d);
      var mid := Scan(seen, pre, now);
      ProcessOnce(mid, l, now, d);
      ProcessRises(mid, l, now);
      var o := Process(mid, l, now);
      CountAppend(ScanLog(seen, pre, now), LogOf(o, l.event), d);
      CountLog(o, l.event, d);
    }
  }

  // ----- persistence -----

  /** The store holds at least what the map holds. */
  ghost predicate Within(a: Seen, b: Seen) {
    forall k :: k in a ==> k in b && b[k] == a[k]
  }

  ghost predicate Persisted(l: Listener) {
    if l.loaded then Within(l.seen, l.store) else l.seen == map[]
  }

  lemma {:induction false} ScanPersists(l: Listener, listing: seq<Listed>, now: Instant)
    requires Within(l.seen, l.store)
    ensures Within(Scan(l.seen, listing, now), ScanStore(l, listing, now))
  {
    if listing != [] { ScanPersists(l, listing[..|listing| - 1], now); }
  }

  lemma NextPersists(l: Listener, st: Step)
    requires Persisted(l)
    ensures Persisted(Next(l, st))
  {
    if st.Poll? { ScanPersists(Load(l), st.listing, st.now); }
  }

  // ----- at most once -----

  ghost predicate IsGuardKey(d: Dispatched, k: Key) {
    k == Whole(d.id) || k == Part(d.id, d.interval)
  }

  /** The poll does not prune a dedup key that guards `d`. */
  ghost predicate Spares(l: Listener, st: Step, d: Dispatched) {
    st.Poll? ==>
      var scanned := Scan(Load(l).seen, st.listing, st.now);
      forall k :: k in Stale(scanned, st.listing, st.now) && IsGuardKey(d, k) ==> scanned[k] < d.version
  }

  ghost predicate NeverPruned(run: seq<Step>, d: Dispatched) {
    run == [] || (NeverPruned(run[..|run| - 1], d) && Spares(Runs(FRESH, run[..|run| - 1]), run[|run| - 1], d))
  }

  lemma PollOnce(l: Listener, st: Step, d: Dispatched)
    requires st.Poll? && l.loaded && Spares(l, st, d)
    requires Count(l.log, d) <= 1 && (Count(l.log, d) == 1 ==> Guarded(l.seen, d))
    ensures Count(Next(l, st).log, d) <= 1 && (Count(Next(l, st).log, d) == 1 ==> Guarded(Next(l, st).seen, d))
  {
    ScanOnce(l.seen, st.listing, st.now, d);
    CountAppend(l.log, ScanLog(l.seen, st.listing, st.now), d);
    var scanned := Scan(l.seen, st.listing, st.now);
    var left := scanned - Stale(scanned, st.listing, st.now);
    assert Guarded(scanned, d) ==> Guarded(left, d);
  }

  lemma NextOnce(l: Listener, st: Step, d: Dispatched)
    requires Persisted(l) && Spares(l, st, d)
    requires Count(l.log, d) <= 1 && (Count(l.log, d) == 1 ==> Guarded(Known(l), d))
    ensures Count(Next(l, st).log, d) <= 1 && (Count(Next(l, st).log, d) == 1 ==> Guarded(Known(Next(l, st)), d))
  {
    var l1 := Load(l);
    assert Known(l1) == Known(l);
    match st
    case Poll(_, _, _) =>
      PollOnce(l1, st, d);
      assert Next(l, st) == Next(l1, st);
    case PollFailed =>
    case Restart =>
      assert Guarded(l.seen, d) ==> Guarded(l.store, d);
  }

  /**
   At most once: over every run of polls, listings, dispatch failures and clean restarts in
   which no poll prunes its dedup keys, an (event, interval, version) is successfully
   dispatched at most once.
   */
  lemma {:induction false} AtMostOnce(run: seq<Step>, d: Dispatched)
    requires NeverPruned(run, d)
    ensures Persisted(Runs(FRESH, run))
    ensures Count(Runs(FRESH, run).log, d) <= 1
    ensures Count(Runs(FRESH, run).log, d) == 1 ==> Guarded(Known(Runs(FRESH, run)), d)
  {
    if run != [] {
      var pre := run[..|run| - 1];
      AtMostOnce(pre, d);
      NextPersists(Runs(FRESH, pre), run[|run| - 1]);
      NextOnce(Runs(FRESH, pre), run[|run| - 1], d);
    }
  }

  /** A poll that lists the event, or comes within a week of its version, prunes no guard of it. */
  lemma ListedOrFreshIsSpared(l: Listener, st: Step, d: Dispatched)
    requires st.Poll? ==> d.id in Present(st.listing) || d.version >= st.now - PRUNE_AGE
    ensures Spares(l, st, d)
  {
  }

  /** One poll of one event on an empty map: the dispatch is logged and its key kept in memory and store. */
  lemma FirstPoll(l: Listener, e: VtnEvent, now: Instant)
    requires l.loaded && l.seen == map[] && l.store == map[] && Process(map[], Listed(e, true), now).Fired?
    ensures var o := Process(map[], Listed(e, true), now); var m := map[o.key := e.modified];
            Next(l, Poll([Listed(e, true)], now, {}))
            == Listener(m, m, true, l.log + [Dispatched(e.id, o.interval, e.modified)], l.sent + SentOf(o))
  {
    var x := Listed(e, true);
    assert [x][..0] == [];
    assert Scan(map[], [], now) == map[];
    assert x in [x] && e.id in Present([x]);
    var o := Process(map[], x, now);
    assert Scan(map[], [x], now) == map[o.key := e.modified] && o.key.id == e.id;
    assert ScanLog(map[], [x], now) == LogOf(o, e) && ScanSent(map[], [x], now) == SentOf(o);
    assert ScanStore(l, [x][..0], now) == map[] && ScanStore(l, [x], now) == map[o.key := e.modified];
    var m := map[o.key := e.modified];
    assert m - {} == m && m - ({} - {}) == m;
    assert Stale(map[o.key := e.modified], [x], now) == {};
  }

  /** A poll that lists nothing forgets a version that is more than a week old. */
  lemma EmptyPoll(l: Listener, k: Key, v: Instant, now: Instant)
    requires l.loaded && l.seen == map[k := v] && l.store == map[k := v] && v < now - PRUNE_AGE
    ensures Next(l, Poll([], now, {})) == l.(seen := map[], store := map[])
  {
    assert k in l.seen && Stale(l.seen, [], now) == {k};
  }

  /**
   The condition on pruning is needed: an old version that leaves the listing for one poll and
   comes back while it is active is dispatched again.
   */
  lemma {:induction false} PrunedVersionFiresAgain(e: VtnEvent, now: Instant)
    requires Process(map[], Listed(e, true), now).Fired? && e.modified < now - PRUNE_AGE
    ensures var listed, empty := Poll([Listed(e, true)], now, {}), Poll([], now, {});
            var d := Dispatched(e.id, Process(map[], Listed(e, true), now).interval, e.modified);
            Count(Runs(FRESH, [PollFailed, listed, empty, listed]).log, d) == 2
  {
    var listed, empty := Poll([Listed(e, true)], now, {}), Poll([], now, {});
    var o := Process(map[], Listed(e, true), now);
    var d := Dispatched(e.id, o.interval, e.modified);
    var r1, r2 := [PollFailed], [PollFailed, listed];
    var r3, r4 := [PollFailed, listed, empty], [PollFailed, listed, empty, listed];
    assert r1[..0] == [] && r2[..1] == r1 && r3[..2] == r2 && r4[..3] == r3;
    assert Runs(FRESH, r1[..|r1| - 1]) == FRESH;
    var l1 := Runs(FRESH, r1);
    assert l1 == Listener(map[], map[], true, [], []);
    FirstPoll(l1, e, now);
    EmptyPoll(Runs(FRESH, r2), o.key, e.modified, now);
    FirstPoll(Runs(FRESH, r3), e, now);
    assert Runs(FRESH, r4).log == [d, d];
    CountAppend([d], [d], d);
    assert [d, d] == [d] + [d] && [d][..0] == [];
    assert Count([d], d) == 1;
  }

  /** Between prunes a stored version never goes down: every poll keeps or raises each key it does not prune. */
  lemma PollRises(l: Listener, st: Step)
    requires st.Poll? && Persisted(l)
    ensures forall k :: k in Known(l) ==>
              || (k in Next(l, st).seen && Known(l)[k] <= Next(l, st).seen[k])
              || (k.id !in Present(st.listing) && Known(l)[k] < st.now - PRUNE_AGE)
  {
    var l1 := Load(l);
    assert Known(l) == l1.seen;
    ScanRises(l1.seen, st.listing, st.now);
  }

  // ----- nothing dropped -----

  ghost predicate DoneBy(log: seq<Dispatched>, id: string, interval: int, v: Instant) {
    exists d :: d in log && d.id == id && d.interval == interval && d.version >= v
  }

  /** A per-interval key is only ever written by a successful dispatch of that version. */
  ghost predicate PartsLogged(seen: Seen, log: seq<Dispatched>) {
    forall k :: k in seen && k.Part? ==> Dispatched(k.id, k.interval, seen[k]) in log
  }

  /** The event version is closed: it will not be looked at again. */
  ghost predicate ClosedFor(seen: Seen, e: VtnEvent) {
    AtLeast(seen, Whole(e.id), e.modified)
  }

  /** Every setpoint of the event is past its window or was dispatched at this version or later. */
  ghost predicate Finished(e: VtnEvent, now: Instant, log: seq<Dispatched>) {
    forall sp :: sp in FindSetpoints(e.content) ==>
      TimingOf(e.content, sp, now).Past? || DoneBy(log, e.id, sp.interval, e.modified)
  }

  lemma ExecutedIsDone(seen: Seen, log: seq<Dispatched>, id: string, v: Instant)
    requires PartsLogged(seen, log)
    ensures forall n :: n in Executed(seen, id, v) ==> DoneBy(log, id, n, v)
  {
    forall n | n in Executed(seen, id, v) ensures DoneBy(log, id, n, v) {
      assert Dispatched(id, n, seen[Part(id, n)]) in log;
    }
  }

  /** One event: closing it means it is finished. */
  lemma ProcessCloses(seen: Seen, log: seq<Dispatched>, l: Listed, now: Instant)
    requires PartsLogged(seen, log)
    ensures var o := Process(seen, l, now);
            var seen', log' := MarkSeen(seen, o, l.event.modified), log + LogOf(o, l.event);
            && PartsLogged(seen', log')
            && (ClosedFor(seen', l.event) && !ClosedFor(seen, l.event) ==> Finished(l.event, now, log'))
  {
    var e := l.event;
    var o := Process(seen, l, now);
    var log' := log + LogOf(o, e);
    var executed := Executed(seen, e.id, e.modified);
    DecisionSound(e.content, now, executed);
    ExecutedIsDone(seen, log, e.id, e.modified);
    if o.Fired? {
      assert LogOf(o, e)[0] in log';
      assert DoneBy(log', e.id, o.interval, e.modified);
    }
    forall n | n in executed ensures DoneBy(log', e.id, n, e.modified) {
      assert DoneBy(log, e.id, n, e.modified);
    }
  }

  lemma {:induction false} ScanParts(seen: Seen, log: seq<Dispatched>, listing: seq<Listed>, now: Instant)
    requires PartsLogged(seen, log)
    ensures PartsLogged(Scan(seen, listing, now), log + ScanLog(seen, listing, now))
  {
    if listing == [] {
      assert log + [] == log;
    } else {
      var pre, l := listing[..|listing| - 1], listing[|listing| - 1];
      ScanParts(seen, log, pre, now);
      var mid, midLog := Scan(seen, pre, now), log + ScanLog(seen, pre, now);
      ProcessCloses(mid, midLog, l, now);
      assert midLog + LogOf(Process(mid, l, now), l.event) == log + ScanLog(seen, listing, now);
    }
  }

  lemma {:induction false} ScanStoreParts(l: Listener, listing: seq<Listed>, now: Instant)
    requires PartsLogged(l.store, l.log)
    ensures PartsLogged(ScanStore(l, listing, now), l.log + ScanLog(l.seen, listing, now))
  {
    if listing == [] {
      assert l.log + [] == l.log;
    } else {
      var pre, x := listing[..|listing| - 1], listing[|listing| - 1];
      ScanStoreParts(l, pre, now);
      var o := Process(Scan(l.seen, pre, now), x, now);
      var before := l.log + ScanLog(l.seen, pre, now);
      assert l.log + ScanLog(l.seen, listing, now) == before + LogOf(o, x.event);
      DecisionSound(x.event.content, now, Executed(Scan(l.seen, pre, now), x.event.id, x.event.modified));
      if o.Fired? { assert LogOf(o, x.event)[0] in before + LogOf(o, x.event); }
    }
  }

  ghost predicate Logged(l: Listener) {
    Persisted(l) && PartsLogged(l.seen, l.log) && PartsLogged(l.store, l.log)
  }

  lemma {:induction false} RunLogged(run: seq<Step>)
    ensures Logged(Runs(FRESH, run))
  {
    if run != [] {
      var pre, st := run[..|run| - 1], run[|run| - 1];
      RunLogged(pre);
      var l := Runs(FRESH, pre);
      NextPersists(l, st);
      if st.Poll? {
        ScanParts(Load(l).seen, l.log, st.listing, st.now);
        ScanStoreParts(Load(l), st.listing, st.now);
      }
    }
  }

  /**
   Nothing dropped: in any poll of any run, an event version that becomes closed at position
   `i` of the listing has every setpoint interval past its window or already dispatched.
   */
  lemma ClosedMeansFinished(run: seq<Step>, listing: seq<Listed>, now: Instant, i: nat)
    requires i < |listing|
    ensures var l := Load(Runs(FRESH, run));
            var before, after := Scan(l.seen, listing[..i], now), Scan(l.seen, listing[..i + 1], now);
            ClosedFor(after, listing[i].event) && !ClosedFor(before, listing[i].event) ==>
              Finished(listing[i].event, now, l.log + ScanLog(l.seen, listing[..i + 1], now))
  {
    RunLogged(run);
    var l := Load(Runs(FRESH, run));
    var pre, upTo := listing[..i], listing[..i + 1];
    assert upTo[..i] == pre && upTo[i] == listing[i];
    ScanParts(l.seen, l.log, pre, now);
    var before, log := Scan(l.seen, pre, now), l.log + ScanLog(l.seen, pre, now);
    ProcessCloses(before, log, listing[i], now);
    assert log + LogOf(Process(before, listing[i], now), listing[i].event) == l.log + ScanLog(l.seen, upTo, now);
  }

  // ----- what is dispatched, and when -----

  /** The command for a setpoint: up for a surplus or zero, down for a deficit, by its magnitude. */
  predicate CommandFor(cmd: (Direction, real), kw: real) {
    if kw >= 0.0 then cmd == (FlexUp, kw) else cmd == (FlexDown, -kw)
  }

  /** The listing holds the event with a setpoint of that interval that is due at `now`, and the command is for it. */
  ghost predicate Due(listing: seq<Listed>, now: Instant, d: Dispatched, cmd: (Direction, real)) {
    exists j, k :: DueAt(listing, now, d, cmd, j, k)
  }

  ghost predicate DueAt(listing: seq<Listed>, now: Instant, d: Dispatched, cmd: (Direction, real), j: int, k: int) {
    && 0 <= j < |listing| && listing[j].ok && listing[j].event.id == d.id && listing[j].event.modified == d.version
    && var sps := FindSetpoints(listing[j].event.content);
       && 0 <= k < |sps| && sps[k].interval == d.interval && CommandFor(cmd, sps[k].kw)
       && InWindow(listing[j].event.content, sps[k], now)
  }

  lemma ProcessIsDue(seen: Seen, listing: seq<Listed>, j: nat, now: Instant)
    requires j < |listing|
    ensures var o := Process(seen, listing[j], now);
            o.Fired? ==> Due(listing, now, LogOf(o, listing[j].event)[0], SentOf(o)[0])
  {
    var x := listing[j];
    var o := Process(seen, x, now);
    if o.Fired? {
      var k := DecisionIs(x.event.content, now, Executed(seen, x.event.id, x.event.modified));
      TimingIs(x.event.content, FindSetpoints(x.event.content)[k], now);
      assert DueAt(listing, now, LogOf(o, x.event)[0], SentOf(o)[0], j, k);
    }
  }

  lemma DueInLonger(listing: seq<Listed>, n: nat, now: Instant, d: Dispatched, cmd: (Direction, real))
    requires n <= |listing| && Due(listing[..n], now, d, cmd)
    ensures Due(listing, now, d, cmd)
  {
    var j, k :| DueAt(listing[..n], now, d, cmd, j, k);
    assert DueAt(listing, now, d, cmd, j, k);
  }

  lemma {:induction false} ScanIsDue(seen: Seen, listing: seq<Listed>, now: Instant)
    ensures var log, sent := ScanLog(seen, listing, now), ScanSent(seen, listing, now);
            |log| == |sent| && forall m :: 0 <= m < |log| ==> Due(listing, now, log[m], sent[m])
  {
    if listing != [] {
      var n := |listing| - 1;
      var pre := listing[..n];
      ScanIsDue(seen, pre, now);
      ProcessIsDue(Scan(seen, pre, now), listing, n, now);
      var log, sent := ScanLog(seen, listing, now), ScanSent(seen, listing, now);
      forall m | 0 <= m < |log| ensures Due(listing, now, log[m], sent[m]) {
        if m < |ScanLog(seen, pre, now)| { DueInLonger(listing, n, now, log[m], sent[m]); }
      }
    }
  }

  /** Step `i` of the run is a poll in which the dispatch is due. */
  ghost predicate DueIn(run: seq<Step>, i: int, d: Dispatched, cmd: (Direction, real)) {
    0 <= i < |run| && run[i].Poll? && Due(run[i].listing, run[i].now, d, cmd)
  }

  /**
   Over every run each successful dispatch comes from a poll that lists the event at that version, inside
   the window of that interval, and its command is the interval's setpoint.
   */
  lemma {:induction false} DispatchedInWindow(run: seq<Step>, m: nat)
    requires m < |Runs(FRESH, run).log|
    ensures |Runs(FRESH, run).sent| == |Runs(FRESH, run).log|
    ensures exists i :: DueIn(run, i, Runs(FRESH, run).log[m], Runs(FRESH, run).sent[m])
  {
    SentMatchesLog(run);
    var n := |run| - 1;
    var pre := run[..n];
    var l, t := Runs(FRESH, pre), Runs(FRESH, run);
    SentMatchesLog(pre);
    if m < |l.log| {
      DispatchedInWindow(pre, m);
      var i :| DueIn(pre, i, l.log[m], l.sent[m]);
      assert t.log[m] == l.log[m] && t.sent[m] == l.sent[m];
      assert DueIn(run, i, t.log[m], t.sent[m]);
    } else {
      ScanIsDue(Load(l).seen, run[n].listing, run[n].now);
      assert DueIn(run, n, t.log[m], t.sent[m]);
    }
  }

  lemma {:induction false} SentMatchesLog(run: seq<Step>)
    ensures |Runs(FRESH, run).sent| == |Runs(FRESH, run).log|
  {
    if run != [] {
      var n := |run| - 1;
      SentMatchesLog(run[..n]);
      if run[n].Poll? { ScanIsDue(Load(Runs(FRESH, run[..n])).seen, run[n].listing, run[n].now); }
    }
  }

  // ----- exactly when an event is closed -----

  /** At most one position is pending, and none is future. */
  ghost predicate NothingLeft(e: VtnEvent, now: Instant, executed: set<int>, ok: bool) {
    var sps := FindSetpoints(e.content);
    && !AnyFuture(e.content, sps, now)
    && (forall j, k ::
          PendingAt(e.content, sps, j, now, executed) && PendingAt(e.content, sps, k, now, executed) ==> j == k)
    && (!ok ==> forall j :: !PendingAt(e.content, sps, j, now, executed))
  }

  /**
   Processing an open event closes it exactly when nothing is left: no setpoint is in the future, and none
   is pending but the one that is dispatched successfully.
   */
  lemma ClosesIff(seen: Seen, e: VtnEvent, ok: bool, now: Instant)
    requires !ClosedFor(seen, e)
    ensures ClosedFor(ScanOne(seen, Listed(e, ok), now), e)
       <==> NothingLeft(e, now, Executed(seen, e.id, e.modified), ok)
  {
    var executed, sps := Executed(seen, e.id, e.modified), FindSetpoints(e.content);
    var k := DecisionIs(e.content, now, executed);
    var d := Decide(e.content, now, executed);
    if d.Execute? {
      assert PendingAt(e.content, sps, k, now, executed);
    } else {
      assert forall j :: !PendingAt(e.content, sps, j, now, executed);
    }
  }
}
