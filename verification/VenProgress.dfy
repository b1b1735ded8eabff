/**
 Every active interval is dispatched in the end: the count of active undispatched intervals falls with
 each successful poll, and no failure, restart or omission in between lets it rise.
 */
module VenProgress {
  import opened Wrappers
  import opened Windows
  import opened Ven
  import opened VenProofs

  /** Two dedup maps agree on the keys of one event. */
  ghost predicate SameFor(a: Seen, b: Seen, id: string) {
    forall k: Key :: k.id == id ==> Get(a, k) == Get(b, k)
  }

  lemma SameExecuted(a: Seen, b: Seen, id: string, v: Instant)
    requires SameFor(a, b, id)
    ensures Executed(a, id, v) == Executed(b, id, v) && (AtLeast(a, Whole(id), v) <==> AtLeast(b, Whole(id), v))
  {
    forall n ensures n in Executed(a, id, v) <==> n in Executed(b, id, v) {
      assert Get(a, Part(id, n)) == Get(b, Part(id, n));
      if n in Executed(a, id, v) { assert Part(id, n) in a; assert Part(id, n) in b; }
      if n in Executed(b, id, v) { assert Part(id, n) in b; assert Part(id, n) in a; }
    }
    assert Get(a, Whole(id)) == Get(b, Whole(id));
  }

  lemma OtherEvent(base: Seen, seen: Seen, x: Listed, now: Instant, id: string)
    requires SameFor(base, seen, id) && x.event.id != id
    ensures SameFor(base, ScanOne(seen, x, now), id)
  {
    var o := Process(seen, x, now);
    assert o.Skipped? || o.key.id == x.event.id;
  }

  /** Events other than `id` do not touch its keys. */
  lemma {:induction false} ScanOthers(seen: Seen, listing: seq<Listed>, now: Instant, id: string)
    requires forall i :: 0 <= i < |listing| ==> listing[i].event.id != id
    ensures SameFor(seen, Scan(seen, listing, now), id)
  {
    if listing != [] {
      var pre := listing[..|listing| - 1];
      ScanOthers(seen, pre, now, id);
      OtherEvent(seen, Scan(seen, pre, now), listing[|listing| - 1], now, id);
    }
  }

  /** Processing an event depends on its own keys alone. */
  lemma ProcessSame(a: Seen, b: Seen, x: Listed, now: Instant)
    requires SameFor(a, b, x.event.id)
    ensures SameFor(ScanOne(a, x, now), ScanOne(b, x, now), x.event.id)
  {
    SameExecuted(a, b, x.event.id, x.event.modified);
    assert Process(a, x, now) == Process(b, x, now);
  }

  /** The listing holds exactly one entry for the event: `x`, at `j`. */
  ghost predicate ListsOnce(listing: seq<Listed>, j: int, x: Listed) {
    && 0 <= j < |listing| && listing[j] == x
    && forall i :: 0 <= i < |listing| && i != j ==> listing[i].event.id != x.event.id
  }

  lemma EventLast(seen: Seen, pre: seq<Listed>, x: Listed, now: Instant)
    requires forall i :: 0 <= i < |pre| ==> pre[i].event.id != x.event.id
    ensures SameFor(ScanOne(seen, x, now), ScanOne(Scan(seen, pre, now), x, now), x.event.id)
  {
    ScanOthers(seen, pre, now, x.event.id);
    ProcessSame(seen, Scan(seen, pre, now), x, now);
  }

  lemma ScanLast(seen: Seen, listing: seq<Listed>, n: nat, now: Instant)
    requires n < |listing|
    ensures Scan(seen, listing[..n + 1], now) == ScanOne(Scan(seen, listing[..n], now), listing[n], now)
  {
    assert listing[..n + 1][..n] == listing[..n];
  }

  lemma {:induction false} ScanOfEvent(seen: Seen, listing: seq<Listed>, n: nat, now: Instant, j: nat, x: Listed)
    requires ListsOnce(listing, j, x) && j < n <= |listing|
    ensures SameFor(ScanOne(seen, x, now), Scan(seen, listing[..n], now), x.event.id)
    decreases n
  {
    ScanLast(seen, listing, n - 1, now);
    if j == n - 1 {
      EventLast(seen, listing[..j], listing[j], now);
    } else {
      ScanOfEvent(seen, listing, n - 1, now, j, x);
      OtherEvent(ScanOne(seen, x, now), Scan(seen, listing[..n - 1], now), listing[n - 1], now, x.event.id);
    }
  }

  /** The whole poll does to the keys of an event what processing that event alone does. */
  lemma {:induction false} PollOfEvent(l: Listener, st: Step, j: nat, x: Listed)
    requires st.Poll? && l.loaded && ListsOnce(st.listing, j, x)
    ensures SameFor(ScanOne(l.seen, x, st.now), Next(l, st).seen, x.event.id)
  {
    ScanOfEvent(l.seen, st.listing, |st.listing|, st.now, j, x);
    assert st.listing[..|st.listing|] == st.listing;
    assert st.listing[j] in st.listing && x.event.id in Present(st.listing);
  }

  /** A setpoint of interval `n` is active now. */
  ghost predicate ActiveNow(e: VtnEvent, now: Instant, n: int) {
    exists sp :: sp in FindSetpoints(e.content) && sp.interval == n && TimingOf(e.content, sp, now).Active?
  }

  /** Only intervals of `universe` are active now. */
  ghost predicate ActiveWithin(e: VtnEvent, now: Instant, universe: set<int>) {
    forall sp :: sp in FindSetpoints(e.content) && TimingOf(e.content, sp, now).Active? ==> sp.interval in universe
  }

  /** The count of active intervals that are not yet dispatched. */
  ghost function Remaining(seen: Seen, e: VtnEvent, universe: set<int>): nat {
    |universe - Executed(seen, e.id, e.modified)|
  }

  /** One successful poll of an open event: it is finished with every active interval, or one fewer remains. */
  lemma PollProgress(seen: Seen, e: VtnEvent, now: Instant, universe: set<int>)
    requires !ClosedFor(seen, e) && ActiveWithin(e, now, universe)
    requires exists n :: ActiveNow(e, now, n) && n !in Executed(seen, e.id, e.modified)
    ensures var seen' := ScanOne(seen, Listed(e, true), now);
            ClosedFor(seen', e) || Remaining(seen', e, universe) < Remaining(seen, e, universe)
  {
    var executed := Executed(seen, e.id, e.modified);
    var n :| ActiveNow(e, now, n) && n !in executed;
    OpenEventFires(seen, e, now, universe, n);
    MarkingProgresses(seen, e, universe, Process(seen, Listed(e, true), now));
  }

  lemma {:induction false} MarkingProgresses(seen: Seen, e: VtnEvent, universe: set<int>, o: Outcome)
    requires o.Fired? && o.interval in universe && o.interval !in Executed(seen, e.id, e.modified)
    requires o.key == Part(e.id, o.interval) || o.key == Whole(e.id)
    ensures var seen' := MarkSeen(seen, o, e.modified);
            ClosedFor(seen', e) || Remaining(seen', e, universe) < Remaining(seen, e, universe)
  {
    if o.key == Part(e.id, o.interval) {
      ExecutedAfter(seen, e.id, o.interval, e.modified);
      OneFewer(universe, Executed(seen, e.id, e.modified), o.interval);
    }
  }

  lemma OneFewer(universe: set<int>, executed: set<int>, x: int)
    requires x in universe && x !in executed
    ensures |universe - (executed + {x})| < |universe - executed|
  {
    assert universe - (executed + {x}) == (universe - executed) - {x};
  }

  lemma OpenEventFires(seen: Seen, e: VtnEvent, now: Instant, universe: set<int>, n: int)
    requires !ClosedFor(seen, e) && ActiveWithin(e, now, universe)
    requires ActiveNow(e, now, n) && n !in Executed(seen, e.id, e.modified)
    ensures var o := Process(seen, Listed(e, true), now);
            && o.Fired? && o.interval in universe && o.interval !in Executed(seen, e.id, e.modified)
            && (o.key == Part(e.id, o.interval) || o.key == Whole(e.id))
  {
    var executed := Executed(seen, e.id, e.modified);
    DecisionSound(e.content, now, executed);
    var sp :| sp in FindSetpoints(e.content) && sp.interval == n && TimingOf(e.content, sp, now).Active?;
    assert Pending(e.content, sp, now, executed);
  }

  lemma ExecutedAfter(seen: Seen, id: string, x: int, v: Instant)
    ensures Executed(seen[Part(id, x) := v], id, v) == Executed(seen, id, v) + {x}
  {
    var after := seen[Part(id, x) := v];
    forall n ensures n in Executed(after, id, v) <==> n in Executed(seen, id, v) + {x} {
      if n in Executed(seen, id, v) { assert Part(id, n) in after; }
      if n == x { assert Part(id, x) in after; }
      if n in Executed(after, id, v) && n != x { assert Part(id, n) in seen; }
    }
  }

  // ----- one step of a run that may fail -----

  /** The event is not closed, neither in memory nor in the store that a restart would load. */
  ghost predicate Open(l: Listener, e: VtnEvent) {
    !ClosedFor(Known(l), e) && !ClosedFor(l.store, e)
  }

  /** A poll that lists the event once; `ok` says whether a dispatch for it would succeed. */
  ghost predicate Lists(st: Step, e: VtnEvent, ok: bool) {
    st.Poll? && exists j :: ListsOnce(st.listing, j, Listed(e, ok))
  }

  /** A poll that leaves the event out while its version is less than a week old. */
  ghost predicate Omits(st: Step, e: VtnEvent) {
    && st.Poll? && e.modified >= st.now - PRUNE_AGE
    && forall i :: 0 <= i < |st.listing| ==> st.listing[i].event.id != e.id
  }

  /**
   What may happen in between: a failed poll, a clean restart, a poll that leaves a recent event out,
   and a poll that lists the event, with interval `n` active, whether its dispatch succeeds or fails.
   */
  ghost predicate Tolerable(st: Step, e: VtnEvent, universe: set<int>, n: int) {
    || st.PollFailed? || st.Restart? || Omits(st, e)
    || ((Lists(st, e, true) || Lists(st, e, false)) && ActiveNow(e, st.now, n) && ActiveWithin(e, st.now, universe))
  }

  /** Interval `n` is dispatched, or the event is still open with at most `most` intervals to dispatch. */
  ghost predicate Advances(l: Listener, e: VtnEvent, universe: set<int>, n: int, most: int) {
    || DoneBy(l.log, e.id, n, e.modified)
    || (Open(l, e) && Remaining(Known(l), e, universe) <= most)
  }

  /** Two maps agree on which keys of the event hold its version or a later one. */
  ghost predicate Agree(a: Seen, b: Seen, e: VtnEvent) {
    forall k: Key :: k.id == e.id ==> (AtLeast(a, k, e.modified) <==> AtLeast(b, k, e.modified))
  }

  lemma SameAgrees(a: Seen, b: Seen, e: VtnEvent)
    requires SameFor(a, b, e.id)
    ensures Agree(a, b, e)
  {
    forall k: Key | k.id == e.id ensures AtLeast(a, k, e.modified) <==> AtLeast(b, k, e.modified) {
      assert Get(a, k) == Get(b, k);
    }
  }

  lemma AgreeExecuted(a: Seen, b: Seen, e: VtnEvent)
    requires Agree(a, b, e)
    ensures Executed(a, e.id, e.modified) == Executed(b, e.id, e.modified) && (ClosedFor(a, e) <==> ClosedFor(b, e))
  {
    forall n ensures n in Executed(a, e.id, e.modified) <==> n in Executed(b, e.id, e.modified) {
      ExecutedIs(a, e, n);
      ExecutedIs(b, e, n);
      assert AtLeast(a, Part(e.id, n), e.modified) <==> AtLeast(b, Part(e.id, n), e.modified);
    }
    assert AtLeast(a, Whole(e.id), e.modified) <==> AtLeast(b, Whole(e.id), e.modified);
  }

  lemma ExecutedIs(a: Seen, e: VtnEvent, n: int)
    ensures n in Executed(a, e.id, e.modified) <==> AtLeast(a, Part(e.id, n), e.modified)
  {
  }

  /** The poll does not prune a key of the event that holds its version or a later one. */
  ghost predicate Keeps(st: Step, e: VtnEvent) {
    st.Poll? && (e.id in Present(st.listing) || e.modified >= st.now - PRUNE_AGE)
  }

  /** What the store gains in a poll, memory gains too. */
  lemma {:induction false} StoreFollows(l: Listener, listing: seq<Listed>, now: Instant, k: Key, v: Instant)
    requires AtLeast(ScanStore(l, listing, now), k, v)
    ensures AtLeast(l.store, k, v) || AtLeast(Scan(l.seen, listing, now), k, v)
  {
    if listing != [] {
      var pre, x := listing[..|listing| - 1], listing[|listing| - 1];
      var o := Process(Scan(l.seen, pre, now), x, now);
      if o.Skipped? || o.key != k { StoreFollows(l, pre, now, k, v); }
    }
  }

  lemma StoreStaysOpen(l: Listener, st: Step, e: VtnEvent)
    requires l.loaded && Keeps(st, e) && !ClosedFor(l.store, e) && !ClosedFor(Next(l, st).seen, e)
    ensures !ClosedFor(Next(l, st).store, e)
  {
    if AtLeast(ScanStore(l, st.listing, st.now), Whole(e.id), e.modified) {
      StoreFollows(l, st.listing, st.now, Whole(e.id), e.modified);
    }
  }

  /** A successful dispatch: the interval is done, or one fewer remains. */
  lemma {:induction false} ServeStep(l: Listener, st: Step, e: VtnEvent, universe: set<int>, n: int)
    requires Logged(l) && l.loaded && Open(l, e) && n !in Executed(l.seen, e.id, e.modified)
    requires Lists(st, e, true) && ActiveNow(e, st.now, n) && ActiveWithin(e, st.now, universe)
    ensures Advances(Next(l, st), e, universe, n, Remaining(l.seen, e, universe) - 1)
  {
    var j :| ListsOnce(st.listing, j, Listed(e, true));
    var alone, after := ScanOne(l.seen, Listed(e, true), st.now), Next(l, st).seen;
    PollOfEvent(l, st, j, Listed(e, true));
    PollProgress(l.seen, e, st.now, universe);
    SameExecuted(alone, after, e.id, e.modified);
    if ClosedFor(alone, e) {
      ClosedInPoll(l, st, j, e);
      var sp :| sp in FindSetpoints(e.content) && sp.interval == n && TimingOf(e.content, sp, st.now).Active?;
    } else {
      assert st.listing[j] in st.listing;
      StoreStaysOpen(l, st, e);
    }
  }

  /** Nothing is written for a failed dispatch. */
  lemma FailedDispatchSkips(seen: Seen, e: VtnEvent, now: Instant, n: int)
    requires !ClosedFor(seen, e) && ActiveNow(e, now, n) && n !in Executed(seen, e.id, e.modified)
    ensures ScanOne(seen, Listed(e, false), now) == seen
  {
    var executed := Executed(seen, e.id, e.modified);
    DecisionSound(e.content, now, executed);
    var sp :| sp in FindSetpoints(e.content) && sp.interval == n && TimingOf(e.content, sp, now).Active?;
    assert Pending(e.content, sp, now, executed);
  }

  /** A poll that changes no key of the event leaves it as open as before. */
  lemma AgreeAdvances(l: Listener, st: Step, e: VtnEvent, universe: set<int>, n: int)
    requires l.loaded && Open(l, e) && Keeps(st, e) && Agree(l.seen, Next(l, st).seen, e)
    ensures Advances(Next(l, st), e, universe, n, Remaining(l.seen, e, universe))
  {
    AgreeExecuted(l.seen, Next(l, st).seen, e);
    StoreStaysOpen(l, st, e);
  }

  lemma FailedStep(l: Listener, st: Step, e: VtnEvent, universe: set<int>, n: int)
    requires l.loaded && Open(l, e) && n !in Executed(l.seen, e.id, e.modified)
    requires Lists(st, e, false) && ActiveNow(e, st.now, n)
    ensures Advances(Next(l, st), e, universe, n, Remaining(l.seen, e, universe))
  {
    var j :| ListsOnce(st.listing, j, Listed(e, false));
    FailedDispatchSkips(l.seen, e, st.now, n);
    PollOfEvent(l, st, j, Listed(e, false));
    SameAgrees(l.seen, Next(l, st).seen, e);
    assert st.listing[j] in st.listing;
    AgreeAdvances(l, st, e, universe, n);
  }

  lemma OmitStep(l: Listener, st: Step, e: VtnEvent, universe: set<int>, n: int)
    requires l.loaded && Open(l, e) && Omits(st, e)
    ensures Advances(Next(l, st), e, universe, n, Remaining(l.seen, e, universe))
  {
    var scanned := Scan(l.seen, st.listing, st.now);
    ScanOthers(l.seen, st.listing, st.now, e.id);
    SameAgrees(l.seen, scanned, e);
    assert Agree(scanned, Next(l, st).seen, e);
    AgreeAdvances(l, st, e, universe, n);
  }

  /** After a restart the store is what is known, and it holds all that memory held. */
  lemma RestartStep(l: Listener, e: VtnEvent, universe: set<int>, n: int)
    requires Persisted(l) && Open(l, e)
    ensures Advances(Next(l, Restart), e, universe, n, Remaining(Known(l), e, universe))
  {
    forall m | m in Executed(Known(l), e.id, e.modified) ensures m in Executed(l.store, e.id, e.modified) {
      ExecutedIs(Known(l), e, m);
      ExecutedIs(l.store, e, m);
    }
    FewerRemain(universe, Executed(Known(l), e.id, e.modified), Executed(l.store, e.id, e.modified));
  }

  lemma FewerRemain(universe: set<int>, a: set<int>, b: set<int>)
    requires a <= b
    ensures |universe - b| <= |universe - a|
  {
    assert universe - a == (universe - b) + (universe - a) * b;
  }

  /** One tolerable step: progress on a successful dispatch, and no setback otherwise. */
  lemma StepAdvances(l: Listener, st: Step, e: VtnEvent, universe: set<int>, n: int)
    requires Logged(l) && Open(l, e) && n !in Executed(Known(l), e.id, e.modified)
    requires Tolerable(st, e, universe, n)
    ensures var done := if Lists(st, e, true) then 1 else 0;
            Advances(Next(l, st), e, universe, n, Remaining(Known(l), e, universe) - done)
  {
    var l1 := Load(l);
    LoadKnows(l);
    if st.Restart? {
      RestartStep(l, e, universe, n);
    } else if st.Poll? {
      assert Next(l, st) == Next(l1, st);
      if Lists(st, e, true) {
        ServeStep(l1, st, e, universe, n);
      } else if Lists(st, e, false) && ActiveNow(e, st.now, n) {
        FailedStep(l1, st, e, universe, n);
      } else {
        OmitStep(l1, st, e, universe, n);
      }
    }
  }

  lemma LoadKnows(l: Listener)
    requires Logged(l)
    ensures var l1 := Load(l); Logged(l1) && l1.loaded && l1.seen == Known(l) && l1.store == l.store && l1.log == l.log
  {
    if !l.loaded { assert l.seen + l.store == l.store; }
  }

  // ----- whole runs -----

  ghost predicate AllTolerable(run: seq<Step>, e: VtnEvent, universe: set<int>, n: int) {
    forall i :: 0 <= i < |run| ==> Tolerable(run[i], e, universe, n)
  }

  /** The number of polls that list the event with a dispatch that would succeed. */
  ghost function Successes(run: seq<Step>, e: VtnEvent): nat {
    if run == [] then 0 else (if Lists(run[0], e, true) then 1 else 0) + Successes(run[1..], e)
  }

  lemma TolerableTail(run: seq<Step>, e: VtnEvent, universe: set<int>, n: int)
    requires run != [] && AllTolerable(run, e, universe, n)
    ensures Tolerable(run[0], e, universe, n) && AllTolerable(run[1..], e, universe, n)
  {
  }

  lemma SomeRemains(seen: Seen, e: VtnEvent, universe: set<int>, n: int)
    requires n in universe && n !in Executed(seen, e.id, e.modified)
    ensures Remaining(seen, e, universe) > 0
  {
    assert n in universe - Executed(seen, e.id, e.modified);
  }

  lemma KnownIsDone(l: Listener, e: VtnEvent, n: int)
    requires Logged(l) && n in Executed(Known(l), e.id, e.modified)
    ensures DoneBy(l.log, e.id, n, e.modified)
  {
    ExecutedIsDone(Known(l), l.log, e.id, e.modified);
  }

  /**
   Progress: take any run of polls, failed polls, failed dispatches, clean restarts and polls that
   leave a recent event out, in which interval `n` is active whenever the event is listed. If as many
   polls succeed as there are active intervals still to dispatch, `n` has been dispatched at this
   version or later by the end.
   */
  lemma {:induction false} ActiveIntervalsAreDispatched(l: Listener, run: seq<Step>, e: VtnEvent,
                                                        universe: set<int>, n: int)
    requires Logged(l) && Open(l, e)
    requires AllTolerable(run, e, universe, n)
    requires n in universe && Successes(run, e) >= Remaining(Known(l), e, universe)
    ensures DoneBy(Runs(l, run).log, e.id, n, e.modified)
    decreases |run|
  {
    if n in Executed(Known(l), e.id, e.modified) {
      KnownIsDone(l, e, n);
      LogGrows(l, run);
    } else {
      SomeRemains(Known(l), e, universe, n);
      TolerableTail(run, e, universe, n);
      var l', rest := Next(l, run[0]), run[1..];
      StepAdvances(l, run[0], e, universe, n);
      NextLogged(l, run[0]);
      RunsSplit(l, run);
      if DoneBy(l'.log, e.id, n, e.modified) {
        LogGrows(l', rest);
      } else {
        ActiveIntervalsAreDispatched(l', rest, e, universe, n);
      }
    }
  }

  lemma {:induction false} RunsSplit(l: Listener, run: seq<Step>)
    requires run != []
    ensures Runs(l, run) == Runs(Next(l, run[0]), run[1..])
  {
    var n := |run| - 1;
    if n == 0 {
      assert run[..0] == [] && run[1..] == [];
      assert Runs(l, run[..0]) == l;
    } else {
      RunsSplit(l, run[..n]);
      assert run[..n][1..] == run[1..][..n - 1];
    }
  }

  lemma {:induction false} LogGrows(l: Listener, run: seq<Step>)
    ensures l.log <= Runs(l, run).log
    ensures forall id, n, v :: DoneBy(l.log, id, n, v) ==> DoneBy(Runs(l, run).log, id, n, v)
  {
    if run != [] { LogGrows(l, run[..|run| - 1]); }
    forall id, n, v | DoneBy(l.log, id, n, v) ensures DoneBy(Runs(l, run).log, id, n, v) {
      var d :| d in l.log && d.id == id && d.interval == n && d.version >= v;
      assert d in Runs(l, run).log;
    }
  }

  lemma NextLogged(l: Listener, st: Step)
    requires Logged(l)
    ensures Logged(Next(l, st))
  {
    NextPersists(l, st);
    if st.Poll? {
      ScanParts(Load(l).seen, l.log, st.listing, st.now);
      ScanStoreParts(Load(l), st.listing, st.now);
    }
  }

  /** Maps that agree on an event close it alike. */
  lemma ClosesAlike(base: Seen, seen: Seen, log: seq<Dispatched>, x: Listed, now: Instant)
    requires SameFor(base, seen, x.event.id) && PartsLogged(seen, log)
    requires !ClosedFor(base, x.event) && ClosedFor(ScanOne(base, x, now), x.event)
    ensures Finished(x.event, now, log + LogOf(Process(seen, x, now), x.event))
  {
    ProcessSame(base, seen, x, now);
    assert Get(base, Whole(x.event.id)) == Get(seen, Whole(x.event.id));
    assert Get(ScanOne(base, x, now), Whole(x.event.id)) == Get(ScanOne(seen, x, now), Whole(x.event.id));
    ProcessCloses(seen, log, x, now);
  }

  /** A poll's log extends what it logged up to any listed event. */
  lemma {:induction false} PollLogs(l: Listener, st: Step, j: nat)
    requires l.loaded && st.Poll? && j < |st.listing|
    ensures var a, x := st.listing[..j], st.listing[j];
            l.log + ScanLog(l.seen, a, st.now) + LogOf(Process(Scan(l.seen, a, st.now), x, st.now), x.event)
            <= Next(l, st).log
  {
    ScanSnoc(l, st.listing, j, st.now);
    ScanLogPrefix(l.seen, st.listing, j + 1, st.now);
  }

  /** An open event that a poll closes is finished by that poll. */
  lemma ClosedInPoll(l: Listener, st: Step, j: nat, e: VtnEvent)
    requires Logged(l) && l.loaded && st.Poll? && ListsOnce(st.listing, j, Listed(e, true)) && !ClosedFor(l.seen, e)
    requires ClosedFor(ScanOne(l.seen, Listed(e, true), st.now), e)
    ensures Finished(e, st.now, Next(l, st).log)
  {
    var a, x, now := st.listing[..j], st.listing[j], st.now;
    var s1, log1 := Scan(l.seen, a, now), l.log + ScanLog(l.seen, a, now);
    ScanOthers(l.seen, a, now, e.id);
    ScanParts(l.seen, l.log, a, now);
    ClosesAlike(l.seen, s1, log1, x, now);
    PollLogs(l, st, j);
    FinishedStays(e, now, now, log1 + LogOf(Process(s1, x, now), e), Next(l, st).log);
  }

  /** A finished event stays finished as time passes and the log grows. */
  lemma FinishedStays(e: VtnEvent, now: Instant, later: Instant, log: seq<Dispatched>, more: seq<Dispatched>)
    requires Finished(e, now, log) && log <= more && now <= later
    ensures Finished(e, later, more)
  {
    forall sp | sp in FindSetpoints(e.content)
      ensures TimingOf(e.content, sp, later).Past? || DoneBy(more, e.id, sp.interval, e.modified)
    {
      TimingMovesOn(e.content, sp, now, later);
      if DoneBy(log, e.id, sp.interval, e.modified) {
        var d :| d in log && d.id == e.id && d.interval == sp.interval && d.version >= e.modified;
        assert d in more;
      }
    }
  }

  lemma {:induction false} ScanLogPrefix(seen: Seen, listing: seq<Listed>, n: nat, now: Instant)
    requires n <= |listing|
    ensures ScanLog(seen, listing[..n], now) <= ScanLog(seen, listing, now)
  {
    if n < |listing| {
      ScanLogPrefix(seen, listing[..|listing| - 1], n, now);
      assert listing[..|listing| - 1][..n] == listing[..n];
    } else {
      assert listing[..n] == listing;
    }
  }
}
