/**
 The OpenADR 3 VEN listener: one poll decides, dispatches and remembers; the dedup map is
 persisted and reloaded after a restart. Event ids hold no '#', so dedup keys are a datatype.
 Durations are already resolved to a length.
 */
module Ven {
  import opened Wrappers
  import opened Windows

  // ----- events -----

  datatype Period = Period(start: Instant, duration: Option<int>)

  datatype Value = Number(kw: real) | NotNumeric

  datatype PayloadKind = DispatchSetpoint | DispatchSetpointRelative | OtherPayload

  datatype Payload = Payload(kind: PayloadKind, values: seq<Value>)

  datatype Interval = Interval(id: int, payloads: seq<Payload>, period: Option<Period>)

  datatype Content = Content(intervals: Option<seq<Interval>>, period: Option<Period>, duration: Option<int>)

  datatype VtnEvent = VtnEvent(id: string, modified: Instant, content: Content)

  datatype Setpoint = Setpoint(interval: int, kw: real, relative: bool, period: Option<Period>)

  function FirstNumber(values: seq<Value>): Option<real> {
    if values == [] then None
    else if values[0].Number? then Some(values[0].kw)
    else FirstNumber(values[1..])
  }

  /** The first payload that is a setpoint and carries a number. */
  function FirstSetpoint(payloads: seq<Payload>): Option<(bool, real)> {
    if payloads == [] then None
    else
      var n := FirstNumber(payloads[0].values);
      if !payloads[0].kind.OtherPayload? && n.Some? then Some((payloads[0].kind.DispatchSetpointRelative?, n.value))
      else FirstSetpoint(payloads[1..])
  }

  function SetpointsOf(intervals: seq<Interval>): seq<Setpoint> {
    if intervals == [] then []
    else
      var i := intervals[0];
      var rest := SetpointsOf(intervals[1..]);
      match FirstSetpoint(i.payloads)
      case None => rest
      case Some(s) => [Setpoint(i.id, s.1, s.0, i.period)] + rest
  }

  function FindSetpoints(c: Content): seq<Setpoint> {
    if c.intervals.None? then [] else SetpointsOf(c.intervals.value)
  }

  /** Value `v` of payload `p` is the first number of the first setpoint payload that has one. */
  predicate IsFirst(i: Interval, p: int, v: int) {
    && 0 <= p < |i.payloads| && !i.payloads[p].kind.OtherPayload?
    && 0 <= v < |i.payloads[p].values| && i.payloads[p].values[v].Number?
    && (forall w :: 0 <= w < v ==> !i.payloads[p].values[w].Number?)
    && (forall q :: 0 <= q < p ==> i.payloads[q].kind.OtherPayload? || NoNumber(i.payloads[q].values))
  }

  predicate NoNumber(values: seq<Value>) {
    forall w :: 0 <= w < |values| ==> !values[w].Number?
  }

  lemma {:induction false} FirstNumberIs(values: seq<Value>) returns (v: nat)
    ensures FirstNumber(values).None? <==> NoNumber(values)
    ensures FirstNumber(values).Some? ==>
      && v < |values| && values[v] == Number(FirstNumber(values).value)
      && forall w :: 0 <= w < v ==> !values[w].Number?
  {
    v := 0;
    if values != [] && !values[0].Number? {
      var u := FirstNumberIs(values[1..]);
      assert forall w :: 1 <= w < |values| ==> values[w] == values[1..][w - 1];
      assert NoNumber(values) <==> NoNumber(values[1..]);
      v := u + 1;
    }
  }

  lemma {:induction false} FirstSetpointIs(i: Interval) returns (p: nat, v: nat)
    ensures FirstSetpoint(i.payloads).None? <==>
      forall q :: 0 <= q < |i.payloads| ==> i.payloads[q].kind.OtherPayload? || NoNumber(i.payloads[q].values)
    ensures FirstSetpoint(i.payloads).Some? ==>
      && IsFirst(i, p, v)
      && FirstSetpoint(i.payloads).value
         == (i.payloads[p].kind.DispatchSetpointRelative?, i.payloads[p].values[v].kw)
    decreases |i.payloads|
  {
    p, v := 0, 0;
    if i.payloads != [] {
      v := FirstNumberIs(i.payloads[0].values);
      if i.payloads[0].kind.OtherPayload? || FirstNumber(i.payloads[0].values).None? {
        var rest := i.(payloads := i.payloads[1..]);
        assert forall q :: 1 <= q < |i.payloads| ==> i.payloads[q] == rest.payloads[q - 1];
        var u;
        u, v := FirstSetpointIs(rest);
        p := u + 1;
      }
    }
  }

  /** `sp` is the setpoint of the interval. */
  ghost predicate Carries(i: Interval, sp: Setpoint) {
    exists p, v :: IsFirst(i, p, v) && sp == SetpointAt(i, p, v)
  }

  lemma {:induction false} SetpointsAppend(a: seq<Interval>, b: seq<Interval>)
    ensures SetpointsOf(a + b) == SetpointsOf(a) + SetpointsOf(b)
  {
    if a == [] {
      assert a + b == b;
    } else {
      SetpointsAppend(a[1..], b);
      assert (a + b)[1..] == a[1..] + b;
    }
  }

  lemma SetpointOfOne(i: Interval, sp: Setpoint)
    ensures |SetpointsOf([i])| <= 1 && (SetpointsOf([i]) == [sp] <==> Carries(i, sp))
  {
    var p, v := FirstSetpointIs(i);
    assert [i][1..] == [];
    if FirstSetpoint(i.payloads).Some? {
      assert SetpointsOf([i]) == [SetpointAt(i, p, v)] && Carries(i, SetpointAt(i, p, v));
      if Carries(i, sp) { CarriesOne(i, sp, SetpointAt(i, p, v)); }
    }
  }

  /**
   The setpoints come in the order of the intervals: wherever an interval stands, it contributes its own
   setpoint between those before and those after it, or nothing if it carries none.
   */
  lemma SetpointsAre(a: seq<Interval>, i: Interval, b: seq<Interval>)
    ensures SetpointsOf(a + [i] + b) == SetpointsOf(a) + SetpointsOf([i]) + SetpointsOf(b)
    ensures |SetpointsOf([i])| <= 1 && forall sp :: SetpointsOf([i]) == [sp] <==> Carries(i, sp)
  {
    SetpointsAppend(a + [i], b);
    SetpointsAppend(a, [i]);
    forall sp ensures |SetpointsOf([i])| <= 1 && (SetpointsOf([i]) == [sp] <==> Carries(i, sp)) {
      SetpointOfOne(i, sp);
    }
    SetpointOfOne(i, Setpoint(0, 0.0, false, None));
  }

  function SetpointAt(i: Interval, p: int, v: int): Setpoint
    requires IsFirst(i, p, v)
  {
    Setpoint(i.id, i.payloads[p].values[v].kw, i.payloads[p].kind.DispatchSetpointRelative?, i.period)
  }

  /** An interval carries at most one setpoint. */
  lemma CarriesOne(i: Interval, a: Setpoint, b: Setpoint)
    requires Carries(i, a) && Carries(i, b)
    ensures a == b
  {
  }

  // ----- one decision -----

  datatype Timing = Active | Future | Past

  /** The interval's own period wins over the event's; no period means as soon as possible. */
  function TimingOf(c: Content, sp: Setpoint, now: Instant): Timing {
    var period := if sp.period.Some? then sp.period else c.period;
    match period
    case None => Active
    case Some(p) =>
      var duration := if p.duration.Some? then p.duration else c.duration;
      if now < p.start then Future
      else if duration.None? || now < p.start + duration.value then Active
      else Past
  }

  /** The interval's own period, else the event's. */
  predicate Governs(p: Period, c: Content, sp: Setpoint) {
    sp.period == Some(p) || (sp.period.None? && c.period == Some(p))
  }

  /** The period's own length, else the event's; an open-ended period has none. */
  predicate Lasts(p: Period, c: Content, length: int) {
    p.duration == Some(length) || (p.duration.None? && c.duration == Some(length))
  }

  /** The setpoint is due: at or after the start of its period and before its end, if it has either. */
  ghost predicate InWindow(c: Content, sp: Setpoint, now: Instant) {
    forall p :: Governs(p, c, sp) ==> p.start <= now && forall n :: Lasts(p, c, n) ==> now < p.start + n
  }

  /** Active exactly inside the window, future exactly before its start, past exactly from its end on. */
  lemma TimingIs(c: Content, sp: Setpoint, now: Instant)
    ensures TimingOf(c, sp, now).Active? <==> InWindow(c, sp, now)
    ensures TimingOf(c, sp, now).Future? <==> exists p :: Governs(p, c, sp) && now < p.start
    ensures TimingOf(c, sp, now).Past? <==>
      exists p, n :: Governs(p, c, sp) && Lasts(p, c, n) && p.start <= now && p.start + n <= now
  {
    var period := if sp.period.Some? then sp.period else c.period;
    if period.Some? {
      var p := period.value;
      assert Governs(p, c, sp);
      var length := if p.duration.Some? then p.duration else c.duration;
      if length.Some? { assert Lasts(p, c, length.value); }
    }
  }

  /** Time only moves a setpoint forward: from future to active to past. */
  lemma TimingMovesOn(c: Content, sp: Setpoint, now: Instant, later: Instant)
    requires now <= later
    ensures TimingOf(c, sp, now).Past? ==> TimingOf(c, sp, later).Past?
    ensures TimingOf(c, sp, later).Future? ==> TimingOf(c, sp, now).Future?
  {
  }

  datatype Decision =
    | Execute(kw: real, interval: int, morePending: bool, relative: bool)
    | NotYetActive
    | Expired
    | NotDispatch

  predicate Pending(c: Content, sp: Setpoint, now: Instant, executed: set<int>) {
    TimingOf(c, sp, now).Active? && sp.interval !in executed
  }

  function PendingSetpoints(c: Content, sps: seq<Setpoint>, now: Instant, executed: set<int>): seq<Setpoint> {
    if sps == [] then []
    else
      var pre, sp := sps[..|sps| - 1], sps[|sps| - 1];
      PendingSetpoints(c, pre, now, executed) + if Pending(c, sp, now, executed) then [sp] else []
  }

  predicate AnyFuture(c: Content, sps: seq<Setpoint>, now: Instant) {
    exists i :: 0 <= i < |sps| && TimingOf(c, sps[i], now).Future?
  }

  function Decide(c: Content, now: Instant, executed: set<int>): Decision {
    var sps := FindSetpoints(c);
    var pending := PendingSetpoints(c, sps, now, executed);
    var future := AnyFuture(c, sps, now);
    if sps == [] then NotDispatch
    else if pending != [] then Execute(pending[0].kw, pending[0].interval, future || |pending| > 1, pending[0].relative)
    else if future then NotYetActive
    else Expired
  }

  method DecideEvent(c: Content, now: Instant, executed: set<int>) returns (d: Decision)
    ensures d == Decide(c, now, executed)
  {
    var sps := FindSetpoints(c);
    if sps == [] {
      return NotDispatch;
    }
    var anyFuture := false;
    var pending: seq<Setpoint> := [];
    for i := 0 to |sps|
      invariant anyFuture <==> AnyFuture(c, sps[..i], now)
      invariant pending == PendingSetpoints(c, sps[..i], now, executed)
    {
      var sp := sps[i];
      assert sps[..i + 1][..i] == sps[..i];
      assert forall j :: 0 <= j < i ==> sps[..i + 1][j] == sps[..i][j];
      var timing := TimingOf(c, sp, now);
      if timing.Future? {
        anyFuture := true;
        assert TimingOf(c, sps[..i + 1][i], now).Future?;
      }
      if timing.Active? && sp.interval !in executed {
        pending := pending + [sp];
      }
    }
    assert sps[..|sps|] == sps;
    if pending != [] {
      var first := pending[0];
      d := Execute(first.kw, first.interval, anyFuture || |pending| > 1, first.relative);
    } else if anyFuture {
      d := NotYetActive;
    } else {
      d := Expired;
    }
  }

  /** Exactly the pending setpoints are listed. */
  lemma {:induction false} PendingListed(c: Content, sps: seq<Setpoint>, now: Instant, executed: set<int>, sp: Setpoint)
    ensures sp in PendingSetpoints(c, sps, now, executed) <==> sp in sps && Pending(c, sp, now, executed)
  {
    if sps != [] {
      var pre, last := sps[..|sps| - 1], sps[|sps| - 1];
      PendingListed(c, pre, now, executed, sp);
      assert sps == pre + [last];
    }
  }

  /**
   What a decision promises: an executed interval is active and new; an event is only given up
   (expired, or executed with nothing more pending) when every setpoint is past its window, was
   executed before, or is the one being executed.
   */
  lemma DecisionSound(c: Content, now: Instant, executed: set<int>)
    ensures var d := Decide(c, now, executed);
            && (d.Execute? ==>
                  exists sp :: sp in FindSetpoints(c) && sp.interval == d.interval && sp.kw == d.kw
                               && Pending(c, sp, now, executed))
            && (d.Expired? || d.NotDispatch? || (d.Execute? && !d.morePending) ==>
                  forall sp :: sp in FindSetpoints(c) ==>
                    TimingOf(c, sp, now).Past? || sp.interval in executed || (d.Execute? && sp.interval == d.interval))
            && (d.NotYetActive? || d.Expired? || d.NotDispatch? <==>
                  forall sp :: sp in FindSetpoints(c) ==> !Pending(c, sp, now, executed))
  {
    var sps := FindSetpoints(c);
    var pending := PendingSetpoints(c, sps, now, executed);
    forall sp ensures sp in pending <==> sp in sps && Pending(c, sp, now, executed) {
      PendingListed(c, sps, now, executed, sp);
    }
    if pending != [] { assert pending[0] in pending; }
    forall sp | sp in sps && TimingOf(c, sp, now).Future? ensures AnyFuture(c, sps, now) {
      var i :| 0 <= i < |sps| && sps[i] == sp;
    }
  }

  /** Position `k` holds a setpoint that is due and not executed. */
  predicate PendingAt(c: Content, sps: seq<Setpoint>, k: int, now: Instant, executed: set<int>) {
    0 <= k < |sps| && Pending(c, sps[k], now, executed)
  }

  /** Position `k` is the first pending one. */
  ghost predicate FirstPending(c: Content, sps: seq<Setpoint>, k: int, now: Instant, executed: set<int>) {
    PendingAt(c, sps, k, now, executed) && forall j :: 0 <= j < k ==> !PendingAt(c, sps, j, now, executed)
  }

  /** Something is left for a later poll: a future setpoint, or a pending one at another position. */
  ghost predicate MoreThan(c: Content, sps: seq<Setpoint>, k: int, now: Instant, executed: set<int>) {
    AnyFuture(c, sps, now) || exists j :: j != k && PendingAt(c, sps, j, now, executed)
  }

  lemma PrefixPending(c: Content, sps: seq<Setpoint>, n: nat, now: Instant, executed: set<int>)
    requires n <= |sps|
    ensures forall j :: j < n ==> (PendingAt(c, sps[..n], j, now, executed) <==> PendingAt(c, sps, j, now, executed))
  {
  }

  /** The head of the pending list is at the first pending position, and its length counts the positions. */
  lemma {:induction false} PendingHead(c: Content, sps: seq<Setpoint>, now: Instant, executed: set<int>)
    returns (k: nat)
    ensures PendingSetpoints(c, sps, now, executed) == [] <==> forall j :: !PendingAt(c, sps, j, now, executed)
    ensures PendingSetpoints(c, sps, now, executed) != [] ==>
      FirstPending(c, sps, k, now, executed) && PendingSetpoints(c, sps, now, executed)[0] == sps[k]
    ensures PendingSetpoints(c, sps, now, executed) != [] ==>
      (|PendingSetpoints(c, sps, now, executed)| > 1 <==> exists j :: j != k && PendingAt(c, sps, j, now, executed))
  {
    k := 0;
    if sps != [] {
      var n := |sps| - 1;
      var pre := sps[..n];
      k := PendingHead(c, pre, now, executed);
      PrefixPending(c, sps, n, now, executed);
      var before, here := PendingSetpoints(c, pre, now, executed), PendingAt(c, sps, n, now, executed);
      assert PendingSetpoints(c, sps, now, executed) == before + if here then [sps[n]] else [];
      if before == [] {
        assert forall j :: PendingAt(c, sps, j, now, executed) ==> j == n;
        if here { k := n; }
      } else {
        assert PendingAt(c, sps, k, now, executed);
        if |before| > 1 {
          var j :| j != k && PendingAt(c, pre, j, now, executed);
          assert PendingAt(c, sps, j, now, executed);
        }
      }
    }
  }

  /**
   The decision exactly: the first pending setpoint in the order of the intervals, with its own power and
   kind, and whether anything is left; otherwise which of the three empty cases holds.
   */
  lemma DecisionIs(c: Content, now: Instant, executed: set<int>) returns (k: nat)
    ensures var sps, d := FindSetpoints(c), Decide(c, now, executed);
            && (d.Execute? <==> exists j :: PendingAt(c, sps, j, now, executed))
            && (d.Execute? ==>
                  && FirstPending(c, sps, k, now, executed)
                  && d.kw == sps[k].kw && d.interval == sps[k].interval && d.relative == sps[k].relative
                  && (d.morePending <==> MoreThan(c, sps, k, now, executed)))
            && (d.NotDispatch? <==> sps == [])
            && (d.NotYetActive? <==> !d.Execute? && AnyFuture(c, sps, now))
            && (d.Expired? <==> sps != [] && !d.Execute? && !AnyFuture(c, sps, now))
  {
    k := PendingHead(c, FindSetpoints(c), now, executed);
  }

  datatype Direction = FlexUp | FlexDown

  /** Sign to direction; the magnitude is never negative and the pair determines the setpoint. */
  function SetpointToDispatch(kw: real): (r: (Direction, real))
    ensures r.1 >= 0.0 && kw == (if r.0.FlexUp? then r.1 else -r.1) && (kw == 0.0 ==> r.0 == FlexUp)
  {
    if kw >= 0.0 then (FlexUp, kw) else (FlexDown, -kw)
  }

  // ----- the dedup map -----

  datatype Key = Whole(id: string) | Part(id: string, interval: int)

  type Seen = map<Key, Instant>

  /** A successful dispatch of one interval of one version of an event. */
  datatype Dispatched = Dispatched(id: string, interval: int, version: Instant)

  /** A listed event together with whether a dispatch for it would succeed in this poll. */
  datatype Listed = Listed(event: VtnEvent, ok: bool)

  predicate AtLeast(seen: Seen, k: Key, v: Instant) {
    k in seen && seen[k] >= v
  }

  /** Intervals executed for this version of the event or a later one. */
  function Executed(seen: Seen, id: string, v: Instant): set<int> {
    set k | k in seen && k.Part? && k.id == id && seen[k] >= v :: k.interval
  }

  /** What processing one event writes: the dedup key, and the dispatch if there was one. */
  datatype Outcome = Skipped | Marked(key: Key) | Fired(key: Key, interval: int, kw: real)

  function Process(seen: Seen, l: Listed, now: Instant): Outcome {
    var e := l.event;
    if AtLeast(seen, Whole(e.id), e.modified) then Skipped
    else
      match Decide(e.content, now, Executed(seen, e.id, e.modified))
      case NotDispatch => Marked(Whole(e.id))
      case Expired => Marked(Whole(e.id))
      case NotYetActive => Skipped
      case Execute(kw, interval, morePending, _) =>
        if l.ok then Fired(if morePending then Part(e.id, interval) else Whole(e.id), interval, kw) else Skipped
  }

  function MarkSeen(seen: Seen, o: Outcome, v: Instant): Seen {
    if o.Skipped? then seen else seen[o.key := v]
  }

  function LogOf(o: Outcome, e: VtnEvent): seq<Dispatched> {
    if o.Fired? then [Dispatched(e.id, o.interval, e.modified)] else []
  }

  /** The command that the adapter gets. */
  function SentOf(o: Outcome): seq<(Direction, real)> {
    if o.Fired? then [SetpointToDispatch(o.kw)] else []
  }

  /** The dedup map after one listed event. */
  function ScanOne(seen: Seen, l: Listed, now: Instant): Seen {
    MarkSeen(seen, Process(seen, l, now), l.event.modified)
  }

  /** The dedup map after a listing, oldest first. */
  function Scan(seen: Seen, listing: seq<Listed>, now: Instant): Seen {
    if listing == [] then seen
    else ScanOne(Scan(seen, listing[..|listing| - 1], now), listing[|listing| - 1], now)
  }

  function ScanLog(seen: Seen, listing: seq<Listed>, now: Instant): seq<Dispatched> {
    if listing == [] then []
    else
      var pre, l := listing[..|listing| - 1], listing[|listing| - 1];
      ScanLog(seen, pre, now) + LogOf(Process(Scan(seen, pre, now), l, now), l.event)
  }

  function ScanSent(seen: Seen, listing: seq<Listed>, now: Instant): seq<(Direction, real)> {
    if listing == [] then []
    else
      var pre, l := listing[..|listing| - 1], listing[|listing| - 1];
      ScanSent(seen, pre, now) + SentOf(Process(Scan(seen, pre, now), l, now))
  }

  const PRUNE_AGE := 7 * NANOS_PER_DAY

  function Present(listing: seq<Listed>): set<string> {
    set l | l in listing :: l.event.id
  }

  /** Keys of events that are no longer listed and whose version is old. */
  function Stale(seen: Seen, listing: seq<Listed>, now: Instant): set<Key> {
    set k | k in seen && k.id !in Present(listing) && seen[k] < now - PRUNE_AGE
  }

  // ----- the listener over polls and restarts -----

  /** `log` and `sent` list the successful dispatches and their commands. */
  datatype Listener =
    Listener(seen: Seen, store: Seen, loaded: bool, log: seq<Dispatched>, sent: seq<(Direction, real)>)

  const FRESH := Listener(map[], map[], false, [], [])

  datatype Step =
    /** A successful poll; `kept` are pruned keys whose deletion in the store failed. */
    | Poll(listing: seq<Listed>, now: Instant, kept: set<Key>)
    | PollFailed
    | Restart

  function Load(l: Listener): Listener {
    if l.loaded then l else l.(seen := l.seen + l.store, loaded := true)
  }

  function Next(l: Listener, st: Step): Listener {
    match st
    case Restart => l.(seen := map[], loaded := false)
    case PollFailed => Load(l)
    case Poll(listing, now, kept) =>
      var l1 := Load(l);
      var scanned := Scan(l1.seen, listing, now);
      var stale := Stale(scanned, listing, now);
      Listener(scanned - stale, ScanStore(l1, listing, now) - (stale - kept), true,
               l1.log + ScanLog(l1.seen, listing, now), l1.sent + ScanSent(l1.seen, listing, now))
  }

  /** Every mark is persisted before it enters the map. */
  function ScanStore(l: Listener, listing: seq<Listed>, now: Instant): Seen {
    if listing == [] then l.store
    else
      var pre, x := listing[..|listing| - 1], listing[|listing| - 1];
      MarkSeen(ScanStore(l, pre, now), Process(Scan(l.seen, pre, now), x, now), x.event.modified)
  }

  lemma {:induction false} ScanSnoc(l: Listener, listing: seq<Listed>, i: nat, now: Instant)
    requires i < |listing|
    ensures var pre, x := listing[..i], listing[i];
            var o := Process(Scan(l.seen, pre, now), x, now);
            && Scan(l.seen, listing[..i + 1], now) == MarkSeen(Scan(l.seen, pre, now), o, x.event.modified)
            && ScanStore(l, listing[..i + 1], now) == MarkSeen(ScanStore(l, pre, now), o, x.event.modified)
            && ScanLog(l.seen, listing[..i + 1], now) == ScanLog(l.seen, pre, now) + LogOf(o, x.event)
            && ScanSent(l.seen, listing[..i + 1], now) == ScanSent(l.seen, pre, now) + SentOf(o)
  {
    assert listing[..i + 1][..i] == listing[..i];
  }

  function Runs(l: Listener, run: seq<Step>): Listener {
    if run == [] then l else Next(Runs(l, run[..|run| - 1]), run[|run| - 1])
  }

  /** What the listener knows: its map, or the store that it will load. */
  function Known(l: Listener): Seen {
    if l.loaded then l.seen else l.store
  }
}
