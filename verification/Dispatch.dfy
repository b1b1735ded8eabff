/**
 The dispatch engine's cooldown. A tick is one call of `evaluate_and_dispatch`: a frequency, the
 instant at which each target's cooldown is read, whether the fleet has capacity, and the joined
 tasks in completion order. Frequencies are reals.
 */
module Dispatch {
  import opened Wrappers
  import opened Windows

  datatype Action = FlexUp | FlexDown

  /** A successful dispatch and the instant it was recorded. */
  datatype Fired = Fired(action: Action, adapter: string, at: Instant) {
    predicate Is(a: Action, name: string) {
      action == a && adapter == name
    }
  }

  datatype Outcome = Done | Failed | Panicked

  datatype Completion = Completion(name: string, outcome: Outcome, at: Instant)

  datatype Config = Config(registry: set<string>, active: seq<string>, low: real, high: real, cooldown: nat)

  datatype Tick = Tick(frequency: real, checks: seq<Instant>, capacity: bool, joined: seq<Completion>)

  // ----- the history of last dispatches -----

  /** The first entry of the pair. */
  function LastOf(h: seq<Fired>, a: Action, name: string): Option<Instant> {
    if h == [] then None
    else if h[0].Is(a, name) then Some(h[0].at)
    else LastOf(h[1..], a, name)
  }

  function Without(h: seq<Fired>, a: Action, name: string): seq<Fired> {
    if h == [] then []
    else
      var n := |h| - 1;
      Without(h[..n], a, name) + if h[n].Is(a, name) then [] else [h[n]]
  }

  function Record(h: seq<Fired>, f: Fired): seq<Fired> {
    Without(h, f.action, f.adapter) + [f]
  }

  predicate CooldownAllows(last: Option<Instant>, cooldown: nat, now: Instant) {
    last.None? || now - last.value >= cooldown
  }

  // ----- one tick -----

  function ActionFor(cfg: Config, frequency: real): Option<Action> {
    if frequency < cfg.low then Some(FlexUp)
    else if frequency > cfg.high then Some(FlexDown)
    else None
  }

  predicate MayFire(cfg: Config, h: seq<Fired>, a: Action, name: string, now: Instant) {
    name in cfg.registry && CooldownAllows(LastOf(h, a, name), cfg.cooldown, now)
  }

  /** The first `n` targets, without those that vanished or sit out a cooldown. */
  function Eligible(cfg: Config, h: seq<Fired>, a: Action, checks: seq<Instant>, n: nat): (r: seq<string>)
    requires n <= |cfg.active| == |checks|
    ensures forall x :: x in r <==> exists i :: 0 <= i < n && cfg.active[i] == x && MayFire(cfg, h, a, x, checks[i])
  {
    if n == 0 then []
    else
      var x := cfg.active[n - 1];
      Eligible(cfg, h, a, checks, n - 1) + if MayFire(cfg, h, a, x, checks[n - 1]) then [x] else []
  }

  /** The targets that a tick dispatches to: none when the frequency is in band or capacity is missing. */
  function Attempted(cfg: Config, h: seq<Fired>, t: Tick): seq<string>
    requires |t.checks| == |cfg.active|
  {
    var a := ActionFor(cfg, t.frequency);
    if a.Some? && t.capacity then Eligible(cfg, h, a.value, t.checks, |cfg.active|) else []
  }

  function Successes(a: Action, joined: seq<Completion>): seq<Fired> {
    if joined == [] then []
    else
      var n := |joined| - 1;
      Successes(a, joined[..n]) + if joined[n].outcome.Done? then [Fired(a, joined[n].name, joined[n].at)] else []
  }

  function RecordAll(h: seq<Fired>, fs: seq<Fired>): seq<Fired> {
    if fs == [] then h else Record(RecordAll(h, fs[..|fs| - 1]), fs[|fs| - 1])
  }

  function FiredBy(cfg: Config, t: Tick): seq<Fired> {
    var a := ActionFor(cfg, t.frequency);
    if a.None? then [] else Successes(a.value, t.joined)
  }

  /** Every attempted target joins exactly once, after every cooldown was read. */
  ghost predicate Joins(cfg: Config, h: seq<Fired>, t: Tick) {
    && |t.checks| == |cfg.active|
    && (forall i, j :: 0 <= i < j < |t.joined| ==> t.joined[i].name != t.joined[j].name)
    && (forall x :: x in Attempted(cfg, h, t) <==> exists k :: 0 <= k < |t.joined| && t.joined[k].name == x)
    && (forall i, k :: 0 <= i < |t.checks| && 0 <= k < |t.joined| ==> t.checks[i] <= t.joined[k].at)
  }

  // ----- runs -----

  function Log(cfg: Config, ticks: seq<Tick>): seq<Fired> {
    if ticks == [] then [] else Log(cfg, ticks[..|ticks| - 1]) + FiredBy(cfg, ticks[|ticks| - 1])
  }

  function History(cfg: Config, ticks: seq<Tick>): seq<Fired> {
    if ticks == [] then [] else RecordAll(History(cfg, ticks[..|ticks| - 1]), FiredBy(cfg, ticks[|ticks| - 1]))
  }

  ghost predicate Legal(cfg: Config, ticks: seq<Tick>) {
    ticks != [] ==>
      var pre := ticks[..|ticks| - 1];
      Legal(cfg, pre) && Joins(cfg, History(cfg, pre), ticks[|ticks| - 1])
  }

  /** The last success of the pair in a log of all successes. */
  function Latest(log: seq<Fired>, a: Action, name: string): Option<Instant> {
    if log == [] then None
    else
      var f := log[|log| - 1];
      if f.Is(a, name) then Some(f.at) else Latest(log[..|log| - 1], a, name)
  }

  ghost predicate OnePerPair(h: seq<Fired>) {
    forall i, j :: 0 <= i < j < |h| ==> !h[j].Is(h[i].action, h[i].adapter)
  }

  // ----- the history remembers the last success of each pair -----

  lemma {:induction false} WithoutIs(h: seq<Fired>, a: Action, name: string)
    ensures forall f :: f in Without(h, a, name) <==> f in h && !f.Is(a, name)
    ensures OnePerPair(h) ==> OnePerPair(Without(h, a, name))
  {
    if h != [] {
      var n := |h| - 1;
      WithoutIs(h[..n], a, name);
      assert forall f :: f in h <==> f in h[..n] || f == h[n];
      if OnePerPair(h) {
        PairUnseen(h[..n], h[n]);
        AppendOnePerPair(Without(h[..n], a, name), h[n]);
      }
    }
  }

  lemma PairUnseen(h: seq<Fired>, f: Fired)
    ensures OnePerPair(h + [f]) ==> forall g :: g in h ==> !g.Is(f.action, f.adapter)
  {
    assert (h + [f])[|h|] == f;
    assert forall i :: 0 <= i < |h| ==> (h + [f])[i] == h[i];
  }

  lemma AppendOnePerPair(h: seq<Fired>, f: Fired)
    requires OnePerPair(h)
    ensures (forall g :: g in h ==> !g.Is(f.action, f.adapter)) ==> OnePerPair(h + [f])
  {
    assert forall i :: 0 <= i < |h| ==> (h + [f])[i] == h[i] && h[i] in h;
  }

  /** With one entry per pair, the lookup is membership. */
  lemma {:induction false} LastOfIs(h: seq<Fired>, a: Action, name: string)
    requires OnePerPair(h)
    ensures LastOf(h, a, name).Some? ==> Fired(a, name, LastOf(h, a, name).value) in h
    ensures forall f :: f in h && f.Is(a, name) ==> LastOf(h, a, name) == Some(f.at)
  {
    if h != [] {
      LastOfIs(h[1..], a, name);
      assert forall f :: f in h <==> f == h[0] || f in h[1..];
    }
  }

  lemma RecordIs(h: seq<Fired>, f: Fired, a: Action, name: string)
    requires OnePerPair(h)
    ensures OnePerPair(Record(h, f))
    ensures LastOf(Record(h, f), a, name) == if f.Is(a, name) then Some(f.at) else LastOf(h, a, name)
  {
    WithoutIs(h, f.action, f.adapter);
    AppendOnePerPair(Without(h, f.action, f.adapter), f);
    LastOfIs(h, a, name);
    LastOfIs(Record(h, f), a, name);
    assert f in Record(h, f);
  }

  lemma {:induction false} RecordAllIs(h: seq<Fired>, log: seq<Fired>, fs: seq<Fired>, a: Action, name: string)
    requires OnePerPair(h) && LastOf(h, a, name) == Latest(log, a, name)
    ensures OnePerPair(RecordAll(h, fs))
    ensures LastOf(RecordAll(h, fs), a, name) == Latest(log + fs, a, name)
  {
    if fs == [] {
      assert log + fs == log;
    } else {
      var n := |fs| - 1;
      RecordAllIs(h, log, fs[..n], a, name);
      RecordIs(RecordAll(h, fs[..n]), fs[n], a, name);
      assert (log + fs)[..|log + fs| - 1] == log + fs[..n];
    }
  }

  /** Over every run the history holds one entry per pair, the pair's last success and nothing else. */
  lemma {:induction false} HistoryIsLatest(cfg: Config, ticks: seq<Tick>, a: Action, name: string)
    ensures OnePerPair(History(cfg, ticks))
    ensures LastOf(History(cfg, ticks), a, name) == Latest(Log(cfg, ticks), a, name)
  {
    if ticks != [] {
      var n := |ticks| - 1;
      HistoryIsLatest(cfg, ticks[..n], a, name);
      RecordAllIs(History(cfg, ticks[..n]), Log(cfg, ticks[..n]), FiredBy(cfg, ticks[n]), a, name);
    }
  }

  /** Eligibility is a matter of the pair's own successes: no other pair and no failure counts. */
  lemma EligibleIff(cfg: Config, ticks: seq<Tick>, a: Action, name: string, now: Instant)
    requires name in cfg.registry
    ensures MayFire(cfg, History(cfg, ticks), a, name, now)
       <==> var last := Latest(Log(cfg, ticks), a, name); last.Some? ==> now >= last.value + cfg.cooldown
  {
    HistoryIsLatest(cfg, ticks, a, name);
  }

  /** A tick whose attempts on a pair all fail leaves the pair as eligible as before. */
  lemma FailureStartsNoCooldown(cfg: Config, ticks: seq<Tick>, t: Tick, a: Action, name: string, now: Instant)
    requires forall k :: 0 <= k < |t.joined| && t.joined[k].name == name ==> !t.joined[k].outcome.Done?
    ensures MayFire(cfg, History(cfg, ticks + [t]), a, name, now) == MayFire(cfg, History(cfg, ticks), a, name, now)
  {
    HistoryIsLatest(cfg, ticks, a, name);
    HistoryIsLatest(cfg, ticks + [t], a, name);
    assert (ticks + [t])[..|ticks|] == ticks;
    var act := ActionFor(cfg, t.frequency);
    if act.Some? { SuccessesJoin(act.value, t.joined); }
    LatestSkips(Log(cfg, ticks), FiredBy(cfg, t), a, name);
  }

  lemma {:induction false} LatestSkips(log: seq<Fired>, fs: seq<Fired>, a: Action, name: string)
    requires forall f :: f in fs ==> !f.Is(a, name)
    ensures Latest(log + fs, a, name) == Latest(log, a, name)
  {
    if fs == [] {
      assert log + fs == log;
    } else {
      LatestSkips(log, fs[..|fs| - 1], a, name);
      assert (log + fs)[..|log + fs| - 1] == log + fs[..|fs| - 1];
    }
  }

  // ----- successes of a pair are a cooldown apart -----

  ghost predicate Spaced(log: seq<Fired>, cooldown: nat) {
    forall i, j :: 0 <= i < j < |log| && log[j].Is(log[i].action, log[i].adapter) ==>
      log[j].at >= log[i].at + cooldown
  }

  lemma SuccessesStep(a: Action, joined: seq<Completion>, i: nat)
    requires i < |joined|
    ensures Successes(a, joined[..i + 1])
         == if joined[i].outcome.Done? then Successes(a, joined[..i]) + [Fired(a, joined[i].name, joined[i].at)]
            else Successes(a, joined[..i])
  {
    assert joined[..i + 1][..i] == joined[..i];
  }

  lemma RecordAllPush(h: seq<Fired>, fs: seq<Fired>, f: Fired)
    ensures RecordAll(h, fs + [f]) == Record(RecordAll(h, fs), f)
  {
    assert (fs + [f])[..|fs|] == fs;
  }

  /** Each success names a joined task that is done. */
  lemma {:induction false} SuccessesJoin(a: Action, joined: seq<Completion>)
    ensures forall f :: f in Successes(a, joined) ==>
      f.action == a && exists k :: 0 <= k < |joined| && joined[k] == Completion(f.adapter, Done, f.at)
  {
    if joined != [] {
      var n := |joined| - 1;
      SuccessesJoin(a, joined[..n]);
      forall f | f in Successes(a, joined)
        ensures f.action == a && exists k :: 0 <= k < |joined| && joined[k] == Completion(f.adapter, Done, f.at)
      {
        if f in Successes(a, joined[..n]) {
          var k :| 0 <= k < n && joined[..n][k] == Completion(f.adapter, Done, f.at);
          assert joined[k] == Completion(f.adapter, Done, f.at);
        } else {
          assert joined[n] == Completion(f.adapter, Done, f.at);
        }
      }
    }
  }

  /** Tasks with distinct names record distinct adapters. */
  lemma {:induction false} SuccessesDistinct(a: Action, joined: seq<Completion>)
    requires forall i, j :: 0 <= i < j < |joined| ==> joined[i].name != joined[j].name
    ensures OnePerPair(Successes(a, joined))
  {
    if joined != [] {
      var n := |joined| - 1;
      SuccessesDistinct(a, joined[..n]);
      SuccessesJoin(a, joined[..n]);
    }
  }

  /** In a spaced log the latest success of a pair is its greatest. */
  lemma {:induction false} LatestBounds(log: seq<Fired>, cooldown: nat, i: nat)
    requires Spaced(log, cooldown) && i < |log|
    ensures var last := Latest(log, log[i].action, log[i].adapter); last.Some? && log[i].at <= last.value
  {
    var n := |log| - 1;
    if i < n && !log[n].Is(log[i].action, log[i].adapter) {
      LatestBounds(log[..n], cooldown, i);
    }
  }

  lemma SpacedAppend(log: seq<Fired>, fs: seq<Fired>, cooldown: nat)
    requires Spaced(log, cooldown) && OnePerPair(fs)
    requires forall f :: f in fs ==>
      var last := Latest(log, f.action, f.adapter); last.Some? ==> f.at >= last.value + cooldown
    ensures Spaced(log + fs, cooldown)
  {
    var both := log + fs;
    forall i, j | |log| <= i < j < |both|
      ensures !both[j].Is(both[i].action, both[i].adapter)
    {
      assert both[i] == fs[i - |log|] && both[j] == fs[j - |log|];
    }
    forall i, j | 0 <= i < j < |both| && both[j].Is(both[i].action, both[i].adapter)
      ensures both[j].at >= both[i].at + cooldown
    {
      if i < |log| <= j {
        LatestBounds(log, cooldown, i);
        assert both[j] in fs;
      }
    }
  }

  /** A success in a tick was allowed at some instant before it was recorded. */
  lemma FiredWasAllowed(cfg: Config, ticks: seq<Tick>, t: Tick, f: Fired)
    requires Joins(cfg, History(cfg, ticks), t) && f in FiredBy(cfg, t)
    ensures var last := Latest(Log(cfg, ticks), f.action, f.adapter); last.Some? ==> f.at >= last.value + cfg.cooldown
  {
    var h, a := History(cfg, ticks), ActionFor(cfg, t.frequency).value;
    SuccessesJoin(a, t.joined);
    var k :| 0 <= k < |t.joined| && t.joined[k] == Completion(f.adapter, Done, f.at);
    assert f.adapter in Attempted(cfg, h, t);
    var i :| 0 <= i < |cfg.active| && cfg.active[i] == f.adapter && MayFire(cfg, h, a, f.adapter, t.checks[i]);
    EligibleIff(cfg, ticks, a, f.adapter, t.checks[i]);
    assert t.checks[i] <= t.joined[k].at;
  }

  /** Over every run, two successes of the same action on the same adapter are a cooldown apart. */
  lemma {:induction false} SuccessesAreSpaced(cfg: Config, ticks: seq<Tick>)
    requires Legal(cfg, ticks)
    ensures Spaced(Log(cfg, ticks), cfg.cooldown)
  {
    if ticks != [] {
      var n := |ticks| - 1;
      var prefix, t := ticks[..n], ticks[n];
      SuccessesAreSpaced(cfg, prefix);
      var a := ActionFor(cfg, t.frequency);
      if a.Some? { SuccessesDistinct(a.value, t.joined); }
      forall f | f in FiredBy(cfg, t)
        ensures var last := Latest(Log(cfg, prefix), f.action, f.adapter);
                last.Some? ==> f.at >= last.value + cfg.cooldown
      {
        FiredWasAllowed(cfg, prefix, t, f);
      }
      SpacedAppend(Log(cfg, prefix), FiredBy(cfg, t), cfg.cooldown);
    }
  }
}

/** Which direction a frequency leads to, and to whom, stated on the frequency and the log alone. */
module DispatchDirections {
  import opened Wrappers
  import opened Windows
  import opened Dispatch

  /** Low frequency asks for more power, high frequency for less; low is tested first. */
  predicate Wants(cfg: Config, frequency: real, a: Action) {
    match a
    case FlexUp => frequency < cfg.low
    case FlexDown => frequency > cfg.high && !(frequency < cfg.low)
  }

  /** Tick `j` joined a successful task for the dispatch, at a frequency that wants it. */
  ghost predicate FiredAt(cfg: Config, ticks: seq<Tick>, j: int, f: Fired) {
    && 0 <= j < |ticks| && Wants(cfg, ticks[j].frequency, f.action)
    && exists k :: 0 <= k < |ticks[j].joined| && ticks[j].joined[k] == Completion(f.adapter, Done, f.at)
  }

  /** Over every run each logged success comes from a tick whose frequency wants that action. */
  lemma {:induction false} SuccessesAreWanted(cfg: Config, ticks: seq<Tick>, f: Fired)
    requires f in Log(cfg, ticks)
    ensures exists j :: FiredAt(cfg, ticks, j, f)
  {
    var n := |ticks| - 1;
    var pre, t := ticks[..n], ticks[n];
    if f in Log(cfg, pre) {
      SuccessesAreWanted(cfg, pre, f);
      var j :| FiredAt(cfg, pre, j, f);
      assert FiredAt(cfg, ticks, j, f);
    } else {
      SuccessesJoin(ActionFor(cfg, t.frequency).value, t.joined);
      assert FiredAt(cfg, ticks, n, f);
    }
  }

  /** And each successful task of a legal tick is logged, for the action its frequency wants. */
  lemma {:induction false} WantedSuccessesAreLogged(cfg: Config, ticks: seq<Tick>, j: nat, k: nat)
    requires Legal(cfg, ticks) && j < |ticks| && k < |ticks[j].joined| && ticks[j].joined[k].outcome.Done?
    ensures exists a :: Wants(cfg, ticks[j].frequency, a)
                     && Fired(a, ticks[j].joined[k].name, ticks[j].joined[k].at) in Log(cfg, ticks)
  {
    var n := |ticks| - 1;
    var pre, t := ticks[..n], ticks[n];
    if j < n {
      WantedSuccessesAreLogged(cfg, pre, j, k);
      var a :| Wants(cfg, pre[j].frequency, a)
            && Fired(a, pre[j].joined[k].name, pre[j].joined[k].at) in Log(cfg, pre);
      assert Wants(cfg, ticks[j].frequency, a);
    } else {
      assert t.joined[k].name in Attempted(cfg, History(cfg, pre), t);
      var a := ActionFor(cfg, t.frequency).value;
      DoneIsSuccess(a, t.joined, k);
      assert Wants(cfg, t.frequency, a);
    }
  }

  lemma {:induction false} DoneIsSuccess(a: Action, joined: seq<Completion>, k: nat)
    requires k < |joined| && joined[k].outcome.Done?
    ensures Fired(a, joined[k].name, joined[k].at) in Successes(a, joined)
  {
    var n := |joined| - 1;
    if k < n {
      DoneIsSuccess(a, joined[..n], k);
    }
  }

  /** A tick in band attempts and logs nothing. */
  lemma {:induction false} InBandIsQuiet(cfg: Config, h: seq<Fired>, t: Tick)
    requires Joins(cfg, h, t) && cfg.low <= t.frequency <= cfg.high
    ensures Attempted(cfg, h, t) == [] && t.joined == [] && FiredBy(cfg, t) == []
  {
    if t.joined != [] { JoinedAttempted(cfg, h, t, 0); }
  }

  lemma {:induction false} JoinedAttempted(cfg: Config, h: seq<Fired>, t: Tick, k: nat)
    requires Joins(cfg, h, t) && k < |t.joined|
    ensures t.joined[k].name in Attempted(cfg, h, t)
  {
  }

  /** Every success of the pair in the log is a cooldown old. */
  ghost predicate CooledDown(log: seq<Fired>, a: Action, name: string, now: Instant, cooldown: nat) {
    forall i :: 0 <= i < |log| && log[i].Is(a, name) ==> log[i].at + cooldown <= now
  }

  lemma {:induction false} LatestIsLogged(log: seq<Fired>, a: Action, name: string)
    ensures var last := Latest(log, a, name);
            last.Some? ==> exists i :: 0 <= i < |log| && log[i] == Fired(a, name, last.value)
  {
    if log != [] {
      var n := |log| - 1;
      if !log[n].Is(a, name) {
        LatestIsLogged(log[..n], a, name);
        assert forall i :: 0 <= i < n ==> log[..n][i] == log[i];
      }
    }
  }

  lemma {:induction false} MayFireIff(cfg: Config, ticks: seq<Tick>, a: Action, name: string, now: Instant)
    requires Legal(cfg, ticks) && name in cfg.registry
    ensures MayFire(cfg, History(cfg, ticks), a, name, now) <==> CooledDown(Log(cfg, ticks), a, name, now, cfg.cooldown)
  {
    var log := Log(cfg, ticks);
    EligibleIff(cfg, ticks, a, name, now);
    SuccessesAreSpaced(cfg, ticks);
    LatestIsLogged(log, a, name);
    forall i: nat | i < |log| && log[i].Is(a, name)
      ensures Latest(log, a, name).Some? && log[i].at <= Latest(log, a, name).value
    {
      LatestBounds(log, cfg.cooldown, i);
    }
  }

  /** The target is configured at `i`, registered, and cooled down in that direction when it is looked at. */
  ghost predicate DueAt(cfg: Config, ticks: seq<Tick>, t: Tick, a: Action, x: string, i: int) {
    && 0 <= i < |cfg.active| && i < |t.checks| && cfg.active[i] == x && x in cfg.registry
    && CooledDown(Log(cfg, ticks), a, x, t.checks[i], cfg.cooldown)
  }

  /**
   After every legal run, a tick with capacity attempts exactly the registered targets that are cooled down
   for the action that its frequency wants; a tick without capacity attempts none.
   */
  lemma {:induction false} AttemptsIff(cfg: Config, ticks: seq<Tick>, t: Tick, a: Action, x: string)
    requires Legal(cfg, ticks) && |t.checks| == |cfg.active| && Wants(cfg, t.frequency, a)
    ensures x in Attempted(cfg, History(cfg, ticks), t) <==> t.capacity && exists i :: DueAt(cfg, ticks, t, a, x, i)
  {
    var h := History(cfg, ticks);
    assert ActionFor(cfg, t.frequency) == Some(a);
    forall i | 0 <= i < |cfg.active| && cfg.active[i] == x
      ensures MayFire(cfg, h, a, x, t.checks[i]) <==> DueAt(cfg, ticks, t, a, x, i)
    {
      if x in cfg.registry { MayFireIff(cfg, ticks, a, x, t.checks[i]); }
    }
    if x in Eligible(cfg, h, a, t.checks, |cfg.active|) {
      var i :| 0 <= i < |cfg.active| && cfg.active[i] == x && MayFire(cfg, h, a, x, t.checks[i]);
      assert DueAt(cfg, ticks, t, a, x, i);
    }
    if i :| DueAt(cfg, ticks, t, a, x, i) {
      assert MayFire(cfg, h, a, x, t.checks[i]);
    }
  }
}

/** The engine object and the selection of its targets. */
module DispatchEngines {
  import opened Wrappers
  import opened Windows
  import opened Text
  import opened Dispatch
  import opened DispatchDirections

  datatype Reply = Ok | NoCapacity | AllFailed

  class DispatchEngine {
    const cfg: Config
    var lastDispatch: seq<Fired>

    constructor (cfg: Config)
      ensures this.cfg == cfg && lastDispatch == []
    {
      this.cfg, lastDispatch := cfg, [];
    }

    method LastDispatchOf(a: Action, name: string) returns (last: Option<Instant>)
      ensures last == LastOf(lastDispatch, a, name)
    {
      for i := 0 to |lastDispatch|
        invariant LastOf(lastDispatch, a, name) == LastOf(lastDispatch[i..], a, name)
      {
        if lastDispatch[i].Is(a, name) {
          return Some(lastDispatch[i].at);
        }
      }
      return None;
    }

    method RecordDispatch(a: Action, name: string, now: Instant)
      modifies this`lastDispatch
      ensures lastDispatch == Record(old(lastDispatch), Fired(a, name, now))
    {
      var kept := [];
      for i := 0 to |lastDispatch|
        invariant lastDispatch == old(lastDispatch)
        invariant kept == Without(lastDispatch[..i], a, name)
      {
        if !lastDispatch[i].Is(a, name) {
          kept := kept + [lastDispatch[i]];
        }
        assert lastDispatch[..i + 1][..i] == lastDispatch[..i];
      }
      assert lastDispatch[..|lastDispatch|] == lastDispatch;
      lastDispatch := kept + [Fired(a, name, now)];
    }

    method FindEligible(a: Action, checks: seq<Instant>) returns (eligible: seq<string>)
      requires |checks| == |cfg.active|
      ensures eligible == Eligible(cfg, lastDispatch, a, checks, |cfg.active|)
    {
      eligible := [];
      for i := 0 to |cfg.active|
        invariant eligible == Eligible(cfg, lastDispatch, a, checks, i)
      {
        var name := cfg.active[i];
        if name in cfg.registry {
          var last := LastDispatchOf(a, name);
          if CooldownAllows(last, cfg.cooldown, checks[i]) {
            eligible := eligible + [name];
          }
        }
      }
    }

    /** The join loop: only a success is recorded. */
    method JoinAll(a: Action, joined: seq<Completion>) returns (fired: nat, errors: nat)
      modifies this`lastDispatch
      ensures lastDispatch == RecordAll(old(lastDispatch), Successes(a, joined))
      ensures fired == |Successes(a, joined)| && fired + errors == |joined|
    {
      fired, errors := 0, 0;
      for i := 0 to |joined|
        invariant lastDispatch == RecordAll(old(lastDispatch), Successes(a, joined[..i]))
        invariant fired == |Successes(a, joined[..i])| && fired + errors == i
      {
        var c := joined[i];
        SuccessesStep(a, joined, i);
        if c.outcome.Done? {
          RecordAllPush(old(lastDispatch), Successes(a, joined[..i]), Fired(a, c.name, c.at));
          RecordDispatch(a, c.name, c.at);
          fired := fired + 1;
        } else {
          errors := errors + 1;
        }
      }
      assert joined[..|joined|] == joined;
    }

    /** Err only when a target was due and none fired; the history changes by the successes alone. */
    method EvaluateAndDispatch(t: Tick) returns (r: Reply)
      requires Joins(cfg, lastDispatch, t)
      modifies this`lastDispatch
      ensures lastDispatch == RecordAll(old(lastDispatch), FiredBy(cfg, t))
      ensures var a := ActionFor(cfg, t.frequency);
              var due := if a.Some? then Eligible(cfg, old(lastDispatch), a.value, t.checks, |cfg.active|) else [];
              && (r == Ok <==> due == [] || FiredBy(cfg, t) != [])
              && (r == NoCapacity <==> due != [] && !t.capacity)
    {
      var action := ActionFor(cfg, t.frequency);
      if action.None? {
        return Ok;
      }
      var eligible := FindEligible(action.value, t.checks);
      if !t.capacity || eligible == [] {
        NothingAttempted(cfg, lastDispatch, t);
        return if eligible == [] then Ok else NoCapacity;
      }
      assert eligible[0] in Attempted(cfg, lastDispatch, t);
      var fired, errors := JoinAll(action.value, t.joined);
      return if errors != 0 && fired == 0 then AllFailed else Ok;
    }
  }

  lemma {:induction false} NothingAttempted(cfg: Config, h: seq<Fired>, t: Tick)
    requires Joins(cfg, h, t) && Attempted(cfg, h, t) == []
    ensures t.joined == [] && FiredBy(cfg, t) == []
  {
    if t.joined != [] { JoinedAttempted(cfg, h, t, 0); }
  }

  // ----- target selection -----

  /** The configured names, in order. */
  function Names(raw: string): seq<string> {
    var parts := Split(raw, ',');
    seq(|parts|, i requires 0 <= i < |parts| => Trim(parts[i]))
  }

  predicate Usable(name: string, registry: set<string>) {
    name != "" && name in registry
  }

  /** `x` is mentioned at position `i` for the first time. */
  predicate FirstMention(names: seq<string>, x: string, i: int) {
    0 <= i < |names| && names[i] == x && x !in names[..i]
  }

  function DefaultAdapter(registry: set<string>): string {
    if "openleadr" in registry then "openleadr" else "ieee"
  }

  /** No repeats, exactly the usable names, in order of first mention. */
  ghost predicate Selects(selected: seq<string>, names: seq<string>, registry: set<string>) {
    && (forall x :: x in selected <==> x in names && Usable(x, registry))
    && (forall i, j :: 0 <= i < j < |selected| ==> selected[i] != selected[j])
    && (forall i, j, p, q ::
          0 <= i < j < |selected| && FirstMention(names, selected[i], p) && FirstMention(names, selected[j], q) ==>
          p < q)
  }

  lemma {:induction false} SelectSkip(selected: seq<string>, names: seq<string>, n: nat, registry: set<string>)
    requires n < |names| && Selects(selected, names[..n], registry)
    requires !Usable(names[n], registry) || names[n] in selected
    ensures Selects(selected, names[..n + 1], registry)
  {
    var longer := names[..n + 1];
    assert longer == names[..n] + [names[n]];
    forall i, j, p, q |
      0 <= i < j < |selected| && FirstMention(longer, selected[i], p) && FirstMention(longer, selected[j], q)
      ensures p < q
    {
      assert selected[i] in names[..n] && selected[j] in names[..n];
      EarlierMention(names, n, selected[i], p);
      EarlierMention(names, n, selected[j], q);
    }
  }

  lemma {:induction false} SelectPush(selected: seq<string>, names: seq<string>, n: nat, registry: set<string>)
    requires n < |names| && Selects(selected, names[..n], registry)
    requires Usable(names[n], registry) && names[n] !in selected
    ensures Selects(selected + [names[n]], names[..n + 1], registry)
  {
    var longer, more := names[..n + 1], selected + [names[n]];
    assert longer == names[..n] + [names[n]];
    forall i, j, p, q |
      0 <= i < j < |more| && FirstMention(longer, more[i], p) && FirstMention(longer, more[j], q)
      ensures p < q
    {
      assert more[i] == selected[i] && selected[i] in names[..n];
      EarlierMention(names, n, selected[i], p);
      if j < |selected| {
        assert more[j] == selected[j] && selected[j] in names[..n];
        EarlierMention(names, n, selected[j], q);
      }
    }
  }

  /** One more name leaves the first mentions of the others where they were. */
  lemma {:induction false} EarlierMention(names: seq<string>, n: nat, x: string, p: int)
    requires n < |names| && x in names[..n] && FirstMention(names[..n + 1], x, p)
    ensures FirstMention(names[..n], x, p)
  {
    assert names[..n + 1][..p] == names[..p];
    assert p < n ==> names[..n][..p] == names[..p];
  }

  lemma {:induction false} SelectsSome(selected: seq<string>, names: seq<string>, registry: set<string>)
    requires Selects(selected, names, registry)
    ensures selected != [] <==> exists x :: x in names && Usable(x, registry)
  {
    if selected != [] { assert selected[0] in names; }
  }

  /** Never empty; the default alone when no configured name is usable. */
  method SelectAdaptersFrom(raw: string, registry: set<string>) returns (selected: seq<string>)
    ensures selected != []
    ensures if exists x :: x in Names(raw) && Usable(x, registry)
            then Selects(selected, Names(raw), registry)
            else selected == [if "openleadr" in registry then "openleadr" else "ieee"]
    ensures "ieee" in registry ==> forall x :: x in selected ==> x in registry
  {
    var names := Names(raw);
    selected := [];
    for n := 0 to |names|
      invariant Selects(selected, names[..n], registry)
    {
      if names[n] != "" && names[n] in registry && names[n] !in selected {
        SelectPush(selected, names, n, registry);
        selected := selected + [names[n]];
      } else {
        SelectSkip(selected, names, n, registry);
      }
    }
    assert names[..|names|] == names;
    SelectsSome(selected, names, registry);
    if selected == [] {
      selected := [DefaultAdapter(registry)];
    }
  }
}
