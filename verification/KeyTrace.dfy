/**
 The key cache in company: any number of single and batch calls interleave, and the store changes under
 them. A call looks a key up, fetches what it misses, and puts a clean answer into the cache some time
 later; a ticket ties a put to its fetch. A batch is one ticket for each of its misses.
 */
module KeyTrace {
  import opened Wrappers
  import opened Windows
  import opened Results
  import opened KeyCache
  import opened KeyBatch

  datatype Event =
    | Change(values: map<Id, Raw>)
    | Lookup(id: Id, now: Instant)
    | Fetch(ticket: nat, id: Id, at: Instant)
    | Put(ticket: nat, began: Instant, locked: Instant)

  /** A clean answer on its way to the cache. */
  datatype Answered = Answered(id: Id, verdict: Verdict, at: Instant)

  datatype State = State(values: map<Id, Raw>, cache: Cache, pending: map<nat, Answered>)

  function VerdictIn(w: World, values: map<Id, Raw>, id: Id): Result<Verdict, VerifyError> {
    Fetched(w.(values := values), id)
  }

  function Next(w: World, s: State, e: Event): State {
    match e
    case Change(values) => s.(values := values)
    case Lookup(id, now) => s.(cache := Looked(s.cache, id, now))
    case Fetch(n, id, at) =>
      var v := VerdictIn(w, s.values, id);
      s.(pending := if v.Ok? then s.pending[n := Answered(id, v.value, at)] else s.pending - {n})
    case Put(n, began, locked) =>
      if n !in s.pending then s
      else
        var a := s.pending[n];
        s.(cache := Stored(s.cache, w.ttl, a.id, a.verdict, began, locked), pending := s.pending - {n})
  }

  function After(w: World, s: State, es: seq<Event>): State {
    if es == [] then s else Next(w, After(w, s, es[..|es| - 1]), es[|es| - 1])
  }

  /** The clock of an event; the store changes on its own. */
  predicate NotAfter(e: Event, now: Instant) {
    match e
    case Change(_) => true
    case Lookup(_, t) => t <= now
    case Fetch(_, _, t) => t <= now
    case Put(_, began, locked) => began <= locked <= now
  }

  /** Every event lies before `now`, and a put reads its first clock after its fetch. */
  ghost predicate Timely(w: World, s: State, es: seq<Event>, now: Instant) {
    forall j :: 0 <= j < |es| ==>
      && NotAfter(es[j], now)
      && (Puts(w, s, es, j) ==> PendingAt(w, s, es, j).at <= es[j].began)
  }

  /** The event at `j` is a put with an answer to put. */
  predicate Puts(w: World, s: State, es: seq<Event>, j: int) {
    0 <= j < |es| && es[j].Put? && es[j].ticket in After(w, s, es[..j]).pending
  }

  function PendingAt(w: World, s: State, es: seq<Event>, j: int): Answered
    requires Puts(w, s, es, j)
  {
    After(w, s, es[..j]).pending[es[j].ticket]
  }

  // ----- where a cached answer comes from -----

  /** The fetch at `i` read `a` from the store as it was then, and its ticket was not used since. */
  ghost predicate Read(w: World, s: State, es: seq<Event>, i: int, n: nat, a: Answered) {
    && 0 <= i < |es| && es[i] == Fetch(n, a.id, a.at)
    && VerdictIn(w, After(w, s, es[..i]).values, a.id) == Ok(a.verdict)
    && forall m :: i < m < |es| ==> !(es[m].Fetch? && es[m].ticket == n) && !(es[m].Put? && es[m].ticket == n)
  }

  lemma {:induction false} PendingWasRead(w: World, s: State, es: seq<Event>, n: nat) returns (i: nat)
    requires s.pending == map[] && n in After(w, s, es).pending
    ensures Read(w, s, es, i, n, After(w, s, es).pending[n])
  {
    var m := |es| - 1;
    var pre, e := es[..m], es[m];
    if e.Fetch? && e.ticket == n {
      i := m;
    } else {
      i := PendingWasRead(w, s, pre, n);
      assert es[..i] == pre[..i];
    }
  }

  /** The last put of `id`, as an entry that never leaves. */
  function LastPut(w: World, s: State, es: seq<Event>, id: Id): Option<Entry> {
    if es == [] then None
    else
      var m := |es| - 1;
      if Puts(w, s, es, m) && PendingAt(w, s, es, m).id == id
      then
        var v := PendingAt(w, s, es, m).verdict;
        Some(Entry(v, es[m].began + w.ttl.For(v)))
      else LastPut(w, s, es[..m], id)
  }

  lemma {:induction false} AnswersAreLastPuts(w: World, s: State, es: seq<Event>, id: Id, now: Instant)
    requires s.cache.entries == map[] && forall j :: 0 <= j < |es| ==> NotAfter(es[j], now)
    ensures var e := LastPut(w, s, es, id);
            Answer(After(w, s, es).cache, id, now)
            == if e.Some? && e.value.expires > now then Some(e.value.verdict) else None
  {
    if es != [] {
      var m := |es| - 1;
      AnswersAreLastPuts(w, s, es[..m], id, now);
      var c := After(w, s, es[..m]).cache;
      if es[m].Lookup? {
        NextKeepsAnswers(c, w.ttl, Look(es[m].id, es[m].now), id, now);
      } else if Puts(w, s, es, m) {
        var a := PendingAt(w, s, es, m);
        NextKeepsAnswers(c, w.ttl, Store(a.id, a.verdict, es[m].began, es[m].locked), id, now);
      }
    }
  }

  /** The put at `j` is the last one of `id`. */
  ghost predicate IsLastPut(w: World, s: State, es: seq<Event>, j: int, id: Id) {
    && Puts(w, s, es, j) && PendingAt(w, s, es, j).id == id
    && forall m :: j < m < |es| && Puts(w, s, es, m) ==> PendingAt(w, s, es, m).id != id
  }

  lemma PutsInPrefix(w: World, s: State, es: seq<Event>, n: nat, j: int)
    requires n <= |es| && j < n
    ensures Puts(w, s, es[..n], j) <==> Puts(w, s, es, j)
    ensures Puts(w, s, es, j) ==> PendingAt(w, s, es[..n], j) == PendingAt(w, s, es, j)
  {
    if 0 <= j { assert es[..n][..j] == es[..j]; }
  }

  lemma {:induction false} LastPutIs(w: World, s: State, es: seq<Event>, id: Id) returns (j: nat)
    requires LastPut(w, s, es, id).Some?
    ensures IsLastPut(w, s, es, j, id)
    ensures var v := PendingAt(w, s, es, j).verdict;
            LastPut(w, s, es, id) == Some(Entry(v, es[j].began + w.ttl.For(v)))
  {
    var m := |es| - 1;
    if Puts(w, s, es, m) && PendingAt(w, s, es, m).id == id {
      j := m;
    } else {
      j := LastPutIs(w, s, es[..m], id);
      PutsInPrefix(w, s, es, m, j);
      forall k | j < k < |es| && Puts(w, s, es, k) ensures PendingAt(w, s, es, k).id != id {
        if k < m { PutsInPrefix(w, s, es, m, k); }
      }
    }
  }

  lemma {:induction false} IsLastPutGives(w: World, s: State, es: seq<Event>, j: nat, id: Id)
    requires IsLastPut(w, s, es, j, id)
    ensures var v := PendingAt(w, s, es, j).verdict;
            LastPut(w, s, es, id) == Some(Entry(v, es[j].began + w.ttl.For(v)))
  {
    var m := |es| - 1;
    if j < m {
      PutsInPrefix(w, s, es, m, j);
      forall k | j < k < m && Puts(w, s, es[..m], k) ensures PendingAt(w, s, es[..m], k).id != id {
        PutsInPrefix(w, s, es, m, k);
      }
      IsLastPutGives(w, s, es[..m], j, id);
    }
  }

  /** The put at `j` is the last one of `id`; it carries what the fetch at `i` read from the store, and is fresh. */
  ghost predicate Fresh(w: World, s: State, es: seq<Event>, i: int, j: int, id: Id, v: Verdict, now: Instant) {
    && IsLastPut(w, s, es, j, id) && PendingAt(w, s, es, j).verdict == v
    && Read(w, s, es[..j], i, es[j].ticket, PendingAt(w, s, es, j))
    && es[i].at <= es[j].began <= now < es[j].began + (if v.Some? then w.ttl.positive else w.ttl.negative)
  }

  /**
   Over every interleaving of calls with a changing store: a verdict is answered exactly when the last
   put of the id carries it, that put is less than the verdict's TTL old, and its fetch read the verdict
   from the store as it was at the fetch.
   */
  lemma CachedAnswerWasInStore(w: World, s: State, es: seq<Event>, id: Id, v: Verdict, now: Instant)
    requires s.cache.entries == map[] && s.pending == map[] && Timely(w, s, es, now)
    ensures Answer(After(w, s, es).cache, id, now) == Some(v) <==> exists i, j :: Fresh(w, s, es, i, j, id, v, now)
  {
    AnswersAreLastPuts(w, s, es, id, now);
    if Answer(After(w, s, es).cache, id, now) == Some(v) {
      var j := LastPutIs(w, s, es, id);
      var i := PendingWasRead(w, s, es[..j], es[j].ticket);
      assert NotAfter(es[j], now);
      assert Fresh(w, s, es, i, j, id, v, now);
    }
    if i, j :| Fresh(w, s, es, i, j, id, v, now) {
      IsLastPutGives(w, s, es, j, id);
    }
  }

  // ----- one snapshot: interleaving changes no resolution -----

  /** The store does not change, and a call fetches only what it has looked up and missed. */
  ghost predicate OneSnapshot(w: World, s: State, es: seq<Event>) {
    forall i :: 0 <= i < |es| ==> !es[i].Change? && (es[i].Fetch? ==> Missed(w, s, es, i))
  }

  ghost predicate Missed(w: World, s: State, es: seq<Event>, i: int)
    requires 0 <= i < |es| && es[i].Fetch?
  {
    exists h :: 0 <= h < i && MissesAt(w, s, es, h, es[i].id)
  }

  ghost predicate MissesAt(w: World, s: State, es: seq<Event>, h: int, id: Id) {
    && 0 <= h < |es| && es[h].Lookup? && es[h].id == id
    && Answer(After(w, s, es[..h]).cache, id, es[h].now).None?
  }

  /** Clocks of the trace do not go back. */
  ghost predicate Clocked(es: seq<Event>) {
    forall i, j :: 0 <= i < j < |es| && !es[j].Change? ==> NotAfter(es[i], Clock(es[j]))
  }

  function Clock(e: Event): Instant
    requires !e.Change?
  {
    match e
    case Lookup(_, now) => now
    case Fetch(_, _, at) => at
    case Put(_, _, locked) => locked
  }

  /** A key that the first cache answers is answered so; another one is absent or holds the store's answer. */
  ghost predicate Faithful(w: World, s: State, t: State, now: Instant) {
    forall id, later :: now <= later ==>
      var a, b := Answer(s.cache, id, later), Answer(t.cache, id, later);
      if a.Some? then b == a else b.None? || VerdictIn(w, s.values, id) == Ok(b.value)
  }

  /** Answers on their way are the store's, for keys that the first cache does not answer any more. */
  ghost predicate Honest(w: World, s: State, t: State, now: Instant) {
    && t.values == s.values
    && forall n :: n in t.pending ==>
         && VerdictIn(w, s.values, t.pending[n].id) == Ok(t.pending[n].verdict)
         && Answer(s.cache, t.pending[n].id, now).None?
  }

  lemma LookupKeeps(w: World, s: State, t: State, id: Id, now: Instant)
    requires Faithful(w, s, t, now)
    ensures Faithful(w, s, Next(w, t, Lookup(id, now)), now)
  {
    forall k, later | now <= later
      ensures Answer(Looked(t.cache, id, now), k, later) == Answer(t.cache, k, later)
    {
      NextKeepsAnswers(t.cache, w.ttl, Look(id, now), k, later);
    }
  }

  lemma PutKeeps(w: World, s: State, t: State, n: nat, began: Instant, locked: Instant)
    requires Faithful(w, s, t, locked) && Honest(w, s, t, locked) && began <= locked
    ensures Faithful(w, s, Next(w, t, Put(n, began, locked)), locked)
  {
    if n in t.pending {
      var a := t.pending[n];
      var u := Next(w, t, Put(n, began, locked));
      forall id, later | locked <= later
        ensures var x, y := Answer(s.cache, id, later), Answer(u.cache, id, later);
                if x.Some? then y == x else y.None? || VerdictIn(w, s.values, id) == Ok(y.value)
      {
        NextKeepsAnswers(t.cache, w.ttl, Store(a.id, a.verdict, began, locked), id, later);
      }
    }
  }

  /** All events lie before `now`. */
  ghost predicate AllBefore(es: seq<Event>, now: Instant) {
    forall i :: 0 <= i < |es| ==> NotAfter(es[i], now)
  }

  lemma {:induction false} SnapshotKeeps(w: World, s: State, es: seq<Event>, now: Instant)
    requires s.pending == map[] && OneSnapshot(w, s, es) && Clocked(es) && AllBefore(es, now)
    ensures Faithful(w, s, After(w, s, es), now) && Honest(w, s, After(w, s, es), now)
  {
    if es != [] {
      var m := |es| - 1;
      var pre, e := es[..m], es[m];
      PrefixSnapshot(w, s, es, m);
      assert AllBefore(pre, Clock(e));
      SnapshotKeeps(w, s, pre, Clock(e));
      var t := After(w, s, pre);
      match e
      case Lookup(id, at) => LookupKeeps(w, s, t, id, at);
      case Put(n, began, locked) => PutKeeps(w, s, t, n, began, locked);
      case Fetch(n, id, at) =>
        var h :| 0 <= h < m && MissesAt(w, s, es, h, id);
        PrefixSnapshot(w, s, es, h);
        assert AllBefore(es[..h], es[h].now);
        SnapshotKeeps(w, s, es[..h], es[h].now);
        assert Answer(s.cache, id, es[h].now).None?;
    }
  }

  lemma PrefixSnapshot(w: World, s: State, es: seq<Event>, m: nat)
    requires m <= |es| && OneSnapshot(w, s, es) && Clocked(es)
    ensures OneSnapshot(w, s, es[..m]) && Clocked(es[..m])
  {
    var pre := es[..m];
    forall i | 0 <= i < m && pre[i].Fetch? ensures Missed(w, s, pre, i) {
      assert Missed(w, s, es, i);
      var h :| 0 <= h < i && MissesAt(w, s, es, h, es[i].id);
      assert pre[..h] == es[..h];
      assert MissesAt(w, s, pre, h, pre[i].id);
    }
  }

  /**
   While the store does not change, no interleaving of calls changes what a key resolves to: every lookup
   of every call, single or in a batch, leads to the key that the first cache and the store stand for.
   */
  lemma InterleavingResolvesAlike(w: World, s: State, es: seq<Event>, h: nat)
    requires s.pending == map[] && w.reachable && OneSnapshot(w, s, es) && Clocked(es)
    requires h < |es| && es[h].Lookup?
    ensures var u := w.(values := s.values);
            Resolved(u, After(w, s, es[..h]).cache, es[h].id, es[h].now) == Resolved(u, s.cache, es[h].id, es[h].now)
  {
    PrefixSnapshot(w, s, es, h);
    assert AllBefore(es[..h], es[h].now);
    SnapshotKeeps(w, s, es[..h], es[h].now);
  }

  /**
   So slot i of a batch among other calls is true exactly when a single call for its item, made alone on
   the first cache at the same instant, returns true.
   */
  lemma InterleavedSlot(w: World, s: State, es: seq<Event>, h: nat, p: Payload, sig: Signature, text: string)
    requires s.pending == map[] && w.reachable && OneSnapshot(w, s, es) && Clocked(es)
    requires h < |es| && es[h].Lookup? && |sig| == 64 && w.decode(text) == Some(sig)
    ensures var u := w.(values := s.values);
            Slot(u, After(w, s, es[..h]).cache, es[h].id, es[h].now, p, sig)
            <==> Judge(u, Resolved(u, s.cache, es[h].id, es[h].now), p, text) == Ok(true)
  {
    InterleavingResolvesAlike(w, s, es, h);
  }
}
