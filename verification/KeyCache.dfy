/**
 The device public-key cache: verdicts with a time to live, dropped on an expired lookup and by a
 gated prune. Every operation holds one lock, so a run is the sequence of its critical sections.
 A store reads the clock twice: before it takes the lock (`began`, from which the entry expires
 and against which the prune compares) and inside (`locked`, which opens the prune gate).
 */
module KeyCache {
  import opened Wrappers
  import opened Windows

  const PRUNE_INTERVAL := 30 * NANOS_PER_SECOND

  type Id = string
  type VerifyingKey = seq<bv8>

  /** Some(key) for a present key, None for an absence; malformed keys have no verdict. */
  type Verdict = Option<VerifyingKey>

  datatype Ttl = Ttl(positive: nat, negative: nat) {
    function For(v: Verdict): nat {
      if v.Some? then positive else negative
    }
  }

  datatype Entry = Entry(verdict: Verdict, expires: Instant)

  datatype Cache = Cache(entries: map<Id, Entry>, lastPruned: Instant)

  // ----- one operation -----

  /** What a lookup answers. */
  function Answer(c: Cache, id: Id, now: Instant): Option<Verdict> {
    if id in c.entries && c.entries[id].expires > now then Some(c.entries[id].verdict) else None
  }

  /** What a lookup leaves behind. */
  function Looked(c: Cache, id: Id, now: Instant): Cache {
    if id in c.entries && c.entries[id].expires <= now then c.(entries := c.entries - {id}) else c
  }

  function Unexpired(m: map<Id, Entry>, began: Instant): map<Id, Entry> {
    map id | id in m && m[id].expires > began :: m[id]
  }

  function Pruned(c: Cache, began: Instant, locked: Instant): Cache {
    if locked - c.lastPruned >= PRUNE_INTERVAL then Cache(Unexpired(c.entries, began), locked) else c
  }

  function Stored(c: Cache, ttl: Ttl, id: Id, v: Verdict, began: Instant, locked: Instant): Cache {
    var p := Pruned(c, began, locked);
    p.(entries := p.entries[id := Entry(v, began + ttl.For(v))])
  }

  // ----- runs -----

  datatype Op =
    | Look(id: Id, now: Instant)
    | Store(id: Id, verdict: Verdict, began: Instant, locked: Instant)
  {
    /** The instant of the critical section. */
    function At(): Instant {
      if Look? then now else locked
    }
  }

  function Next(c: Cache, ttl: Ttl, op: Op): Cache {
    match op
    case Look(id, now) => Looked(c, id, now)
    case Store(id, v, began, locked) => Stored(c, ttl, id, v, began, locked)
  }

  function Run(c: Cache, ttl: Ttl, ops: seq<Op>): Cache {
    if ops == [] then c else Next(Run(c, ttl, ops[..|ops| - 1]), ttl, ops[|ops| - 1])
  }

  function New(at: Instant): Cache {
    Cache(map[], at)
  }

  /** The monotonic clock: critical sections in order, and `began` read before its lock. */
  predicate Clocked(ops: seq<Op>) {
    && (forall i, j :: 0 <= i < j < |ops| ==> ops[i].At() <= ops[j].At())
    && (forall i :: 0 <= i < |ops| && ops[i].Store? ==> ops[i].began <= ops[i].locked)
  }

  /** Not before any critical section of the run. */
  predicate After(ops: seq<Op>, now: Instant) {
    forall i :: 0 <= i < |ops| ==> ops[i].At() <= now
  }

  // ----- the map with expiry that the cache stands for -----

  /** The last verdict stored for `id`, kept forever with its expiry. */
  function Last(ops: seq<Op>, ttl: Ttl, id: Id): Option<Entry> {
    if ops == [] then None
    else
      var op := ops[|ops| - 1];
      if op.Store? && op.id == id then Some(Entry(op.verdict, op.began + ttl.For(op.verdict)))
      else Last(ops[..|ops| - 1], ttl, id)
  }

  function Ideal(ops: seq<Op>, ttl: Ttl, id: Id, now: Instant): Option<Verdict> {
    var e := Last(ops, ttl, id);
    if e.Some? && e.value.expires > now then Some(e.value.verdict) else None
  }

  /** A lookup, and the prune inside a store, take away only what no later lookup would answer. */
  lemma NextKeepsAnswers(c: Cache, ttl: Ttl, op: Op, id: Id, now: Instant)
    requires op.At() <= now && (op.Store? ==> op.began <= op.locked)
    ensures op.Store? && op.id == id ==>
      Answer(Next(c, ttl, op), id, now)
      == if op.began + ttl.For(op.verdict) > now then Some(op.verdict) else None
    ensures op.Look? || op.id != id ==> Answer(Next(c, ttl, op), id, now) == Answer(c, id, now)
  {
  }

  /** A lookup leaves no expired verdict of its id behind, and touches no other entry. */
  lemma LookupEvicts(c: Cache, ttl: Ttl, id: Id, now: Instant, k: Id)
    ensures var d := Next(c, ttl, Look(id, now));
            && d.lastPruned == c.lastPruned
            && Get(d.entries, k) == if k == id && k in c.entries && c.entries[k].expires <= now then None
                                    else Get(c.entries, k)
  {
  }

  /** A prune happens only 30 s or more after the last one, and then leaves nothing that had expired before it. */
  lemma PruneIsGated(c: Cache, ttl: Ttl, op: Op)
    ensures var d := Next(c, ttl, op);
            && (d.lastPruned != c.lastPruned ==>
                  op.Store? && d.lastPruned == op.locked >= c.lastPruned + PRUNE_INTERVAL)
            && (op.Store? && op.locked >= c.lastPruned + PRUNE_INTERVAL ==>
                  && d.lastPruned == op.locked
                  && forall k :: k in d.entries && k != op.id ==> d.entries[k].expires > op.began)
            && (op.Store? && op.locked < c.lastPruned + PRUNE_INTERVAL ==>
                  forall k :: k in c.entries ==> k in d.entries)
  {
  }

  /** Gated pruning and eviction on lookup never change an answer, over every run. */
  lemma {:induction false} CacheIsMapWithExpiry(start: Instant, ttl: Ttl, ops: seq<Op>, id: Id, now: Instant)
    requires Clocked(ops) && After(ops, now)
    ensures Answer(Run(New(start), ttl, ops), id, now) == Ideal(ops, ttl, id, now)
  {
    if ops != [] {
      var prefix, op := ops[..|ops| - 1], ops[|ops| - 1];
      CacheIsMapWithExpiry(start, ttl, prefix, id, now);
      NextKeepsAnswers(Run(New(start), ttl, prefix), ttl, op, id, now);
    }
  }

  /** `ops[i]` is the latest store of `id`. */
  predicate LatestStore(ops: seq<Op>, id: Id, i: nat) {
    && i < |ops| && ops[i].Store? && ops[i].id == id
    && forall j :: i < j < |ops| ==> !(ops[j].Store? && ops[j].id == id)
  }

  lemma {:induction false} LastIsLatest(ops: seq<Op>, ttl: Ttl, id: Id) returns (i: nat)
    requires Last(ops, ttl, id).Some?
    ensures LatestStore(ops, id, i)
    ensures Last(ops, ttl, id) == Some(Entry(ops[i].verdict, ops[i].began + ttl.For(ops[i].verdict)))
  {
    var n := |ops| - 1;
    if ops[n].Store? && ops[n].id == id {
      i := n;
    } else {
      i := LastIsLatest(ops[..n], ttl, id);
    }
  }

  lemma {:induction false} LatestIsLast(ops: seq<Op>, ttl: Ttl, id: Id, i: nat)
    requires LatestStore(ops, id, i)
    ensures Last(ops, ttl, id) == Some(Entry(ops[i].verdict, ops[i].began + ttl.For(ops[i].verdict)))
  {
    var n := |ops| - 1;
    if i < n {
      assert LatestStore(ops[..n], id, i);
      LatestIsLast(ops[..n], ttl, id, i);
    }
  }

  /** A verdict is answered exactly when it is the latest one stored and its TTL has not passed. */
  lemma {:induction false} CachedAnswerIsRecent(start: Instant, ttl: Ttl, ops: seq<Op>, id: Id, v: Verdict,
                                                now: Instant)
    requires Clocked(ops) && After(ops, now)
    ensures Answer(Run(New(start), ttl, ops), id, now) == Some(v)
       <==> exists i: nat :: LatestStore(ops, id, i) && ops[i].verdict == v
                          && ops[i].began <= now < ops[i].began + ttl.For(v)
  {
    CacheIsMapWithExpiry(start, ttl, ops, id, now);
    if Ideal(ops, ttl, id, now) == Some(v) {
      var i := LastIsLatest(ops, ttl, id);
      assert ops[i].began <= ops[i].locked == ops[i].At() <= now;
    }
    forall i: nat | LatestStore(ops, id, i) && ops[i].verdict == v && now < ops[i].began + ttl.For(v)
      ensures Ideal(ops, ttl, id, now) == Some(v)
    {
      LatestIsLast(ops, ttl, id, i);
    }
  }
}

/**
 Signature verification over one snapshot of the key store, one item at a time and in a batch.
 Key parsing, base58 and Ed25519 verification (section 5.1.7 of RFC 8032) are parameters.
 */
module KeyBatch {
  import opened Wrappers
  import opened Windows
  import opened KeyCache
  import opened Results

  type Raw = string
  type Signature = seq<bv8>
  type Payload = seq<bv8>

  datatype VerifyError = StoreUnreachable | MalformedKey | KeyNotFound | BadSignatureText | LengthMismatch

  /** The store snapshot and whether it can be reached, with the pure functions the code calls. */
  datatype World = World(
    values: map<Id, Raw>, reachable: bool, parse: Raw -> Option<VerifyingKey>,
    verify: (VerifyingKey, Payload, Signature) -> bool, decode: string -> Option<Signature>, ttl: Ttl)

  /** What the store says of one key; a malformed value is an error. */
  function Fetched(w: World, id: Id): Result<Verdict, VerifyError> {
    if id !in w.values then Ok(None)
    else if w.parse(w.values[id]).Some? then Ok(w.parse(w.values[id]))
    else Err(MalformedKey)
  }

  /** Cache, else store: the key that the cache and the snapshot stand for at an instant. */
  function Resolved(w: World, c: Cache, id: Id, now: Instant): Result<Verdict, VerifyError> {
    var a := Answer(c, id, now);
    if a.Some? then Ok(a.value) else if w.reachable then Fetched(w, id) else Err(StoreUnreachable)
  }

  /** The two clock readings of a store. */
  datatype Stamp = Stamp(began: Instant, locked: Instant)

  function StoredIfClean(w: World, c: Cache, id: Id, s: Stamp): Cache {
    if Fetched(w, id).Ok? then Stored(c, w.ttl, id, Fetched(w, id).value, s.began, s.locked) else c
  }

  function ResolveCache(w: World, c: Cache, id: Id, now: Instant, s: Stamp): Cache {
    if Answer(c, id, now).Some? || !w.reachable then Looked(c, id, now)
    else StoredIfClean(w, Looked(c, id, now), id, s)
  }

  /** The single form: an absent key and bad base58 are errors, a wrong length is just false. */
  function Judge(w: World, key: Result<Verdict, VerifyError>, p: Payload, text: string): Result<bool, VerifyError> {
    if key.Err? then Err(key.error)
    else if key.value.None? then Err(KeyNotFound)
    else if w.decode(text).None? then Err(BadSignatureText)
    else
      var sig := w.decode(text).value;
      Ok(|sig| == 64 && w.verify(key.value.value, p, sig))
  }

  // ----- what the single form answers, on cache, store and parameters -----

  /** The cache holds an unexpired verdict. */
  predicate Hit(c: Cache, id: Id, now: Instant) {
    id in c.entries && now < c.entries[id].expires
  }

  /** The cached key, or the store's on a miss. */
  predicate KeyIs(w: World, c: Cache, id: Id, now: Instant, vk: VerifyingKey) {
    if Hit(c, id, now) then c.entries[id].verdict == Some(vk)
    else w.reachable && id in w.values && w.parse(w.values[id]) == Some(vk)
  }

  /** A cached absence, or none in the store on a miss. */
  predicate KeyAbsent(w: World, c: Cache, id: Id, now: Instant) {
    if Hit(c, id, now) then c.entries[id].verdict == None else w.reachable && id !in w.values
  }

  ghost predicate HasKey(w: World, c: Cache, id: Id, now: Instant) {
    exists vk :: KeyIs(w, c, id, now, vk)
  }

  /** The text decodes to a signature of 64 bytes that verifies under the key. */
  predicate Signs(w: World, vk: VerifyingKey, p: Payload, text: string) {
    w.decode(text).Some? && |w.decode(text).value| == 64 && w.verify(vk, p, w.decode(text).value)
  }

  /** Each answer of the single verifier, exactly when it is given. */
  lemma {:induction false} SingleAnswers(w: World, c: Cache, id: Id, now: Instant, p: Payload, text: string)
    ensures var r := Judge(w, Resolved(w, c, id, now), p, text);
            && (r == Ok(true) <==> exists vk :: KeyIs(w, c, id, now, vk) && Signs(w, vk, p, text))
            && (r == Ok(false) <==>
                  w.decode(text).Some? && exists vk :: KeyIs(w, c, id, now, vk) && !Signs(w, vk, p, text))
            && (r == Err(BadSignatureText) <==> HasKey(w, c, id, now) && w.decode(text).None?)
            && (r == Err(KeyNotFound) <==> KeyAbsent(w, c, id, now))
            && (r == Err(MalformedKey) <==>
                  !Hit(c, id, now) && w.reachable && id in w.values && w.parse(w.values[id]).None?)
            && (r == Err(StoreUnreachable) <==> !Hit(c, id, now) && !w.reachable)
            && r != Err(LengthMismatch)
  {
    var key := Resolved(w, c, id, now);
    if key.Ok? && key.value.Some? { assert KeyIs(w, c, id, now, key.value.value); }
  }

  datatype Item = Item(id: Id, payload: Payload, text: string, at: Instant, stamp: Stamp)

  /** The single verifier called item after item, each call on the cache the last one left. */
  function Singles(w: World, c: Cache, items: seq<Item>): seq<Result<bool, VerifyError>>
    decreases |items|
  {
    if items == [] then []
    else
      var x := items[0];
      [Judge(w, Resolved(w, c, x.id, x.at), x.payload, x.text)]
      + Singles(w, ResolveCache(w, c, x.id, x.at, x.stamp), items[1..])
  }

  /** Calls in sequence on a monotonic clock. */
  predicate InSequence(items: seq<Item>, from: Instant)
    decreases |items|
  {
    items != [] ==>
      && from <= items[0].at <= items[0].stamp.began <= items[0].stamp.locked
      && InSequence(items[1..], items[0].stamp.locked)
  }

  // ----- caching changes no answer over one snapshot -----

  /** From `from` on, the two caches resolve every key alike. */
  ghost predicate Alike(w: World, c: Cache, d: Cache, from: Instant) {
    forall id, now | from <= now :: Resolved(w, c, id, now) == Resolved(w, d, id, now)
  }

  lemma {:induction false} LookedAlike(w: World, c: Cache, id: Id, now: Instant)
    ensures Alike(w, Looked(c, id, now), c, now)
  {
  }

  /** Storing the snapshot's own answer for a key that misses is invisible. */
  lemma {:induction false} StoredAlike(w: World, c: Cache, id: Id, s: Stamp)
    requires s.began <= s.locked && w.reachable && Answer(c, id, s.locked).None?
    ensures Alike(w, StoredIfClean(w, c, id, s), c, s.locked)
  {
    if Fetched(w, id).Ok? {
      var op := Store(id, Fetched(w, id).value, s.began, s.locked);
      forall k, now | s.locked <= now
        ensures Resolved(w, StoredIfClean(w, c, id, s), k, now) == Resolved(w, c, k, now)
      {
        NextKeepsAnswers(c, w.ttl, op, k, now);
      }
    }
  }

  lemma {:induction false} ResolveAlike(w: World, c: Cache, id: Id, now: Instant, s: Stamp)
    requires now <= s.began <= s.locked
    ensures Alike(w, ResolveCache(w, c, id, now, s), c, s.locked)
  {
    LookedAlike(w, c, id, now);
    if Answer(c, id, now).None? && w.reachable {
      StoredAlike(w, Looked(c, id, now), id, s);
    }
  }

  /** What a resolve leaves: a clean answer is there until its TTL ends, an error leaves nothing. */
  lemma {:induction false} ResolveCaches(w: World, c: Cache, id: Id, now: Instant, s: Stamp, later: Instant)
    requires now <= s.began <= s.locked <= later && Answer(c, id, now).None?
    ensures var d := ResolveCache(w, c, id, now, s);
            if w.reachable && id !in w.values
            then Answer(d, id, later) == if later < s.began + w.ttl.negative then Some(None) else None
            else if w.reachable && w.parse(w.values[id]).Some?
            then Answer(d, id, later) == if later < s.began + w.ttl.positive then Some(w.parse(w.values[id])) else None
            else Answer(d, id, later).None?
  {
    NextKeepsAnswers(c, w.ttl, Look(id, now), id, later);
    if w.reachable && Fetched(w, id).Ok? {
      NextKeepsAnswers(Looked(c, id, now), w.ttl, Store(id, Fetched(w, id).value, s.began, s.locked), id, later);
    }
  }

  /** Every call of a sequence of singles judges by the cache as it was before the first call. */
  lemma {:induction false} SinglesByFirstCache(w: World, c0: Cache, c: Cache, items: seq<Item>, from: Instant)
    requires InSequence(items, from) && Alike(w, c, c0, from)
    ensures |Singles(w, c, items)| == |items|
    ensures forall i :: 0 <= i < |items| ==>
      Singles(w, c, items)[i]
      == Judge(w, Resolved(w, c0, items[i].id, items[i].at), items[i].payload, items[i].text)
    decreases |items|
  {
    if items != [] {
      var x := items[0];
      var d := ResolveCache(w, c, x.id, x.at, x.stamp);
      ResolveAlike(w, c, x.id, x.at, x.stamp);
      SinglesByFirstCache(w, c0, d, items[1..], x.stamp.locked);
      assert forall i :: 0 < i < |items| ==> items[i] == items[1..][i - 1];
    }
  }

  // ----- the batch form on values -----

  /** A lookup of the batch: the cache as the calls before it left it, and the clock. */
  datatype Turn = Turn(cache: Cache, at: Instant) {
    predicate Misses(id: Id) {
      Answer(cache, id, at).None?
    }
  }

  /** A store of the batch, likewise. */
  datatype Fill = Fill(cache: Cache, stamp: Stamp)

  /** The positions that miss. */
  function Misses(ids: seq<Id>, turns: seq<Turn>): (r: seq<nat>)
    requires |turns| == |ids|
    ensures forall k :: 0 <= k < |r| ==> r[k] < |ids|
  {
    if ids == [] then []
    else
      var n := |ids| - 1;
      Misses(ids[..n], turns[..n]) + if turns[n].Misses(ids[n]) then [n] else []
  }

  lemma {:induction false} MissesAre(ids: seq<Id>, turns: seq<Turn>)
    requires |turns| == |ids|
    ensures forall i :: 0 <= i < |ids| ==> (i in Misses(ids, turns) <==> turns[i].Misses(ids[i]))
  {
    if ids != [] {
      var n := |ids| - 1;
      MissesAre(ids[..n], turns[..n]);
      assert forall i :: 0 <= i < n ==> ids[i] == ids[..n][i] && turns[i] == turns[..n][i];
    }
  }

  /** The cache that a batch leaves: its last lookup or store, on what the calls before that left. */
  function LeftBy(w: World, c: Cache, ids: seq<Id>, turns: seq<Turn>, fills: seq<Fill>): Cache
    requires |turns| == |ids| && |fills| == |Misses(ids, turns)|
  {
    var n, misses := |ids| - 1, Misses(ids, turns);
    if ids == [] then c
    else if misses == [] || !w.reachable then Looked(turns[n].cache, ids[n], turns[n].at)
    else
      var m := |misses| - 1;
      StoredIfClean(w, fills[m].cache, ids[misses[m]], fills[m].stamp)
  }

  // ----- a batch that runs alone -----

  function Lookups(c: Cache, ids: seq<Id>, at: seq<Instant>): Cache
    requires |at| == |ids|
  {
    if ids == [] then c
    else
      var n := |ids| - 1;
      Looked(Lookups(c, ids[..n], at[..n]), ids[n], at[n])
  }

  function AloneTurns(c: Cache, ids: seq<Id>, at: seq<Instant>): seq<Turn>
    requires |at| == |ids|
  {
    seq(|ids|, i requires 0 <= i < |ids| => Turn(Lookups(c, ids[..i], at[..i]), at[i]))
  }

  function AloneFills(w: World, c: Cache, ids: seq<Id>, misses: seq<nat>, stamps: seq<Stamp>): seq<Fill>
    requires |stamps| == |misses| && forall k :: 0 <= k < |misses| ==> misses[k] < |ids|
  {
    seq(|misses|, k requires 0 <= k < |misses| => Fill(Fills(w, c, ids, misses[..k], stamps[..k]), stamps[k]))
  }

  /** The cache after the MGET answers are stored, miss by miss. */
  function Fills(w: World, c: Cache, ids: seq<Id>, misses: seq<nat>, stamps: seq<Stamp>): Cache
    requires |stamps| == |misses| && forall k :: 0 <= k < |misses| ==> misses[k] < |ids|
  {
    if misses == [] then c
    else
      var n := |misses| - 1;
      StoredIfClean(w, Fills(w, c, ids, misses[..n], stamps[..n]), ids[misses[n]], stamps[n])
  }

  predicate Rising(at: seq<Instant>) {
    forall i, j :: 0 <= i < j < |at| ==> at[i] <= at[j]
  }

  predicate RisingStamps(stamps: seq<Stamp>, from: Instant) {
    && (forall k :: 0 <= k < |stamps| ==> from <= stamps[k].began <= stamps[k].locked)
    && (forall j, k :: 0 <= j < k < |stamps| ==> stamps[j].locked <= stamps[k].locked)
  }

  /** Evictions during the scatter loop hide nothing from its later lookups. */
  lemma {:induction false} LookupsKeepAnswers(c: Cache, ids: seq<Id>, at: seq<Instant>, id: Id, now: Instant)
    requires |at| == |ids| && forall i :: 0 <= i < |at| ==> at[i] <= now
    ensures Answer(Lookups(c, ids, at), id, now) == Answer(c, id, now)
  {
    if ids != [] {
      var n := |ids| - 1;
      LookupsKeepAnswers(c, ids[..n], at[..n], id, now);
    }
  }

  /** Storing the snapshot's answers for keys that miss changes no resolution after it. */
  lemma {:induction false} FillsAlike(w: World, c: Cache, ids: seq<Id>, misses: seq<nat>, stamps: seq<Stamp>,
                                      from: Instant, now: Instant, id: Id)
    requires |stamps| == |misses| && RisingStamps(stamps, from) && w.reachable
    requires forall k :: 0 <= k < |misses| ==> misses[k] < |ids| && Answer(c, ids[misses[k]], from).None?
    requires from <= now && forall k :: 0 <= k < |stamps| ==> stamps[k].locked <= now
    ensures Resolved(w, Fills(w, c, ids, misses, stamps), id, now) == Resolved(w, c, id, now)
  {
    if misses != [] {
      var n := |misses| - 1;
      FillsAlike(w, c, ids, misses[..n], stamps[..n], from, now, id);
      var d, k, s := Fills(w, c, ids, misses[..n], stamps[..n]), ids[misses[n]], stamps[n];
      if Fetched(w, k).Ok? {
        NextKeepsAnswers(d, w.ttl, Store(k, Fetched(w, k).value, s.began, s.locked), id, now);
      }
    }
  }

  /** Each lookup of a batch alone resolves as on the first cache. */
  lemma {:induction false} AloneResolves(c: Cache, ids: seq<Id>, at: seq<Instant>, i: nat)
    requires |at| == |ids| && Rising(at) && i < |ids|
    ensures Answer(AloneTurns(c, ids, at)[i].cache, ids[i], at[i]) == Answer(c, ids[i], at[i])
  {
    LookupsKeepAnswers(c, ids[..i], at[..i], ids[i], at[i]);
  }

  lemma {:induction false} AloneLeaves(w: World, c: Cache, ids: seq<Id>, at: seq<Instant>, stamps: seq<Stamp>)
    requires |at| == |ids| && w.reachable
    requires var misses := Misses(ids, AloneTurns(c, ids, at)); |stamps| == |misses|
    ensures var turns, d := AloneTurns(c, ids, at), Lookups(c, ids, at);
            var misses := Misses(ids, turns);
            LeftBy(w, c, ids, turns, AloneFills(w, d, ids, misses, stamps)) == Fills(w, d, ids, misses, stamps)
  {
  }

  /** A batch alone leaves a cache that resolves every key as before, over the same snapshot. */
  lemma {:induction false} BatchLeavesAnswers(w: World, c: Cache, ids: seq<Id>, at: seq<Instant>,
                                              stamps: seq<Stamp>, from: Instant, now: Instant, id: Id)
    requires |at| == |ids| && Rising(at) && w.reachable
    requires |stamps| == |Misses(ids, AloneTurns(c, ids, at))|
    requires (forall i :: 0 <= i < |at| ==> at[i] <= from) && RisingStamps(stamps, from)
    requires from <= now && forall k :: 0 <= k < |stamps| ==> stamps[k].locked <= now
    ensures var turns, d := AloneTurns(c, ids, at), Lookups(c, ids, at);
            var fills := AloneFills(w, d, ids, Misses(ids, turns), stamps);
            Resolved(w, LeftBy(w, c, ids, turns, fills), id, now) == Resolved(w, c, id, now)
  {
    var turns, d := AloneTurns(c, ids, at), Lookups(c, ids, at);
    var misses := Misses(ids, turns);
    MissesAre(ids, turns);
    forall k | 0 <= k < |misses| ensures Answer(d, ids[misses[k]], from).None? {
      assert misses[k] in misses;
      AloneResolves(c, ids, at, misses[k]);
      LookupsKeepAnswers(c, ids, at, ids[misses[k]], from);
    }
    LookupsKeepAnswers(c, ids, at, id, now);
    FillsAlike(w, d, ids, misses, stamps, from, now, id);
    AloneLeaves(w, c, ids, at, stamps);
  }

  /** What slot i of a batch answers: the key by the first cache, then the signature. */
  function Slot(w: World, c: Cache, id: Id, now: Instant, p: Payload, sig: Signature): bool {
    var key := Resolved(w, c, id, now);
    key.Ok? && key.value.Some? && w.verify(key.value.value, p, sig)
  }

  function Ids(items: seq<Item>): seq<Id> {
    seq(|items|, i requires 0 <= i < |items| => items[i].id)
  }

  function Times(items: seq<Item>): seq<Instant> {
    seq(|items|, i requires 0 <= i < |items| => items[i].at)
  }

  lemma {:induction false} SequenceRises(items: seq<Item>, from: Instant)
    requires InSequence(items, from)
    ensures Rising(Times(items)) && forall i :: 0 <= i < |items| ==> from <= items[i].at
    decreases |items|
  {
    if items != [] {
      SequenceRises(items[1..], items[0].stamp.locked);
      assert forall i :: 1 <= i < |items| ==> items[i] == items[1..][i - 1];
      assert forall i :: 1 <= i < |items| ==> Times(items)[i] == Times(items[1..])[i - 1];
    }
  }

  /**
   Slot i of a batch alone is true exactly when the i-th of the single calls, made in order at the same
   instants, returns true.
   */
  lemma {:induction false} BatchRefinesSingles(w: World, c: Cache, items: seq<Item>, sigs: seq<Signature>,
                                               from: Instant)
    requires InSequence(items, from) && |sigs| == |items|
    requires forall i :: 0 <= i < |items| ==> |sigs[i]| == 64 && w.decode(items[i].text) == Some(sigs[i])
    ensures |Singles(w, c, items)| == |items|
    ensures var turns := AloneTurns(c, Ids(items), Times(items));
            forall i :: 0 <= i < |items| ==>
              (Slot(w, turns[i].cache, items[i].id, items[i].at, items[i].payload, sigs[i])
               <==> Singles(w, c, items)[i] == Ok(true))
  {
    SinglesByFirstCache(w, c, c, items, from);
    SequenceRises(items, from);
    forall i | 0 <= i < |items|
      ensures Answer(AloneTurns(c, Ids(items), Times(items))[i].cache, items[i].id, items[i].at)
           == Answer(c, items[i].id, items[i].at)
    {
      AloneResolves(c, Ids(items), Times(items), i);
    }
  }
}

/** The verifier object, its cache updated in place. */
module SignatureVerifiers {
  import opened Wrappers
  import opened Windows
  import opened KeyCache
  import opened KeyBatch
  import opened Results

  class SignatureVerifier {
    var entries: map<Id, Entry>
    var lastPruned: Instant

    ghost function State(): Cache
      reads this
    {
      Cache(entries, lastPruned)
    }

    constructor (now: Instant)
      ensures State() == New(now)
    {
      entries, lastPruned := map[], now;
    }

    method CacheGet(id: Id, now: Instant) returns (answer: Option<Verdict>)
      modifies this`entries
      ensures answer == Answer(old(State()), id, now)
      ensures State() == Looked(old(State()), id, now)
    {
      answer := None;
      if id in entries {
        if entries[id].expires > now {
          answer := Some(entries[id].verdict);
        } else {
          entries := entries - {id};
        }
      }
    }

    method InsertPruned(id: Id, e: Entry, began: Instant, locked: Instant)
      modifies this
      ensures var p := Pruned(old(State()), began, locked);
              State() == p.(entries := p.entries[id := e])
    {
      if locked - lastPruned >= PRUNE_INTERVAL {
        entries := map k | k in entries && !(entries[k].expires <= began) :: entries[k];
        lastPruned := locked;
      }
      entries := entries[id := e];
    }

    method CachePut(ttl: Ttl, id: Id, v: Verdict, s: Stamp)
      modifies this
      ensures State() == Stored(old(State()), ttl, id, v, s.began, s.locked)
    {
      var life := if v.Some? then ttl.positive else ttl.negative;
      InsertPruned(id, Entry(v, s.began + life), s.began, s.locked);
    }

    method ResolvePubkey(w: World, id: Id, now: Instant, s: Stamp) returns (r: Result<Verdict, VerifyError>)
      modifies this
      ensures r == Resolved(w, old(State()), id, now)
      ensures State() == ResolveCache(w, old(State()), id, now, s)
    {
      var cached := CacheGet(id, now);
      if cached.Some? {
        return Ok(cached.value);
      }
      if !w.reachable {
        return Err(StoreUnreachable);
      }
      var resolved: Verdict := None;
      if id in w.values {
        resolved := w.parse(w.values[id]);
        if resolved.None? {
          return Err(MalformedKey);
        }
      }
      CachePut(w.ttl, id, resolved, s);
      return Ok(resolved);
    }

    method VerifySingle(w: World, x: Item) returns (r: Result<bool, VerifyError>)
      modifies this
      ensures r == Judge(w, Resolved(w, old(State()), x.id, x.at), x.payload, x.text)
      ensures State() == ResolveCache(w, old(State()), x.id, x.at, x.stamp)
    {
      var key := ResolvePubkey(w, x.id, x.at, x.stamp);
      if key.Err? {
        return Err(key.error);
      }
      if key.value.None? {
        return Err(KeyNotFound);
      }
      var sig := w.decode(x.text);
      if sig.None? {
        return Err(BadSignatureText);
      }
      if |sig.value| != 64 {
        return Ok(false);
      }
      return Ok(w.verify(key.value.value, x.payload, sig.value));
    }

    /** Other calls have run: the cache is as they leave it. */
    method Elsewhere(c: Cache)
      modifies this
      ensures State() == c
    {
      entries, lastPruned := c.entries, c.lastPruned;
    }

    /** Scatter: look every id up, leaving a placeholder at each miss. */
    method Scatter(ids: seq<Id>, turns: seq<Turn>) returns (vks: seq<Verdict>, misses: seq<nat>)
      requires |turns| == |ids|
      modifies this
      ensures |vks| == |ids| && misses == Misses(ids, turns)
      ensures var n := |ids| - 1;
              State() == if ids == [] then old(State()) else Looked(turns[n].cache, ids[n], turns[n].at)
      ensures forall i :: 0 <= i < |ids| && !turns[i].Misses(ids[i]) ==>
        Answer(turns[i].cache, ids[i], turns[i].at) == Some(vks[i])
    {
      vks, misses := [], [];
      for n := 0 to |ids|
        invariant |vks| == n && misses == Misses(ids[..n], turns[..n])
        invariant State() == if n == 0 then old(State())
                             else Looked(turns[n - 1].cache, ids[n - 1], turns[n - 1].at)
        invariant forall i :: 0 <= i < n && !turns[i].Misses(ids[i]) ==>
          Answer(turns[i].cache, ids[i], turns[i].at) == Some(vks[i])
      {
        assert ids[..n + 1][..n] == ids[..n] && turns[..n + 1][..n] == turns[..n];
        Elsewhere(turns[n].cache);
        var hit := CacheGet(ids[n], turns[n].at);
        if hit.Some? {
          vks := vks + [hit.value];
        } else {
          vks := vks + [None];
          misses := misses + [n];
        }
      }
      assert ids[..|ids|] == ids && turns[..|turns|] == turns;
    }

    /** Gather: parse and cache the store's answers, filling the placeholders. */
    method Gather(w: World, ids: seq<Id>, misses: seq<nat>, fills: seq<Fill>, vks0: seq<Verdict>)
      returns (vks: seq<Verdict>)
      requires |vks0| == |ids| && |fills| == |misses| && forall k :: 0 <= k < |misses| ==> misses[k] < |ids|
      modifies this
      ensures |vks| == |ids|
      ensures var m := |misses| - 1;
              State() == if misses == [] then old(State())
                         else StoredIfClean(w, fills[m].cache, ids[misses[m]], fills[m].stamp)
      ensures forall i :: 0 <= i < |ids| && i in misses ==>
        vks[i] == if Fetched(w, ids[i]).Ok? then Fetched(w, ids[i]).value else None
      ensures forall i :: 0 <= i < |ids| && i !in misses ==> vks[i] == vks0[i]
    {
      vks := vks0;
      for n := 0 to |misses|
        invariant |vks| == |ids|
        invariant State() == if n == 0 then old(State())
                             else StoredIfClean(w, fills[n - 1].cache, ids[misses[n - 1]], fills[n - 1].stamp)
        invariant forall i :: 0 <= i < |ids| && i in misses[..n] ==>
          vks[i] == if Fetched(w, ids[i]).Ok? then Fetched(w, ids[i]).value else None
        invariant forall i :: 0 <= i < |ids| && i !in misses[..n] ==> vks[i] == vks0[i]
      {
        Elsewhere(fills[n].cache);
        var i := misses[n];
        var parsed: Verdict := None;
        if ids[i] in w.values {
          parsed := w.parse(w.values[ids[i]]);
          if parsed.Some? {
            CachePut(w.ttl, ids[i], parsed, fills[n].stamp);
          }
        } else {
          CachePut(w.ttl, ids[i], None, fills[n].stamp);
        }
        vks := vks[i := parsed];
        assert misses[..n + 1] == misses[..n] + [i];
      }
      assert misses[..|misses|] == misses;
    }

    /**
     The batch. `turns` are the lookups and `fills` the stores, one for each miss, each with the cache as
     other calls have left it by then. It fails for unequal lengths and for a miss while the store is
     unreachable; otherwise each slot is resolved at its own turn.
     */
    method VerifyBatch(w: World, ids: seq<Id>, payloads: seq<Payload>, sigs: seq<Signature>,
                       turns: seq<Turn>, fills: seq<Fill>) returns (r: Result<seq<bool>, VerifyError>)
      requires |turns| == |ids| && |fills| == |Misses(ids, turns)|
      modifies this
      ensures var mismatch := |ids| != |payloads| || |ids| != |sigs|;
              && (r == Err(LengthMismatch) <==> mismatch)
              && (r == Err(StoreUnreachable) <==> !mismatch && Misses(ids, turns) != [] && !w.reachable)
              && (r.Err? ==> r.error == LengthMismatch || r.error == StoreUnreachable)
              && State() == if mismatch then old(State()) else LeftBy(w, old(State()), ids, turns, fills)
      ensures r.Ok? ==> |r.value| == |ids| == |payloads| == |sigs| && forall i :: 0 <= i < |ids| ==>
        r.value[i] == Slot(w, turns[i].cache, ids[i], turns[i].at, payloads[i], sigs[i])
    {
      if |ids| != |payloads| || |ids| != |sigs| {
        return Err(LengthMismatch);
      }
      if ids == [] {
        return Ok([]);
      }
      var vks, misses := Scatter(ids, turns);
      if misses != [] {
        if !w.reachable {
          return Err(StoreUnreachable);
        }
        vks := Gather(w, ids, misses, fills, vks);
      }
      var out :=
        seq(|ids|, i requires 0 <= i < |ids| => vks[i].Some? && w.verify(vks[i].value, payloads[i], sigs[i]));
      MissesAre(ids, turns);
      return Ok(out);
    }
  }
}
