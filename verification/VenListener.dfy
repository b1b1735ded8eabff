/** The listener object: one poll, event by event, with every mark persisted first. */
module VenListeners {
  import opened Windows
  import opened Ven

  class VenListener {
    var seen: Seen
    var store: Seen
    var loaded: bool
    ghost var log: seq<Dispatched>
    ghost var sent: seq<(Direction, real)>

    ghost function State(): Listener
      reads this
    {
      Listener(seen, store, loaded, log, sent)
    }

    constructor ()
      ensures State() == FRESH
    {
      seen, store, loaded, log, sent := map[], map[], false, [], [];
    }

    method LoadSeen()
      modifies this
      ensures State() == Load(old(State()))
    {
      if !loaded {
        seen, loaded := seen + store, true;
      }
    }

    method Mark(key: Key, version: Instant)
      modifies this`seen, this`store
      ensures seen == old(seen)[key := version] && store == old(store)[key := version]
    {
      store := store[key := version];
      seen := seen[key := version];
    }

    /** One listed event; `fired` counts a successful dispatch. */
    method HandleEvent(l: Listed, now: Instant) returns (fired: nat)
      modifies this
      ensures var o := Process(old(seen), l, now);
              && seen == MarkSeen(old(seen), o, l.event.modified)
              && store == MarkSeen(old(store), o, l.event.modified)
              && log == old(log) + LogOf(o, l.event) && sent == old(sent) + SentOf(o)
              && fired == |LogOf(o, l.event)| && loaded == old(loaded)
    {
      var e := l.event;
      fired := 0;
      if Whole(e.id) in seen && seen[Whole(e.id)] >= e.modified {
        return;
      }
      var executed := set k | k in seen && k.Part? && k.id == e.id && seen[k] >= e.modified :: k.interval;
      var d := DecideEvent(e.content, now, executed);
      match d {
        case NotDispatch => Mark(Whole(e.id), e.modified);
        case Expired => Mark(Whole(e.id), e.modified);
        case NotYetActive =>
        case Execute(kw, interval, morePending, _) =>
          if l.ok {
            Mark(if morePending then Part(e.id, interval) else Whole(e.id), e.modified);
            fired := 1;
            log := log + [Dispatched(e.id, interval, e.modified)];
            sent := sent + [SetpointToDispatch(kw)];
          }
      }
    }

    /** The listing, event by event. */
    method ScanListing(listing: seq<Listed>, now: Instant) returns (dispatched: nat)
      modifies this
      ensures var l := old(State());
              && State() == Listener(Scan(l.seen, listing, now), ScanStore(l, listing, now), l.loaded,
                                     l.log + ScanLog(l.seen, listing, now),
                                     l.sent + ScanSent(l.seen, listing, now))
              && dispatched == |ScanLog(l.seen, listing, now)|
    {
      ghost var l := State();
      dispatched := 0;
      for i := 0 to |listing|
        invariant seen == Scan(l.seen, listing[..i], now) && store == ScanStore(l, listing[..i], now)
        invariant log == l.log + ScanLog(l.seen, listing[..i], now) && loaded == l.loaded
        invariant sent == l.sent + ScanSent(l.seen, listing[..i], now)
        invariant dispatched == |ScanLog(l.seen, listing[..i], now)|
      {
        ScanSnoc(l, listing, i, now);
        var fired := HandleEvent(listing[i], now);
        dispatched := dispatched + fired;
      }
      assert listing[..|listing|] == listing;
    }

    /** Forgets old versions of events that left the listing; `kept` stay in the store. */
    method Prune(listing: seq<Listed>, now: Instant, kept: set<Key>)
      modifies this`seen, this`store
      ensures seen == old(seen) - Stale(old(seen), listing, now)
      ensures store == old(store) - (Stale(old(seen), listing, now) - kept)
    {
      var present := set l | l in listing :: l.event.id;
      var stale := set k | k in seen && k.id !in present && seen[k] < now - PRUNE_AGE;
      seen := seen - stale;
      store := store - (stale - kept);
    }

    /** One poll with its listing; the result is the number of successful dispatches. */
    method PollOnce(listing: seq<Listed>, now: Instant, kept: set<Key>) returns (dispatched: nat)
      modifies this
      ensures State() == Next(old(State()), Poll(listing, now, kept))
      ensures dispatched == |log| - |old(log)|
    {
      LoadSeen();
      dispatched := ScanListing(listing, now);
      Prune(listing, now, kept);
    }
  }
}
