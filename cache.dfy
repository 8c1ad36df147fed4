/** The web page tracker as an object: the store's two key spaces, the
    clock and the network log are fields, and each wrapper is a method that
    runs the same sequence of store operations as the decorated function. */
module Cache {
  import opened Keys
  import opened KeyValueStore
  import opened Web
  import opened WebProperties

  class WebCache {
    var counts: map<string, int>
    var pages: map<string, Entry>
    var now: int
    var fetched: seq<string>
    const origin: Origin

    /** The fields as one value, for the step functions. */
    function Current(): State
      reads this
    {
      State(counts, pages, now, fetched)
    }

    ghost predicate Valid()
      reads this
    {
      Inv(Current())
    }

    /** An empty store, a clock reading `start`, no request made yet. */
    constructor (origin: Origin, start: int)
      ensures Valid() && this.origin == origin
      ensures Current() == State(map[], map[], start, [])
    {
      counts, pages, now, fetched := map[], map[], start, [];
      this.origin := origin;
    }

    /** Time passes; entries whose expiry is reached stop being visible. */
    method Tick(dt: nat)
      requires Valid()
      modifies this`now
      ensures Valid()
      ensures Current() == Advance(old(Current()), dt)
    {
      AdvancePreservesInv(Current(), dt);
      now := now + dt;
    }

    /** INCR: the new value of the counter, or None when it would overflow
        (then the counter is left alone). */
    method Incr(key: string) returns (n: Option<int>)
      modifies this`counts
      ensures CountOf(old(counts), key) < MaxCount ==>
        n == Some(CountOf(old(counts), key) + 1) && counts == old(counts)[key := n.value]
      ensures CountOf(old(counts), key) >= MaxCount ==> n == None && counts == old(counts)
      ensures KeyValueStore.Incr(old(counts), key) == if n.Some? then Some(counts) else None
    {
      var c := if key in counts then counts[key] else 0;
      if c < MaxCount {
        counts := counts[key := c + 1];
        n := Some(c + 1);
      } else {
        n := None;
      }
    }

    /** GET: the live text under the key, if any. */
    method Get(key: string) returns (v: Option<string>)
      ensures (v.Some? <==> key in pages && Live(pages[key], now))
      ensures v.Some? ==> v.value == pages[key].text
      ensures v == Lookup(pages, now, key)
    {
      if key in pages && Live(pages[key], now) {
        v := Some(pages[key].text);
      } else {
        v := None;
      }
    }

    /** SET: store the text, with no expiry. */
    method Set(key: string, text: string)
      modifies this`pages
      ensures pages == old(pages)[key := Entry(text, None)]
      ensures pages == SetText(old(pages), key, text)
    {
      pages := pages[key := Entry(text, None)];
    }

    /** EXPIRE: give a live key the expiry now + seconds; report whether the
        key was found. */
    method Expire(key: string, seconds: int) returns (found: bool)
      modifies this`pages
      ensures found == Expires(old(pages), now, key)
      ensures pages == KeyValueStore.Expire(old(pages), now, key, seconds)
      ensures found ==> pages == old(pages)[key := old(pages)[key].(expiresAt := Some(now + seconds))]
      ensures !found ==> pages == old(pages)
    {
      found := key in pages && Live(pages[key], now);
      if found {
        pages := pages[key := pages[key].(expiresAt := Some(now + seconds))];
      }
    }

    /** The undecorated page fetch: one request to the network, logged. */
    method Fetch(url: string) returns (r: Result)
      modifies this`fetched
      ensures fetched == old(fetched) + [url]
      ensures r == Answer(origin, |old(fetched)|, url)
      ensures Step(Current(), r) == FetchStep(old(Current()), origin, url)
    {
      r := Answer(origin, |fetched|, url);
      fetched := fetched + [url];
    }

    /** The caching wrapper around Fetch: GET the cached-page key; a
        non-empty value is returned at once; otherwise fetch, SET the result
        and EXPIRE it after Ttl seconds. A failed fetch stops before SET. */
    method CacheResult(url: string) returns (r: Result)
      modifies this`pages, this`fetched
      ensures Step(Current(), r) == CacheStep(old(Current()), origin, url)
    {
      var key := CachedKey(url);
      var cached := Get(key);
      if cached.Some? && cached.value != "" {
        return Ok(cached.value);
      }
      r := Fetch(url);
      if r.Err? {
        return;
      }
      Set(key, r.text);
      var _ := Expire(key, Ttl);
    }

    /** The counting wrapper around CacheResult: INCR the URL's counter,
        then delegate. A failed INCR stops the call before the cache is
        looked at. */
    method CountAccess(url: string) returns (r: Result)
      requires Valid()
      modifies this`counts, this`pages, this`fetched
      ensures Valid()
      ensures Step(Current(), r) == ServeStep(old(Current()), origin, url)
    {
      ServePreservesInv(Current(), origin, url);
      var n := Incr(CountKey(url));
      if n.None? {
        return Err(CounterOverflow);
      }
      r := CacheResult(url);
    }

    /** The decorated page fetch: counter outermost, cache inside it. */
    method GetPage(url: string) returns (r: Result)
      requires Valid()
      modifies this`counts, this`pages, this`fetched
      ensures Valid() && now == old(now)
      ensures Step(Current(), r) == ServeStep(old(Current()), origin, url)
      // the counter is always bumped; only an overflowing INCR fails, before anything else
      ensures old(Accesses(Current(), url)) < MaxCount ==>
        Accesses(Current(), url) == old(Accesses(Current(), url)) + 1
      ensures old(Accesses(Current(), url)) >= MaxCount ==>
        r == Err(CounterOverflow) && Current() == old(Current())
      // a hit returns the stored text without a request and without touching the cache
      ensures old(Accesses(Current(), url)) < MaxCount && old(IsHit(Current(), url)) ==>
        r == Ok(old(Cached(Current(), url)).value) && pages == old(pages) && fetched == old(fetched)
      // a miss makes exactly one request, for this URL, and caches a page it gets for Ttl seconds
      ensures old(Accesses(Current(), url)) < MaxCount && !old(IsHit(Current(), url)) ==>
        && fetched == old(fetched) + [url]
        && r == Answer(origin, |old(fetched)|, url)
        && (r.Ok? ==> pages == old(pages)[CachedKey(url) := Entry(r.text, Some(now + Ttl))])
        && (r.Err? ==> pages == old(pages))
      // other URLs' counters and cache entries are left alone
      ensures forall u :: u != url ==>
        Accesses(Current(), u) == old(Accesses(Current(), u)) && Cached(Current(), u) == old(Cached(Current(), u))
    {
      ghost var s := Current();
      r := CountAccess(url);
      ServeCounts(s, origin, url);
      if Accesses(s, url) < MaxCount {
        if IsHit(s, url) {
          ServeHit(s, origin, url);
        } else {
          ServeMiss(s, origin, url);
        }
      }
      forall u | u != url
        ensures Accesses(Current(), u) == Accesses(s, u) && Cached(Current(), u) == Cached(s, u)
      {
        ServeLeavesOtherUrls(s, origin, url, u);
      }
    }
  }
}
