/**
 * Rate limiting and result caching for the search providers
 * (backend/app/services/throttle.py).
 *
 * The wall clock is an input: every `Acquire` receives the time it starts
 * at, and each sleep ends at the requested wake-up time plus a non-negative
 * lateness, also an input. Clock readings never go backwards.
 */
module Throttle {
  import opened Wrappers
  import opened Text

  predicate Sorted(s: seq<real>) {
    forall i, j :: 0 <= i < j < |s| ==> s[i] <= s[j]
  }

  /** The timestamps at or after `cutoff`, in order: the requests still inside the window. */
  function InWindow(s: seq<real>, cutoff: real): (r: seq<real>)
    ensures |r| <= |s|
    ensures forall i :: 0 <= i < |r| ==> r[i] >= cutoff
  {
    if s == [] then []
    else if s[0] >= cutoff then [s[0]] + InWindow(s[1..], cutoff)
    else InWindow(s[1..], cutoff)
  }

  /** Keeping the timestamps at or after `cutoff` commutes with appending one. */
  lemma {:induction false} InWindowSnoc(s: seq<real>, t: real, cutoff: real)
    ensures InWindow(s + [t], cutoff) == InWindow(s, cutoff) + (if t >= cutoff then [t] else [])
  {
    if s != [] {
      assert (s + [t])[0] == s[0] && (s + [t])[1..] == s[1..] + [t];
      InWindowSnoc(s[1..], t, cutoff);
    }
  }

  /** The kept timestamps are as many as the positions holding a timestamp at or after `cutoff`. */
  lemma {:induction false} InWindowCount(s: seq<real>, cutoff: real)
    ensures |InWindow(s, cutoff)| == |set i | 0 <= i < |s| && s[i] >= cutoff|
    decreases |s|
  {
    var at := set i | 0 <= i < |s| && s[i] >= cutoff;
    if s == [] {
      assert at == {};
    } else {
      var front, t := s[..|s| - 1], s[|s| - 1];
      assert s == front + [t];
      InWindowSnoc(front, t, cutoff);
      InWindowCount(front, cutoff);
      var atFront := set i | 0 <= i < |front| && front[i] >= cutoff;
      if t >= cutoff {
        assert at == atFront + {|s| - 1};
      } else {
        assert at == atFront;
      }
    }
  }

  /** How many leading timestamps lie strictly before `cutoff`: what the pruning loop pops. */
  function StaleCount(s: seq<real>, cutoff: real): (k: nat)
    ensures k <= |s|
  {
    if s != [] && s[0] < cutoff then 1 + StaleCount(s[1..], cutoff) else 0
  }

  /**
   * Popping from the front while the head is older than the cutoff removes
   * exactly the timestamps older than the cutoff, when the deque is sorted.
   */
  lemma {:induction false} PruneSortedIsWindow(s: seq<real>, cutoff: real)
    requires Sorted(s)
    ensures s[StaleCount(s, cutoff)..] == InWindow(s, cutoff)
  {
    if s != [] {
      PruneSortedIsWindow(s[1..], cutoff);
      if s[0] >= cutoff {
        AllInWindow(s, cutoff);
      }
    }
  }

  lemma {:induction false} AllInWindow(s: seq<real>, cutoff: real)
    requires forall i :: 0 <= i < |s| ==> s[i] >= cutoff
    ensures InWindow(s, cutoff) == s
    ensures StaleCount(s, cutoff) == 0
  {
    if s != [] {
      AllInWindow(s[1..], cutoff);
      assert [s[0]] + s[1..] == s;
    }
  }

  /**
   * The wait the minimum-interval rule imposes: none before the first
   * request (`last` still 0), otherwise whatever is missing to `minInterval`
   * since the last request.
   */
  function IntervalWait(last: real, now: real, minInterval: real): (w: real)
    ensures w >= 0.0
    ensures last <= 0.0 ==> w == 0.0
    ensures w > 0.0 <==> last > 0.0 && now - last < minInterval
    ensures w > 0.0 ==> now + w == last + minInterval
  {
    if last > 0.0 && now - last < minInterval then minInterval - (now - last) else 0.0
  }

  /** The wait the window rule imposes on a deque holding `pending`: until its oldest entry leaves the window. */
  function WindowWait(pending: seq<real>, maxRequests: int, timeWindow: real, now: real): (w: real)
    ensures w >= 0.0
    ensures w > 0.0 ==> |pending| >= maxRequests && |pending| > 0 && now + w == pending[0] + timeWindow
    ensures |pending| > 0 && |pending| >= maxRequests && pending[0] + timeWindow > now ==> w > 0.0
  {
    if |pending| >= maxRequests && |pending| > 0 && pending[0] + timeWindow - now > 0.0
    then pending[0] + timeWindow - now
    else 0.0
  }

  datatype Stats = Stats(
    maxRequests: int,
    timeWindow: real,
    activeRequests: nat,
    availableRequests: nat,
    minInterval: real,
    lastRequestAgo: Option<real>)

  class RateLimiter {
    const maxRequests: int
    const timeWindow: real
    const minInterval: real
    /** The deque of request timestamps, oldest first. */
    var requests: seq<real>
    var lastRequestTime: real

    ghost predicate Valid()
      reads this
    {
      && maxRequests >= 1
      && Sorted(requests)
      && (forall i :: 0 <= i < |requests| ==> requests[i] <= lastRequestTime)
    }

    constructor (maxRequests: int, timeWindow: real, minInterval: real)
      requires maxRequests >= 1
      ensures Valid()
      ensures this.maxRequests == maxRequests && this.timeWindow == timeWindow && this.minInterval == minInterval
      ensures requests == [] && lastRequestTime == 0.0
    {
      this.maxRequests := maxRequests;
      this.timeWindow := timeWindow;
      this.minInterval := minInterval;
      requests := [];
      lastRequestTime := 0.0;
    }

    /** Pops timestamps older than `cutoff` off the front of the deque. */
    method PruneBefore(cutoff: real)
      requires Valid()
      modifies this
      ensures Valid()
      ensures requests == InWindow(old(requests), cutoff)
      ensures lastRequestTime == old(lastRequestTime)
    {
      ghost var start := requests;
      ghost var k: nat := 0;
      PruneSortedIsWindow(start, cutoff);
      while requests != [] && requests[0] < cutoff
        invariant k <= StaleCount(start, cutoff) && requests == start[k..]
        invariant lastRequestTime == old(lastRequestTime)
        invariant Valid()
        decreases |requests|
      {
        StaleCountStep(start, cutoff, k);
        requests := requests[1..];
        k := k + 1;
      }
      StaleCountStop(start, cutoff, k);
    }

    /**
     * `acquire`: prunes the window with the start time, honours the minimum
     * interval (never before the first request), and when the pruned deque
     * is full waits until its oldest entry leaves the window and prunes
     * again; then records exactly one timestamp, the time it returns at.
     */
    method Acquire(now: real, intervalLateness: real, windowLateness: real)
      returns (intervalWait: real, windowWait: real, stamp: real)
      requires Valid()
      requires now >= lastRequestTime && intervalLateness >= 0.0 && windowLateness >= 0.0
      modifies this
      ensures Valid()
      ensures intervalWait == IntervalWait(old(lastRequestTime), now, minInterval)
      ensures old(lastRequestTime) <= 0.0 ==> intervalWait == 0.0
      ensures windowWait == WindowWait(InWindow(old(requests), now - timeWindow), maxRequests, timeWindow,
                                       now + (if intervalWait > 0.0 then intervalWait + intervalLateness else 0.0))
      ensures stamp == now
                       + (if intervalWait > 0.0 then intervalWait + intervalLateness else 0.0)
                       + (if windowWait > 0.0 then windowWait + windowLateness else 0.0)
      ensures windowWait == 0.0 ==> requests == InWindow(old(requests), now - timeWindow) + [stamp]
      ensures windowWait > 0.0 ==>
        requests == InWindow(InWindow(old(requests), now - timeWindow), stamp - timeWindow) + [stamp]
      ensures lastRequestTime == stamp && stamp >= now
    {
      var t := now;
      PruneBefore(t - timeWindow);
      ghost var pruned := requests;
      assert pruned == InWindow(old(requests), now - timeWindow);

      intervalWait := IntervalWait(lastRequestTime, t, minInterval);
      if intervalWait > 0.0 {
        t := t + intervalWait + intervalLateness;
      }
      ghost var t1 := t;
      assert t1 == now + (if intervalWait > 0.0 then intervalWait + intervalLateness else 0.0);
      assert t1 >= now;

      windowWait := WindowWait(requests, maxRequests, timeWindow, t);
      if windowWait > 0.0 {
        t := t + windowWait + windowLateness;
        PruneBefore(t - timeWindow);
        assert requests == InWindow(pruned, t - timeWindow);
      }
      assert t >= t1;
      Record(t);
      stamp := t;
    }

    /** Appends the timestamp a request is made at. */
    method Record(t: real)
      requires Valid() && t >= lastRequestTime
      modifies this
      ensures Valid()
      ensures requests == old(requests) + [t] && lastRequestTime == t
    {
      SortedSnoc(requests, t);
      requests := requests + [t];
      lastRequestTime := t;
    }

    /** `get_stats`: the window occupancy seen at time `now`. */
    function GetStats(now: real): (s: Stats)
      reads this
      ensures s.activeRequests == |set i | 0 <= i < |requests| && requests[i] >= now - timeWindow|
      ensures s.activeRequests <= |requests|
      ensures s.availableRequests + s.activeRequests >= maxRequests
      ensures s.activeRequests < maxRequests ==> s.availableRequests == maxRequests - s.activeRequests
      ensures s.activeRequests >= maxRequests ==> s.availableRequests == 0
      ensures s.lastRequestAgo.None? <==> lastRequestTime <= 0.0
      ensures s.lastRequestAgo.Some? ==> s.lastRequestAgo.value + lastRequestTime == now
    {
      InWindowCount(requests, now - timeWindow);
      var active := |InWindow(requests, now - timeWindow)|;
      Stats(
        maxRequests, timeWindow, active,
        if maxRequests - active > 0 then maxRequests - active else 0,
        minInterval,
        if lastRequestTime > 0.0 then Some(now - lastRequestTime) else None)
    }
  }

  lemma SortedSnoc(s: seq<real>, x: real)
    requires Sorted(s)
    requires forall i :: 0 <= i < |s| ==> s[i] <= x
    ensures Sorted(s + [x])
  {
  }

  lemma StaleCountStep(s: seq<real>, cutoff: real, k: nat)
    requires k < |s| && k <= StaleCount(s, cutoff) && s[k] < cutoff
    ensures k + 1 <= StaleCount(s, cutoff)
    decreases k
  {
    if k > 0 {
      StaleCountStep(s[1..], cutoff, k - 1);
    }
  }

  lemma StaleCountStop(s: seq<real>, cutoff: real, k: nat)
    requires k <= StaleCount(s, cutoff)
    requires k == |s| || s[k] >= cutoff
    ensures k == StaleCount(s, cutoff)
    decreases k
  {
    if k > 0 {
      StaleCountStop(s[1..], cutoff, k - 1);
    }
  }

  // ---------------------------------------------------------------------
  // Search cache
  // ---------------------------------------------------------------------

  /** Python's `<` on strings: lexicographic by code point. */
  predicate StrLess(a: string, b: string)
    decreases |a|
  {
    if a == [] then b != []
    else if b == [] then false
    else a[0] < b[0] || (a[0] == b[0] && StrLess(a[1..], b[1..]))
  }

  lemma {:induction false} StrLessAsymmetric(a: string, b: string)
    ensures !(StrLess(a, b) && StrLess(b, a))
    decreases |a|
  {
    if a != [] && b != [] && a[0] == b[0] {
      StrLessAsymmetric(a[1..], b[1..]);
    }
  }

  lemma {:induction false} StrLessTransitive(a: string, b: string, c: string)
    requires StrLess(a, b) && StrLess(b, c)
    ensures StrLess(a, c)
    decreases |a|
  {
    if a != [] && a[0] == b[0] && b[0] == c[0] {
      StrLessTransitive(a[1..], b[1..], c[1..]);
    }
  }

  lemma {:induction false} StrLessTotal(a: string, b: string)
    requires a != b
    ensures StrLess(a, b) || StrLess(b, a)
    decreases |a|
  {
    if a != [] && b != [] && a[0] == b[0] {
      assert a == [a[0]] + a[1..] && b == [b[0]] + b[1..];
      StrLessTotal(a[1..], b[1..]);
    }
  }

  type KwArg = (string, string)

  predicate DistinctKeys(kwargs: seq<KwArg>) {
    forall i, j :: 0 <= i < j < |kwargs| ==> kwargs[i].0 != kwargs[j].0
  }

  predicate KeysAscending(kwargs: seq<KwArg>) {
    forall i, j :: 0 <= i < j < |kwargs| ==> StrLess(kwargs[i].0, kwargs[j].0)
  }

  /** Places one keyword argument into a key-sorted list (one step of `sorted`). */
  function InsertByKey(kw: KwArg, sorted: seq<KwArg>): (r: seq<KwArg>)
    requires KeysAscending(sorted)
    requires forall i :: 0 <= i < |sorted| ==> sorted[i].0 != kw.0
    ensures multiset(r) == multiset(sorted) + multiset{kw}
    ensures KeysAscending(r)
  {
    if sorted == [] then [kw]
    else if StrLess(kw.0, sorted[0].0) then
      assert forall j :: 0 <= j < |sorted| ==> StrLess(kw.0, sorted[j].0) by {
        forall j | 0 < j < |sorted| ensures StrLess(kw.0, sorted[j].0) {
          StrLessTransitive(kw.0, sorted[0].0, sorted[j].0);
        }
      }
      [kw] + sorted
    else
      StrLessTotal(kw.0, sorted[0].0);
      var rest := InsertByKey(kw, sorted[1..]);
      assert sorted == [sorted[0]] + sorted[1..];
      HeadBeforeRest(kw, sorted, rest);
      [sorted[0]] + rest
  }

  /** The head of a sorted list comes before everything the insertion into its tail produced. */
  lemma HeadBeforeRest(kw: KwArg, sorted: seq<KwArg>, rest: seq<KwArg>)
    requires sorted != [] && KeysAscending(sorted) && StrLess(sorted[0].0, kw.0)
    requires multiset(rest) == multiset(sorted[1..]) + multiset{kw}
    ensures forall j :: 0 <= j < |rest| ==> StrLess(sorted[0].0, rest[j].0)
  {
    forall j | 0 <= j < |rest| ensures StrLess(sorted[0].0, rest[j].0) {
      assert rest[j] in multiset(rest);
      if rest[j] != kw {
        assert rest[j] in multiset(sorted[1..]);
        var m :| 0 <= m < |sorted[1..]| && sorted[1..][m] == rest[j];
        assert sorted[m + 1] == rest[j];
      }
    }
  }

  /** `sorted(kwargs.items())` for a dictionary (distinct keys). */
  function SortByKey(kwargs: seq<KwArg>): (r: seq<KwArg>)
    requires DistinctKeys(kwargs)
    ensures multiset(r) == multiset(kwargs)
    ensures KeysAscending(r)
  {
    if kwargs == [] then []
    else
      var last := kwargs[|kwargs| - 1];
      var init := kwargs[..|kwargs| - 1];
      assert kwargs == init + [last];
      var sortedInit := SortByKey(init);
      assert forall i :: 0 <= i < |sortedInit| ==> sortedInit[i].0 != last.0 by {
        forall i | 0 <= i < |sortedInit| ensures sortedInit[i].0 != last.0 {
          assert sortedInit[i] in multiset(init);
          var m :| 0 <= m < |init| && init[m] == sortedInit[i];
          assert kwargs[m] == init[m];
        }
      }
      InsertByKey(last, sortedInit)
  }

  /** Two non-empty key-sorted lists with the same entries start with the same entry. */
  lemma SameHead(a: seq<KwArg>, b: seq<KwArg>)
    requires a != [] && KeysAscending(a) && KeysAscending(b)
    requires multiset(a) == multiset(b)
    ensures b != [] && a[0] == b[0]
  {
    assert a[0] in multiset(b);
    assert b[0] in multiset(a);
    var i :| 0 <= i < |a| && a[i] == b[0];
    var j :| 0 <= j < |b| && b[j] == a[0];
    if a[0] != b[0] {
      StrLessAsymmetric(a[0].0, b[0].0);
      assert false;
    }
  }

  /** Removing the same head leaves the same entries. */
  lemma SameTail(a: seq<KwArg>, b: seq<KwArg>)
    requires a != [] && b != [] && a[0] == b[0]
    requires multiset(a) == multiset(b)
    ensures multiset(a[1..]) == multiset(b[1..])
  {
    assert a == [a[0]] + a[1..];
    assert b == [b[0]] + b[1..];
    assert multiset(a) == multiset{a[0]} + multiset(a[1..]);
    assert multiset(b) == multiset{a[0]} + multiset(b[1..]);
    assert multiset(a[1..]) == multiset(a) - multiset{a[0]};
    assert multiset(b[1..]) == multiset(b) - multiset{a[0]};
  }

  /** Two key-sorted lists with the same entries are the same list. */
  lemma {:induction false} AscendingUnique(a: seq<KwArg>, b: seq<KwArg>)
    requires KeysAscending(a) && KeysAscending(b)
    requires multiset(a) == multiset(b)
    ensures a == b
  {
    if a != [] {
      SameHead(a, b);
      SameTail(a, b);
      AscendingUnique(a[1..], b[1..]);
      assert a == [a[0]] + a[1..] && b == [b[0]] + b[1..];
    } else {
      assert |b| == |multiset(b)|;
    }
  }

  /** `"&".join(f"{k}={v}" ...)` over already-rendered values. */
  function RenderParams(kwargs: seq<KwArg>): seq<string> {
    seq(|kwargs|, i requires 0 <= i < |kwargs| => kwargs[i].0 + "=" + kwargs[i].1)
  }

  /**
   * `_make_key` before hashing: `provider:query:k1=v1&k2=v2` with the
   * keyword arguments sorted by name. The MD5 digest is not modelled.
   */
  function MakeKey(provider: string, query: string, kwargs: seq<KwArg>): string
    requires DistinctKeys(kwargs)
  {
    provider + ":" + query + ":" + Join(RenderParams(SortByKey(kwargs)), "&")
  }

  /** The cache key does not depend on the order the keyword arguments were passed in. */
  lemma KeyIgnoresArgumentOrder(provider: string, query: string, a: seq<KwArg>, b: seq<KwArg>)
    requires DistinctKeys(a) && DistinctKeys(b)
    requires multiset(a) == multiset(b)
    ensures MakeKey(provider, query, a) == MakeKey(provider, query, b)
  {
    AscendingUnique(SortByKey(a), SortByKey(b));
  }

  /** `SearchCache`: a key/value store with hit and miss counters (time-to-live eviction not modelled). */
  class SearchCache<V> {
    var cache: map<string, V>
    var hits: nat
    var misses: nat

    constructor ()
      ensures cache == map[] && hits == 0 && misses == 0
    {
      cache := map[];
      hits := 0;
      misses := 0;
    }

    /** `get`: counts exactly one hit or one miss and returns the stored value on a hit. */
    method Get(provider: string, query: string, kwargs: seq<KwArg>) returns (r: Option<V>)
      requires DistinctKeys(kwargs)
      modifies this
      ensures cache == old(cache)
      ensures MakeKey(provider, query, kwargs) in cache ==>
        r == Some(cache[MakeKey(provider, query, kwargs)]) && hits == old(hits) + 1 && misses == old(misses)
      ensures MakeKey(provider, query, kwargs) !in cache ==>
        r == None && misses == old(misses) + 1 && hits == old(hits)
    {
      var key := MakeKey(provider, query, kwargs);
      if key in cache {
        hits := hits + 1;
        r := Some(cache[key]);
      } else {
        misses := misses + 1;
        r := None;
      }
    }

    /** `set`: stores the value under the key; the counters do not move. */
    method Set(provider: string, query: string, value: V, kwargs: seq<KwArg>)
      requires DistinctKeys(kwargs)
      modifies this
      ensures cache == old(cache)[MakeKey(provider, query, kwargs) := value]
      ensures hits == old(hits) && misses == old(misses)
    {
      cache := cache[MakeKey(provider, query, kwargs) := value];
    }

    /** `clear`: empties the cache and zeroes both counters. */
    method Clear()
      modifies this
      ensures cache == map[] && hits == 0 && misses == 0
    {
      cache := map[];
      hits := 0;
      misses := 0;
    }

    /** `hit_rate`: the share of lookups that hit, 0 before any lookup. */
    function HitRate(): (rate: real)
      reads this
      ensures 0.0 <= rate <= 1.0
      ensures hits + misses == 0 ==> rate == 0.0
      ensures hits + misses > 0 ==> rate * (hits + misses) as real == hits as real
    {
      var total := hits + misses;
      if total > 0 then hits as real / total as real else 0.0
    }
  }
}
