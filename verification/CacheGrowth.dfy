/** How large the cache can get: the only bound is by time, and it is none on the number. */
module CacheGrowth {
  import BkkApi
  import opened CacheSpec
  import opened ServerModel
  import Witnesses

  ghost predicate Bounded(c: Params, workers: nat) {
    exists bound: nat :: NeverExceeds(c, workers, bound)
  }

  ghost predicate NeverExceeds(c: Params, workers: nat, bound: nat) {
    forall s | Reachable(c, workers, s) :: |s.shared.cache| <= bound
  }

  // ---------------------------------------------------------------- growth

  function StopOfLength(n: nat): (stop: StopId)
    ensures |stop| == n
  {
    seq(n, _ => '1')
  }

  /** Worker 0 is ready, and the cache holds `n` entries put at clock reading 0. */
  ghost predicate Holds(s: State, n: nat) {
    && s.workers != [] && s.workers[0].Ready? && s.queue == [] && s.shared.now == 0
    && HoldsShort(s.shared.cache, n)
  }

  ghost predicate HoldsShort(cache: Cache, n: nat) {
    |cache| == n && forall k | k in cache :: |k| < n && cache[k].timestamp == 0
  }

  lemma OneMore(c: Params, s: State, n: nat) returns (events: seq<Event>, t: State)
    requires Holds(s, n) && c.windows.staleness > 0
    ensures Run(c, s, events, t) && Holds(t, n + 1)
  {
    var stop := StopOfLength(n);
    events, t := Witnesses.ServeMiss(c, s, 0, stop, 0);
    var arrivals := BkkApi.StationResult(c.clock, "k", Witnesses.ANSWER).1;
    ShortAndOneMore(c.windows, s.shared.cache, n, stop, Entry(arrivals, 0));
  }

  lemma ShortAndOneMore(w: Windows, cache: Cache, n: nat, stop: StopId, entry: Entry)
    requires HoldsShort(cache, n) && |stop| == n && entry.timestamp == 0 && w.staleness > 0
    ensures HoldsShort(Sweep(w, cache[stop := entry], 0), n + 1)
  {
    OneMoreIsShort(cache, n, stop, entry);
    assert Sweep(w, cache[stop := entry], 0) == cache[stop := entry];
  }

  lemma OneMoreIsShort(cache: Cache, n: nat, stop: StopId, entry: Entry)
    requires HoldsShort(cache, n) && |stop| == n && entry.timestamp == 0
    ensures HoldsShort(cache[stop := entry], n + 1)
  {
    assert cache[stop := entry].Keys == cache.Keys + {stop};
  }

  /** Any number of stops can be cached at once. */
  lemma {:induction false} CacheReaches(c: Params, workers: nat, n: nat) returns (s: State)
    requires workers > 0 && c.windows.staleness > 0
    ensures Reachable(c, workers, s) && Holds(s, n)
  {
    if n == 0 {
      s := Init(workers, 0);
      assert Run(c, s, [], s);
    } else {
      var before := CacheReaches(c, workers, n - 1);
      var events;
      events, s := OneMore(c, before, n - 1);
      RunsReach(c, workers, before, events, s);
    }
  }

  // ---------------------------------------------------------------- nothing outlives its sweep

  predicate SweepsFor(p: Phase, stop: StopId) {
    InRefresh(p) && p.handler.refresh.Sweeping? && p.handler.request.stopId == stop
  }

  /** Every cached stop was just put by a worker that is about to sweep. */
  ghost predicate Transient(s: State) {
    && s.jobs == []
    && (forall k | k in s.shared.cache ::
          s.shared.cache[k].timestamp <= s.shared.now && exists w :: 0 <= w < |s.workers| && SweepsFor(s.workers[w], k))
    && (forall w | 0 <= w < |s.workers| :: EntryIsPast(s.shared.now, s.workers[w]))
  }

  predicate EntryIsPast(now: Time, p: Phase) {
    InRefresh(p) && p.handler.refresh.Inserting? ==> p.handler.refresh.entry.timestamp <= now
  }

  /** All but worker `w` stand where they stood. */
  lemma OthersSweepOn(s: State, t: State, w: nat, k: StopId)
    requires w < |s.workers| == |t.workers| && t.workers == s.workers[w := t.workers[w]]
    requires exists v :: 0 <= v < |s.workers| && SweepsFor(s.workers[v], k)
    requires !SweepsFor(s.workers[w], k) || SweepsFor(t.workers[w], k)
    ensures exists v :: 0 <= v < |t.workers| && SweepsFor(t.workers[v], k)
  {
    var v :| 0 <= v < |s.workers| && SweepsFor(s.workers[v], k);
    assert SweepsFor(t.workers[v], k);
  }

  lemma TransientLookUp(c: Params, s: State, w: nat)
    requires Transient(s) && c.windows.staleness <= 0 && Enabled(s, LookUp(w))
    ensures Transient(DoLookUp(c, s, w))
  {
    var t := DoLookUp(c, s, w);
    assert !Get(c.windows, s.shared.cache, s.workers[w].handler.request.stopId, s.shared.now).HitStale?;
    forall k | k in s.shared.cache ensures exists v :: 0 <= v < |t.workers| && SweepsFor(t.workers[v], k) {
      OthersSweepOn(s, t, w, k);
    }
  }

  lemma TransientAdvance(c: Params, s: State, w: nat, transport: BkkApi.Transport)
    requires Transient(s) && c.windows.staleness <= 0 && Enabled(s, Advance(w, transport))
    ensures Transient(DoAdvance(c, s, w, transport))
  {
    var t := DoAdvance(c, s, w, transport);
    assert EntryIsPast(s.shared.now, s.workers[w]);
    if s.workers[w].handler.refresh.Sweeping? {
      assert t.shared.cache == map[];
    } else {
      assert forall k :: SweepsFor(t.workers[w], k) ==> k in t.shared.cache;
      forall k | k in t.shared.cache ensures exists v :: 0 <= v < |t.workers| && SweepsFor(t.workers[v], k) {
        if k in s.shared.cache && !SweepsFor(t.workers[w], k) { OthersSweepOn(s, t, w, k); }
      }
    }
  }

  lemma TransientOther(c: Params, s: State, e: Event)
    requires Transient(s) && Enabled(s, e) && !e.LookUp? && !e.Advance?
    ensures Transient(Apply(c, s, e))
  {
    var t := Apply(c, s, e);
    OtherKeepsRefreshes(c, s, e);
    forall w | 0 <= w < |t.workers| ensures EntryIsPast(t.shared.now, t.workers[w]) {
      assert EntryIsPast(s.shared.now, s.workers[w]);
    }
    forall k | k in t.shared.cache ensures exists w :: 0 <= w < |t.workers| && SweepsFor(t.workers[w], k) {
      var w :| 0 <= w < |s.workers| && SweepsFor(s.workers[w], k);
      assert SweepsFor(t.workers[w], k);
    }
  }

  lemma TransientStep(c: Params, s: State, e: Event)
    requires Transient(s) && c.windows.staleness <= 0 && Enabled(s, e)
    ensures Transient(Apply(c, s, e)) && |Apply(c, s, e).workers| == |s.workers|
  {
    match e {
      case LookUp(w) => TransientLookUp(c, s, w);
      case Advance(w, transport) => TransientAdvance(c, s, w, transport);
      case _ => TransientOther(c, s, e);
    }
  }

  lemma {:induction false} RunTransient(c: Params, s: State, events: seq<Event>, t: State)
    requires Transient(s) && c.windows.staleness <= 0 && Run(c, s, events, t)
    ensures Transient(t) && |t.workers| == |s.workers|
    decreases |events|
  {
    if events != [] {
      TransientStep(c, s, events[0]);
      RunTransient(c, Apply(c, s, events[0]), events[1..], t);
    }
  }

  lemma {:induction false} SweepersCover(stops: set<StopId>, workers: seq<Phase>)
    requires forall k | k in stops :: exists w :: 0 <= w < |workers| && SweepsFor(workers[w], k)
    ensures |stops| <= |workers|
  {
    if workers == [] {
      assert stops == {};
    } else {
      var n := |workers| - 1;
      var rest := set k | k in stops && !SweepsFor(workers[n], k);
      forall k | k in rest ensures exists w :: 0 <= w < n && SweepsFor(workers[..n][w], k) {
        var w :| 0 <= w < |workers| && SweepsFor(workers[w], k);
        assert workers[..n][w] == workers[w];
      }
      SweepersCover(rest, workers[..n]);
      if k :| k in stops && k !in rest {
        assert stops == rest + {k};
      } else {
        assert stops == rest;
      }
    }
  }

  /** Without a positive staleness window no more stops are cached than there are workers. */
  lemma TransientCacheIsSmall(c: Params, workers: nat, s: State)
    requires c.windows.staleness <= 0 && Reachable(c, workers, s)
    ensures |s.shared.cache| <= workers
  {
    var start, events :| Run(c, Init(workers, start), events, s);
    RunTransient(c, Init(workers, start), events, s);
    SweepersCover(s.shared.cache.Keys, s.workers);
  }

  // ---------------------------------------------------------------- no thread

  lemma {:induction false} RunWithoutThreads(c: Params, s: State, events: seq<Event>, t: State)
    requires Run(c, s, events, t) && s.workers == [] && s.jobs == [] && s.shared.cache == map[]
    ensures t.shared.cache == map[]
    decreases |events|
  {
    if events != [] {
      RunWithoutThreads(c, Apply(c, s, events[0]), events[1..], t);
    }
  }

  lemma NothingCachedWithoutThreads(c: Params, s: State)
    requires Reachable(c, 0, s)
    ensures s.shared.cache == map[]
  {
    var start, events :| Run(c, Init(0, start), events, s);
    RunWithoutThreads(c, Init(0, start), events, s);
  }

  // ---------------------------------------------------------------- the exact bound

  /** The first `n` workers stand between insert and sweep, each with a stop of its own; the others
      are ready. */
  ghost predicate HeldBefore(s: State, n: nat) {
    && n <= |s.workers| && (forall w | n <= w < |s.workers| :: s.workers[w].Ready?)
    && s.queue == [] && s.shared.now == 0 && HoldsShort(s.shared.cache, n)
  }

  /** Every worker can have put a stop that none has swept yet. */
  lemma {:induction false} InsertsBeforeSweeps(c: Params, workers: nat, n: nat) returns (s: State)
    requires n <= workers
    ensures Reachable(c, workers, s) && |s.workers| == workers && HeldBefore(s, n)
  {
    if n == 0 {
      s := Init(workers, 0);
      assert Run(c, s, [], s);
    } else {
      var before := InsertsBeforeSweeps(c, workers, n - 1);
      var events;
      events, s := OneMoreHeld(c, before, n - 1);
      RunsReach(c, workers, before, events, s);
    }
  }

  lemma OneMoreHeld(c: Params, s: State, n: nat) returns (events: seq<Event>, t: State)
    requires HeldBefore(s, n) && n < |s.workers|
    ensures Run(c, s, events, t) && |t.workers| == |s.workers| && HeldBefore(t, n + 1)
  {
    var stop := StopOfLength(n);
    events, t := Witnesses.InsertMissed(c, s, n, stop);
    OneMoreIsShort(s.shared.cache, n, stop, Entry(BkkApi.StationResult(c.clock, "k", Witnesses.ANSWER).1, 0));
  }

  /** The cache never holds more than `bound` stops exactly when the pool has no thread, or the
      staleness window is not positive and the pool has at most `bound` threads. */
  lemma NeverExceedsExactly(c: Params, workers: nat, bound: nat)
    ensures NeverExceeds(c, workers, bound) <==> workers == 0 || (c.windows.staleness <= 0 && workers <= bound)
  {
    if workers == 0 {
      forall s | Reachable(c, workers, s) ensures |s.shared.cache| <= bound { NothingCachedWithoutThreads(c, s); }
    } else if c.windows.staleness > 0 {
      var s := CacheReaches(c, workers, bound + 1);
    } else if workers <= bound {
      forall s | Reachable(c, workers, s) ensures |s.shared.cache| <= bound { TransientCacheIsSmall(c, workers, s); }
    } else {
      var s := InsertsBeforeSweeps(c, workers, workers);
    }
  }

  /** The number of cached stops is bounded over all runs exactly when the pool has no thread or
      the staleness window is not positive. */
  lemma BoundedExactly(c: Params, workers: nat)
    ensures Bounded(c, workers) <==> workers == 0 || c.windows.staleness <= 0
  {
    NeverExceedsExactly(c, workers, workers);
    forall bound: nat ensures NeverExceeds(c, workers, bound) ==> workers == 0 || c.windows.staleness <= 0 {
      NeverExceedsExactly(c, workers, bound);
    }
  }
}
