/** The stale-while-revalidate cache as values: lookup, insert and sweep, the un-swept
    last-write-wins map they optimise, and the relation between the two. */
module CacheSpec {
  import CStrings
  import ArrivalTypes
  import Sums

  /** A reading of the steady clock, in nanoseconds. */
  type Time = int

  const NANOS_PER_SECOND := 1_000_000_000

  type StopId = CStrings.CStr

  datatype Entry = Entry(arrivals: seq<ArrivalTypes.Arrival>, timestamp: Time)

  /** Freshness and staleness windows, in seconds. */
  datatype Windows = Windows(freshness: int, staleness: int)

  const DEFAULT_WINDOWS := Windows(10, 20)

  /** The state reported by a lookup, with the entry that it copies out on a hit. */
  datatype Lookup = HitFresh(entry: Entry) | HitStale(entry: Entry) | Miss

  datatype Put = Put(stop: StopId, entry: Entry)

  type Cache = map<StopId, Entry>

  predicate Younger(entry: Entry, seconds: int, now: Time) {
    now - entry.timestamp < seconds * NANOS_PER_SECOND
  }

  function Get(w: Windows, cache: Cache, stop: StopId, now: Time): Lookup {
    if stop !in cache then Miss
    else if Younger(cache[stop], w.freshness, now) then HitFresh(cache[stop])
    else if Younger(cache[stop], w.staleness, now) then HitStale(cache[stop])
    else Miss
  }

  /** What a lookup answers, by the age of the entry in nanoseconds. */
  lemma LookupExactly(w: Windows, cache: Cache, stop: StopId, now: Time)
    ensures var found := Get(w, cache, stop, now);
            var freshFor, staleFor := w.freshness * 1_000_000_000, w.staleness * 1_000_000_000;
            && (forall e :: found == HitFresh(e) <==>
                  stop in cache && cache[stop] == e && now - e.timestamp < freshFor)
            && (forall e :: found == HitStale(e) <==>
                  stop in cache && cache[stop] == e && freshFor <= now - e.timestamp < staleFor)
            && (found == Miss <==>
                  (stop in cache ==>
                     freshFor <= now - cache[stop].timestamp && staleFor <= now - cache[stop].timestamp))
  {
  }

  /** What a sweep leaves, by the age of the entry in nanoseconds. */
  lemma SweepExactly(w: Windows, cache: Cache, now: Time)
    ensures var left := Sweep(w, cache, now);
            && (forall k :: k in left <==> k in cache && now - cache[k].timestamp < w.staleness * 1_000_000_000)
            && (forall k | k in left :: left[k] == cache[k])
  {
  }

  function Sweep(w: Windows, cache: Cache, now: Time): Cache {
    map k | k in cache && Younger(cache[k], w.staleness, now) :: cache[k]
  }

  /** The plain map: the last entry put for each stop, never swept. */
  function Latest(puts: seq<Put>): Cache {
    if puts == [] then map[] else
    var last := puts[|puts| - 1];
    Latest(puts[..|puts| - 1])[last.stop := last.entry]
  }

  /** What insert and sweep steps keep between the cache and the puts made so far: a cached entry
      is the last one put, and a stop that was put but is not cached has expired. */
  ghost predicate Agrees(w: Windows, cache: Cache, puts: seq<Put>, now: Time) {
    && (forall k | k in cache :: k in Latest(puts) && Latest(puts)[k] == cache[k])
    && (forall k | k in Latest(puts) && k !in cache :: !Younger(Latest(puts)[k], w.staleness, now))
  }

  lemma InsertKeepsAgreement(w: Windows, cache: Cache, puts: seq<Put>, now: Time, put: Put)
    requires Agrees(w, cache, puts, now)
    ensures Agrees(w, cache[put.stop := put.entry], puts + [put], now)
  {
  }

  lemma SweepKeepsAgreement(w: Windows, cache: Cache, puts: seq<Put>, now: Time)
    requires Agrees(w, cache, puts, now)
    ensures Agrees(w, Sweep(w, cache, now), puts, now)
  {
  }

  lemma TickKeepsAgreement(w: Windows, cache: Cache, puts: seq<Put>, now: Time, later: Time)
    requires Agrees(w, cache, puts, now) && now <= later
    ensures Agrees(w, cache, puts, later)
  {
  }

  /** The windows for which the sweep can never be observed. */
  predicate Sound(w: Windows) {
    w.freshness <= w.staleness || w.freshness <= 0
  }

  /** Entries whose time stamp is not in the future. */
  ghost predicate Stamped(puts: seq<Put>, now: Time) {
    forall i | 0 <= i < |puts| :: puts[i].entry.timestamp <= now
  }

  ghost predicate LastPutAt(puts: seq<Put>, i: int, stop: StopId, entry: Entry) {
    0 <= i < |puts| && puts[i] == Put(stop, entry) && forall j | i < j < |puts| :: puts[j].stop != stop
  }

  lemma {:induction false} LatestIsPut(puts: seq<Put>, stop: StopId)
    ensures stop in Latest(puts) <==> exists i :: 0 <= i < |puts| && puts[i].stop == stop
    ensures stop in Latest(puts) ==> exists i :: LastPutAt(puts, i, stop, Latest(puts)[stop])
  {
    if puts != [] {
      var n := |puts| - 1;
      LatestIsPut(puts[..n], stop);
      if puts[n].stop != stop && stop in Latest(puts) {
        var init := puts[..n];
        var i :| LastPutAt(init, i, stop, Latest(init)[stop]);
        assert puts[i] == init[i];
        forall j | i < j < |puts| ensures puts[j].stop != stop {
          if j < n { assert puts[j] == init[j]; }
        }
        assert LastPutAt(puts, i, stop, Latest(puts)[stop]);
      } else if stop in Latest(puts) {
        assert LastPutAt(puts, n, stop, Latest(puts)[stop]);
      } else {
        forall i | 0 <= i < |puts| ensures puts[i].stop != stop {
          if i < n { assert puts[..n][i] == puts[i]; }
        }
      }
    }
  }

  /** With sound windows every lookup answers as the plain map would. */
  lemma LookupRefinesPlainMap(w: Windows, cache: Cache, puts: seq<Put>, now: Time, stop: StopId)
    requires Sound(w) && Agrees(w, cache, puts, now) && Stamped(puts, now)
    ensures Get(w, cache, stop, now) == Get(w, Latest(puts), stop, now)
  {
    LatestIsPut(puts, stop);
  }

  // ---------------------------------------------------------------- runs of cache operations

  datatype Op = Insert(put: Put) | SweepNow | Wait(nanos: nat)

  datatype History = History(cache: Cache, puts: seq<Put>, now: Time)

  predicate Allowed(h: History, op: Op) {
    op.Insert? ==> op.put.entry.timestamp <= h.now
  }

  function Step(w: Windows, h: History, op: Op): History {
    match op
    case Insert(put) => h.(cache := h.cache[put.stop := put.entry], puts := h.puts + [put])
    case SweepNow => h.(cache := Sweep(w, h.cache, h.now))
    case Wait(nanos) => h.(now := h.now + nanos)
  }

  /** The states that some interleaving of inserts, sweeps and waiting leads to from an empty cache. */
  ghost predicate Leads(w: Windows, start: History, ops: seq<Op>, end: History)
    decreases |ops|
  {
    if ops == [] then start == end
    else Allowed(start, ops[0]) && Leads(w, Step(w, start, ops[0]), ops[1..], end)
  }

  lemma {:induction false} RunsKeepAgreement(w: Windows, start: History, ops: seq<Op>, end: History)
    requires Agrees(w, start.cache, start.puts, start.now) && Stamped(start.puts, start.now)
    requires Leads(w, start, ops, end)
    ensures Agrees(w, end.cache, end.puts, end.now) && Stamped(end.puts, end.now)
    decreases |ops|
  {
    if ops != [] {
      match ops[0] {
        case Insert(put) => InsertKeepsAgreement(w, start.cache, start.puts, start.now, put);
        case SweepNow => SweepKeepsAgreement(w, start.cache, start.puts, start.now);
        case Wait(nanos) => TickKeepsAgreement(w, start.cache, start.puts, start.now, start.now + nanos);
      }
      RunsKeepAgreement(w, Step(w, start, ops[0]), ops[1..], end);
    }
  }

  /** The property a client cares about: no interleaving can be told apart from the plain map. */
  ghost predicate SweepIsInvisible(w: Windows) {
    forall ops, end, stop | Leads(w, History(map[], [], 0), ops, end) ::
      Get(w, end.cache, stop, end.now) == Get(w, Latest(end.puts), stop, end.now)
  }

  /** The sweep is invisible exactly for sound windows: with a freshness window that is positive
      and longer than the staleness window, it removes entries that still count as fresh. */
  lemma SweepInvisibleExactly(w: Windows)
    ensures SweepIsInvisible(w) <==> Sound(w)
  {
    var start := History(map[], [], 0);
    if Sound(w) {
      forall ops, end, stop | Leads(w, start, ops, end)
        ensures Get(w, end.cache, stop, end.now) == Get(w, Latest(end.puts), stop, end.now)
      {
        RunsKeepAgreement(w, start, ops, end);
        LookupRefinesPlainMap(w, end.cache, end.puts, end.now, stop);
      }
    } else {
      var age := (if w.staleness > 0 then w.staleness else 0) * NANOS_PER_SECOND;
      var stop: StopId, entry := "", Entry([], 0);
      var ops := [Insert(Put(stop, entry)), Wait(age), SweepNow];
      var end := History(map[], [Put(stop, entry)], age);
      SweptTooEarly(w, stop, entry, age);
      assert Get(w, end.cache, stop, end.now) == Miss;
      assert Latest(end.puts)[stop] == entry by { LatestIsPut(end.puts, stop); }
      assert Get(w, Latest(end.puts), stop, end.now) == HitFresh(entry);
    }
  }

  lemma SweptTooEarly(w: Windows, stop: StopId, entry: Entry, age: nat)
    requires entry.timestamp == 0 && !Younger(entry, w.staleness, age)
    ensures Leads(w, History(map[], [], 0), [Insert(Put(stop, entry)), Wait(age), SweepNow],
                  History(map[], [Put(stop, entry)], age))
  {
    var a := History(map[], [], 0);
    var b := Step(w, a, Insert(Put(stop, entry)));
    var c := Step(w, b, Wait(age));
    var d := Step(w, c, SweepNow);
    assert b.cache == map[stop := entry] && d.cache == map[];
    assert d == History(map[], [Put(stop, entry)], age);
    var ops := [Insert(Put(stop, entry)), Wait(age), SweepNow];
    assert ops[1..] == [Wait(age), SweepNow] && ops[1..][1..] == [SweepNow] && ops[1..][1..][1..] == [];
    assert Leads(w, c, ops[1..][1..], d);
    assert Leads(w, b, ops[1..], d);
  }

  // ---------------------------------------------------------------- the sweep

  /** Right after a sweep the cached stops are exactly those whose last put is young enough. */
  lemma SweepLeavesExactlyTheYoung(w: Windows, cache: Cache, puts: seq<Put>, now: Time)
    requires Agrees(w, cache, puts, now)
    ensures forall k :: k in Sweep(w, cache, now)
                   <==> k in Latest(puts) && Younger(Latest(puts)[k], w.staleness, now)
    ensures |Sweep(w, cache, now)| <= Sums.Sum(puts, YoungPut(w, now))
  {
    var young := YoungStops(w, puts, now);
    assert Sweep(w, cache, now).Keys == young;
    YoungStopsBound(w, puts, now);
  }

  /** Weight 1 for a put inside the staleness window. */
  function YoungPut(w: Windows, now: Time): Put -> nat {
    (p: Put) => if Younger(p.entry, w.staleness, now) then 1 else 0
  }

  function YoungStops(w: Windows, puts: seq<Put>, now: Time): set<StopId> {
    set k | k in Latest(puts) && Younger(Latest(puts)[k], w.staleness, now)
  }

  lemma {:induction false} YoungStopsBound(w: Windows, puts: seq<Put>, now: Time)
    ensures |YoungStops(w, puts, now)| <= Sums.Sum(puts, YoungPut(w, now))
  {
    if puts == [] {
      assert YoungStops(w, puts, now) == {};
    } else {
      var n := |puts| - 1;
      var init, last := puts[..n], puts[n];
      YoungStopsBound(w, init, now);
      assert init + [last] == puts;
      Sums.SumAppend(init, last, YoungPut(w, now));
      var before := YoungStops(w, init, now);
      if Younger(last.entry, w.staleness, now) {
        Bounded(YoungStops(w, puts, now), before + {last.stop});
      } else {
        Bounded(YoungStops(w, puts, now), before);
      }
    }
  }

  lemma {:induction false} Bounded<T>(a: set<T>, b: set<T>)
    requires a <= b
    ensures |a| <= |b|
  {
    if a != {} {
      var x :| x in a;
      Bounded(a - {x}, b - {x});
    }
  }

  // ---------------------------------------------------------------- ageing

  function Rank(l: Lookup): nat {
    match l
    case HitFresh(_) => 0
    case HitStale(_) => 1
    case Miss => 2
  }

  /** Waiting and sweeping move a lookup only from fresh to stale to miss, and a hit never
      changes its entry. */
  lemma LookupsAge(w: Windows, cache: Cache, stop: StopId, now: Time, later: Time)
    requires now <= later
    ensures var l := Get(w, cache, stop, now);
            && Older(l, Get(w, cache, stop, later))
            && Older(l, Get(w, Sweep(w, cache, now), stop, now))
  {
  }

  ghost predicate Older(before: Lookup, after: Lookup) {
    && Rank(before) <= Rank(after)
    && (!after.Miss? ==> !before.Miss? && before.entry == after.entry)
  }
}
