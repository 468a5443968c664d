/** The shared cache seen from outside, over all runs: lookups answer as an un-swept map would,
    entries only age, and failed fetches leave no trace. */
module Linearizability {
  import opened Sums
  import opened BkkApi
  import opened CacheSpec
  import opened ServerModel
  import Replies
  import Tickets

  // ---------------------------------------------------------------- linearizable lookups

  /** A recorded lookup answers as the plain map of the puts that precede it, at its clock reading. */
  ghost predicate Linear(w: Windows, puts: seq<Put>, l: LookupRecord) {
    && l.putsSeen <= |puts|
    && l.found == Get(w, Latest(puts[..l.putsSeen]), l.request.stopId, l.at)
  }

  ghost predicate LookupsLinear(c: Params, s: State) {
    && (forall i | 0 <= i < |s.lookups| :: Linear(c.windows, s.shared.puts, s.lookups[i]))
    && (forall i | 0 <= i < |s.lookups| :: s.lookups[i].at <= s.shared.now)
    && (forall i, j | 0 <= i < j < |s.lookups| ::
          s.lookups[i].putsSeen <= s.lookups[j].putsSeen && s.lookups[i].at <= s.lookups[j].at)
  }

  /** No step rewrites the history of puts, turns the clock back or forgets a lookup. */
  lemma HistoryGrows(c: Params, s: State, e: Event)
    requires Enabled(s, e)
    ensures var t := Apply(c, s, e);
            && s.shared.puts <= t.shared.puts && s.shared.now <= t.shared.now
            && (!e.LookUp? ==> t.lookups == s.lookups)
  {
  }

  lemma PrefixKeepsLinear(w: Windows, puts: seq<Put>, more: seq<Put>, l: LookupRecord)
    requires puts <= more && Linear(w, puts, l)
    ensures Linear(w, more, l)
  {
    assert more[..l.putsSeen] == puts[..l.putsSeen];
  }

  lemma NewLookupIsLinear(c: Params, s: State, w: nat)
    requires Sound(c.windows) && Replies.Inv(c, s) && Enabled(s, LookUp(w))
    ensures var t := DoLookUp(c, s, w);
            && t.shared == s.shared && |t.lookups| == |s.lookups| + 1 && t.lookups[..|s.lookups|] == s.lookups
            && Linear(c.windows, s.shared.puts, t.lookups[|s.lookups|])
            && t.lookups[|s.lookups|].putsSeen == |s.shared.puts| && t.lookups[|s.lookups|].at == s.shared.now
  {
    var sh := s.shared;
    Replies.PutsAreStamped(c, sh);
    LookupRefinesPlainMap(c.windows, sh.cache, sh.puts, sh.now, s.workers[w].handler.request.stopId);
    assert sh.puts[..|sh.puts|] == sh.puts;
    LookUpRecords(c, s, w);
  }

  lemma LookUpRecords(c: Params, s: State, w: nat)
    requires Enabled(s, LookUp(w))
    ensures var t, p, sh := DoLookUp(c, s, w), s.workers[w], s.shared;
            var found := Get(c.windows, sh.cache, p.handler.request.stopId, sh.now);
            && t.shared == s.shared
            && t.lookups == s.lookups + [LookupRecord(p.ticket, p.handler.request, sh.now, |sh.puts|, found)]
  {
  }

  lemma LookupsStep(c: Params, s: State, e: Event)
    requires Sound(c.windows) && Replies.Inv(c, s) && LookupsLinear(c, s) && Enabled(s, e)
    ensures LookupsLinear(c, Apply(c, s, e))
  {
    if e.LookUp? {
      NewLookupIsLinear(c, s, e.worker);
      LookupAppended(c, s, DoLookUp(c, s, e.worker));
    } else {
      HistoryGrows(c, s, e);
      LookupsKept(c, s, Apply(c, s, e));
    }
  }

  lemma LookupsKept(c: Params, s: State, t: State)
    requires LookupsLinear(c, s) && t.lookups == s.lookups
    requires s.shared.puts <= t.shared.puts && s.shared.now <= t.shared.now
    ensures LookupsLinear(c, t)
  {
    forall i | 0 <= i < |t.lookups| ensures Linear(c.windows, t.shared.puts, t.lookups[i]) {
      PrefixKeepsLinear(c.windows, s.shared.puts, t.shared.puts, s.lookups[i]);
    }
  }

  lemma LookupAppended(c: Params, s: State, t: State)
    requires LookupsLinear(c, s) && t.shared == s.shared
    requires |t.lookups| == |s.lookups| + 1 && t.lookups[..|s.lookups|] == s.lookups
    requires var l := t.lookups[|s.lookups|];
             Linear(c.windows, s.shared.puts, l) && l.putsSeen == |s.shared.puts| && l.at == s.shared.now
    ensures LookupsLinear(c, t)
  {
    forall i | 0 <= i < |s.lookups| ensures t.lookups[i] == s.lookups[i] && s.lookups[i].putsSeen <= |s.shared.puts| {
      assert t.lookups[..|s.lookups|][i] == t.lookups[i];
      assert Linear(c.windows, s.shared.puts, s.lookups[i]);
    }
  }

  lemma {:induction false} RunLookups(c: Params, s: State, events: seq<Event>, t: State)
    requires Sound(c.windows) && Replies.Inv(c, s) && LookupsLinear(c, s) && Run(c, s, events, t)
    ensures LookupsLinear(c, t)
    decreases |events|
  {
    if events != [] {
      LookupsStep(c, s, events[0]);
      Replies.InvStep(c, s, events[0]);
      RunLookups(c, Apply(c, s, events[0]), events[1..], t);
    }
  }

  /** Linearizability: in every run, whatever the interleaving of inserts, sweeps and lookups of
      all workers and refreshes, each lookup answers as the last-write-wins map of the puts before
      it would at its clock reading, in an order that respects the order of the lookups. */
  lemma LookupsAreLinearizable(c: Params, workers: nat, s: State)
    requires Sound(c.windows) && Reachable(c, workers, s)
    ensures LookupsLinear(c, s)
  {
    var start, events :| Run(c, Init(workers, start), events, s);
    RunLookups(c, Init(workers, start), events, s);
  }

  /** What the plain map of the first puts says at a clock reading is what the reply shows. */
  ghost predicate ShowsPlainMap(w: Windows, puts: seq<Put>, l: LookupRecord, r: Reply) {
    && l.putsSeen <= |puts|
    && (match r.source
        case FromCache(found, at) => at == l.at && found == Get(w, Latest(puts[..l.putsSeen]), r.request.stopId, l.at)
        case FromFetch(_, _) => Get(w, Latest(puts[..l.putsSeen]), r.request.stopId, l.at).Miss?)
  }

  /** The age, at the reading of the lookup, of the entry that was put last for its stop: inside the
      window of the reported state, or outside both if the reply was fetched. */
  ghost predicate AgedFor(w: Windows, puts: seq<Put>, l: LookupRecord, r: Reply) {
    match r.source
    case FromCache(HitFresh(e), at) =>
      (exists k :: LastPutAt(puts, k, r.request.stopId, e)) && at - e.timestamp < w.freshness * 1_000_000_000
    case FromCache(HitStale(e), at) =>
      && (exists k :: LastPutAt(puts, k, r.request.stopId, e))
      && w.freshness * 1_000_000_000 <= at - e.timestamp < w.staleness * 1_000_000_000
    case FromCache(Miss, _) => false
    case FromFetch(_, _) =>
      forall k, e | LastPutAt(puts, k, r.request.stopId, e) ::
        l.at - e.timestamp >= w.freshness * 1_000_000_000 && l.at - e.timestamp >= w.staleness * 1_000_000_000
  }

  /** In every run with sound windows, a cached reply shows the entry put last before its lookup, inside
      the window of the reported state at that reading; and a reply is fetched only when the last entry
      put had left both windows, or there was none. */
  lemma RepliesFollowTheLastPut(c: Params, workers: nat, s: State, i: nat) returns (j: nat)
    requires Sound(c.windows) && Reachable(c, workers, s) && i < |s.replies|
    ensures Tickets.IsLookupOf(s.lookups, j, s.replies[i]) && s.lookups[j].putsSeen <= |s.shared.puts|
    ensures AgedFor(c.windows, s.shared.puts[..s.lookups[j].putsSeen], s.lookups[j], s.replies[i])
  {
    LookupsAreLinearizable(c, workers, s);
    j := Tickets.RepliesComeFromLookups(c, workers, s, i);
    var l, stop := s.lookups[j], s.replies[i].request.stopId;
    assert Linear(c.windows, s.shared.puts, l);
    var puts := s.shared.puts[..l.putsSeen];
    LookupExactly(c.windows, Latest(puts), stop, l.at);
    LatestIsPut(puts, stop);
    Replies.ReachableInv(c, workers, s);
    assert Replies.RecordedOk(c, s.shared, s.replies[i]);
    forall k, e | LastPutAt(puts, k, stop, e) ensures stop in Latest(puts) && Latest(puts)[stop] == e {
      assert puts[k].stop == stop;
      var m :| LastPutAt(puts, m, stop, Latest(puts)[stop]);
      assert k == m;
    }
  }

  /** The replies themselves are linearizable: each comes from the one lookup of its task, and shows
      what the plain map of the puts before that lookup had at its clock reading, or was fetched
      because the plain map had nothing young enough. */
  lemma RepliesAreLinearizable(c: Params, workers: nat, s: State, i: nat)
    requires Sound(c.windows) && Reachable(c, workers, s) && i < |s.replies|
    ensures exists j :: Tickets.IsLookupOf(s.lookups, j, s.replies[i])
                     && ShowsPlainMap(c.windows, s.shared.puts, s.lookups[j], s.replies[i])
                     && AgedFor(c.windows, s.shared.puts[..s.lookups[j].putsSeen], s.lookups[j], s.replies[i])
  {
    LookupsAreLinearizable(c, workers, s);
    var j := RepliesFollowTheLastPut(c, workers, s, i);
    assert Linear(c.windows, s.shared.puts, s.lookups[j]);
  }

  /** At every moment of every run a lookup would answer as the plain map. */
  lemma CacheRefinesPlainMap(c: Params, workers: nat, s: State, stop: StopId)
    requires Sound(c.windows) && Reachable(c, workers, s)
    ensures Answer(c, s, stop) == Get(c.windows, Latest(s.shared.puts), stop, s.shared.now)
  {
    Replies.ReachableInv(c, workers, s);
    Replies.PutsAreStamped(c, s.shared);
    LookupRefinesPlainMap(c.windows, s.shared.cache, s.shared.puts, s.shared.now, stop);
  }

  // ---------------------------------------------------------------- sweeps

  /** Steps that run the second critical section of `put_element`. */
  predicate IsSweep(s: State, e: Event) {
    match e
    case Advance(w, _) => Enabled(s, e) && s.workers[w].handler.refresh.Sweeping?
    case AdvanceJob(j, _) => Enabled(s, e) && s.jobs[j].refresh.Sweeping?
    case _ => false
  }

  predicate IsInsert(s: State, e: Event) {
    match e
    case Advance(w, _) => Enabled(s, e) && s.workers[w].handler.refresh.Inserting?
    case AdvanceJob(j, _) => Enabled(s, e) && s.jobs[j].refresh.Inserting?
    case _ => false
  }

  /** Whatever was put between a thread's insert and its sweep, right after the sweep exactly the
      stops whose last put is younger than the staleness window are cached, so the cache is no
      larger than the number of puts in that window. */
  lemma SweepIsExact(c: Params, workers: nat, s: State, e: Event)
    requires Reachable(c, workers, s) && IsSweep(s, e)
    ensures var sh := Apply(c, s, e).shared;
            && sh.puts == s.shared.puts && sh.now == s.shared.now
            && (forall k :: k in sh.cache
                 <==> k in Latest(sh.puts) && Younger(Latest(sh.puts)[k], c.windows.staleness, sh.now))
            && |sh.cache| <= Sum(sh.puts, YoungPut(c.windows, sh.now))
  {
    Replies.ReachableInv(c, workers, s);
    SweepLeavesExactlyTheYoung(c.windows, s.shared.cache, s.shared.puts, s.shared.now);
    SweepChangesOnlyTheCache(c, s, e);
  }

  lemma SweepChangesOnlyTheCache(c: Params, s: State, e: Event)
    requires IsSweep(s, e)
    ensures Apply(c, s, e).shared == s.shared.(cache := Sweep(c.windows, s.shared.cache, s.shared.now))
  {
  }

  // ---------------------------------------------------------------- ageing

  ghost predicate NoPutFor(stop: StopId, before: seq<Put>, after: seq<Put>) {
    before <= after && forall i | |before| <= i < |after| :: after[i].stop != stop
  }

  /** What a lookup would answer now. */
  function Answer(c: Params, s: State, stop: StopId): Lookup {
    Get(c.windows, s.shared.cache, stop, s.shared.now)
  }

  lemma InsertAges(c: Params, s: State, e: Event, stop: StopId)
    requires IsInsert(s, e) && NoPutFor(stop, s.shared.puts, Apply(c, s, e).shared.puts)
    ensures Answer(c, Apply(c, s, e), stop) == Answer(c, s, stop)
  {
    var sh, th := s.shared, Apply(c, s, e).shared;
    var put := th.puts[|sh.puts|];
    assert put.stop != stop && th.now == sh.now && th.cache == sh.cache[put.stop := put.entry];
  }

  lemma StepAges(c: Params, s: State, e: Event, stop: StopId)
    requires Enabled(s, e) && NoPutFor(stop, s.shared.puts, Apply(c, s, e).shared.puts)
    ensures Older(Answer(c, s, stop), Answer(c, Apply(c, s, e), stop))
  {
    if IsInsert(s, e) {
      InsertAges(c, s, e, stop);
    } else {
      HistoryGrows(c, s, e);
      LookupsAge(c.windows, s.shared.cache, stop, s.shared.now, Apply(c, s, e).shared.now);
      OnlyInsertsAndSweepsTouchTheCache(c, s, e);
    }
  }

  lemma OnlyInsertsAndSweepsTouchTheCache(c: Params, s: State, e: Event)
    requires Enabled(s, e)
    ensures var th := Apply(c, s, e).shared;
            && (!IsInsert(s, e) ==> th.puts == s.shared.puts)
            && (IsSweep(s, e) ==> th.now == s.shared.now && th.cache == Sweep(c.windows, s.shared.cache, th.now))
            && (!IsInsert(s, e) && !IsSweep(s, e) ==> th.cache == s.shared.cache)
  {
    match e {
      case Advance(w, transport) =>
        var h := s.workers[w].handler;
        OnlyInsertingAndSweeping(c, s.shared, Foreground(s.workers[w].ticket), h.request, h.refresh, transport);
      case AdvanceJob(j, transport) =>
        var job := s.jobs[j];
        OnlyInsertingAndSweeping(c, s.shared, Background(job.ticket), job.request, job.refresh, transport);
      case LookUp(w) =>
      case _ => OtherKeepsRefreshes(c, s, e);
    }
  }

  lemma OnlyInsertingAndSweeping(c: Params, sh: Shared, origin: Origin, request: Request, r: Refresh,
                                 transport: Transport)
    requires !r.Finished?
    ensures var b := RefreshStep(c, sh, origin, request, r, transport).0;
            && (!r.Inserting? ==> b.puts == sh.puts)
            && (r.Sweeping? ==> b.now == sh.now && b.cache == Sweep(c.windows, sh.cache, b.now))
            && (!r.Inserting? && !r.Sweeping? ==> b.cache == sh.cache)
  {
  }

  lemma {:induction false} PutsOnlyGrow(c: Params, s: State, events: seq<Event>, t: State)
    requires Run(c, s, events, t)
    ensures s.shared.puts <= t.shared.puts
    decreases |events|
  {
    if events != [] {
      HistoryGrows(c, s, events[0]);
      PutsOnlyGrow(c, Apply(c, s, events[0]), events[1..], t);
    }
  }

  /** Monotone ageing: along any stretch of a run without a put for a stop, its lookups move only
      from fresh to stale to miss, and as long as they hit they return the same entry. */
  lemma {:induction false} EntriesOnlyAge(c: Params, s: State, events: seq<Event>, t: State, stop: StopId)
    requires Run(c, s, events, t) && NoPutFor(stop, s.shared.puts, t.shared.puts)
    ensures Older(Answer(c, s, stop), Answer(c, t, stop))
    decreases |events|
  {
    if events != [] {
      var u := Apply(c, s, events[0]);
      HistoryGrows(c, s, events[0]);
      PutsOnlyGrow(c, u, events[1..], t);
      forall i | |s.shared.puts| <= i < |u.shared.puts| ensures u.shared.puts[i].stop != stop {
        assert t.shared.puts[i] == u.shared.puts[i];
      }
      StepAges(c, s, events[0], stop);
      EntriesOnlyAge(c, u, events[1..], t, stop);
    }
  }

  // ---------------------------------------------------------------- failed fetches

  predicate HasFetched(r: Refresh) { r.Stamping? || r.Inserting? }

  /** No refresh of the stop stands between a successful fetch and its insert. */
  ghost predicate NothingFetched(stop: StopId, s: State) {
    && (forall w | 0 <= w < |s.workers| && InRefresh(s.workers[w]) && s.workers[w].handler.request.stopId == stop ::
          !HasFetched(s.workers[w].handler.refresh))
    && (forall j | 0 <= j < |s.jobs| && s.jobs[j].request.stopId == stop :: !HasFetched(s.jobs[j].refresh))
  }

  ghost predicate FailsFor(c: Params, stop: StopId, request: Request, r: Refresh, transport: Transport) {
    request.stopId == stop && r.Fetching? ==> StationResult(c.clock, request.apiKey, transport).0 != Ok
  }

  /** Upstream fails if this step asks it for the stop. */
  ghost predicate UpstreamFails(c: Params, stop: StopId, s: State, e: Event)
    requires Enabled(s, e)
  {
    match e
    case Advance(w, transport) =>
      FailsFor(c, stop, s.workers[w].handler.request, s.workers[w].handler.refresh, transport)
    case AdvanceJob(j, transport) => FailsFor(c, stop, s.jobs[j].request, s.jobs[j].refresh, transport)
    case _ => true
  }

  ghost predicate FailingRun(c: Params, stop: StopId, s: State, events: seq<Event>, t: State)
    decreases |events|
  {
    if events == [] then s == t
    else && Enabled(s, events[0]) && UpstreamFails(c, stop, s, events[0])
         && FailingRun(c, stop, Apply(c, s, events[0]), events[1..], t)
  }

  ghost predicate NoFetchFor(stop: StopId, before: seq<Fetch>, after: seq<Fetch>) {
    before <= after && forall i | |before| <= i < |after| :: after[i].request.stopId != stop
  }

  /** Between the two, nothing of the stop was fetched or put. */
  ghost predicate NoTraceOf(stop: StopId, a: Shared, b: Shared) {
    NoPutFor(stop, a.puts, b.puts) && NoFetchFor(stop, a.fetches, b.fetches)
  }

  lemma NoTraceChains(stop: StopId, a: Shared, b: Shared, d: Shared)
    requires NoTraceOf(stop, a, b) && NoTraceOf(stop, b, d)
    ensures NoTraceOf(stop, a, d)
  {
    forall i | |a.puts| <= i < |d.puts| ensures d.puts[i].stop != stop {
      if i < |b.puts| { assert d.puts[i] == b.puts[i]; }
    }
    forall i | |a.fetches| <= i < |d.fetches| ensures d.fetches[i].request.stopId != stop {
      if i < |b.fetches| { assert d.fetches[i] == b.fetches[i]; }
    }
  }

  /** A step of a refresh that fails, or of another stop, leaves no trace of the stop. */
  lemma FailingRefresh(c: Params, stop: StopId, sh: Shared, origin: Origin, request: Request, r: Refresh,
                       transport: Transport)
    requires !r.Finished? && FailsFor(c, stop, request, r, transport)
    requires request.stopId == stop ==> !HasFetched(r)
    ensures var (b, q) := RefreshStep(c, sh, origin, request, r, transport);
            NoTraceOf(stop, sh, b) && (request.stopId == stop ==> !HasFetched(q))
  {
  }

  lemma FailingStep(c: Params, stop: StopId, s: State, e: Event)
    requires NothingFetched(stop, s) && Enabled(s, e) && UpstreamFails(c, stop, s, e)
    ensures var t := Apply(c, s, e);
            NothingFetched(stop, t) && NoTraceOf(stop, s.shared, t.shared)
  {
    match e {
      case LookUp(w) => LookUpFetchesNothing(c, stop, s, w);
      case Advance(w, transport) => FailingAdvance(c, stop, s, w, transport);
      case AdvanceJob(j, transport) => FailingAdvanceJob(c, stop, s, j, transport);
      case _ => OtherKeepsRefreshes(c, s, e);
    }
  }

  lemma LookUpFetchesNothing(c: Params, stop: StopId, s: State, w: nat)
    requires NothingFetched(stop, s) && Enabled(s, LookUp(w))
    ensures NothingFetched(stop, DoLookUp(c, s, w)) && DoLookUp(c, s, w).shared == s.shared
  {
  }

  lemma FailingAdvance(c: Params, stop: StopId, s: State, w: nat, transport: Transport)
    requires NothingFetched(stop, s) && Enabled(s, Advance(w, transport))
    requires UpstreamFails(c, stop, s, Advance(w, transport))
    ensures NothingFetched(stop, DoAdvance(c, s, w, transport))
         && NoTraceOf(stop, s.shared, DoAdvance(c, s, w, transport).shared)
  {
    var h := s.workers[w].handler;
    FailingRefresh(c, stop, s.shared, Foreground(s.workers[w].ticket), h.request, h.refresh, transport);
  }

  lemma FailingAdvanceJob(c: Params, stop: StopId, s: State, j: nat, transport: Transport)
    requires NothingFetched(stop, s) && Enabled(s, AdvanceJob(j, transport))
    requires UpstreamFails(c, stop, s, AdvanceJob(j, transport))
    ensures NothingFetched(stop, DoAdvanceJob(c, s, j, transport))
         && NoTraceOf(stop, s.shared, DoAdvanceJob(c, s, j, transport).shared)
  {
    var job := s.jobs[j];
    FailingRefresh(c, stop, s.shared, Background(job.ticket), job.request, job.refresh, transport);
  }

  lemma {:induction false} FailingRunLeavesNoTrace(c: Params, stop: StopId, s: State, events: seq<Event>, t: State)
    requires NothingFetched(stop, s) && FailingRun(c, stop, s, events, t)
    ensures Run(c, s, events, t) && NoTraceOf(stop, s.shared, t.shared)
    decreases |events|
  {
    if events != [] {
      var u := Apply(c, s, events[0]);
      FailingStep(c, stop, s, events[0]);
      FailingRunLeavesNoTrace(c, stop, u, events[1..], t);
      NoTraceChains(stop, s.shared, u.shared, t.shared);
    }
  }

  /** Failure isolation, stop by stop: in a run in which every fetch of one stop fails, in the
      foreground and in the background, and none was on its way to the insert before, nothing is
      recorded or put for it and its lookups only age, whatever the refreshes of other stops do
      meanwhile. */
  lemma FailuresLeaveNoTrace(c: Params, stop: StopId, s: State, events: seq<Event>, t: State)
    requires NothingFetched(stop, s) && FailingRun(c, stop, s, events, t)
    ensures Run(c, s, events, t) && NoTraceOf(stop, s.shared, t.shared)
    ensures Older(Answer(c, s, stop), Answer(c, t, stop))
  {
    FailingRunLeavesNoTrace(c, stop, s, events, t);
    EntriesOnlyAge(c, s, events, t, stop);
  }

  // ---------------------------------------------------------------- counting

  /** The stale hits among the lookups, in order. */
  function StaleHits(lookups: seq<LookupRecord>): seq<LookupRecord> {
    if lookups == [] then [] else
    var last := lookups[|lookups| - 1];
    StaleHits(lookups[..|lookups| - 1]) + if last.found.HitStale? then [last] else []
  }

  /** The refresh that a stale hit starts. */
  predicate StartedBy(j: Job, l: LookupRecord) {
    j.ticket == l.ticket && j.request == l.request
  }

  /** The detached refreshes are one for each stale hit, in order. */
  ghost predicate StartedInOrder(s: State) {
    && |s.jobs| == |StaleHits(s.lookups)|
    && (forall j | 0 <= j < |s.jobs| :: StartedBy(s.jobs[j], StaleHits(s.lookups)[j]))
  }

  // Weight 1 for a fetch whose outcome is to be put as `p`, for `p` itself, and for a refresh that
  // is about to put it.
  function Yields(p: Put): Fetch -> nat {
    (f: Fetch) => if Put(f.request.stopId, Entry(f.arrivals, f.stamp)) == p then 1 else 0
  }

  function IsPut(p: Put): Put -> nat {
    (q: Put) => if q == p then 1 else 0
  }

  function Pending(request: Request, r: Refresh, p: Put): nat {
    if r.Inserting? && Put(request.stopId, r.entry) == p then 1 else 0
  }

  function Inserts(p: Put): Phase -> nat {
    (x: Phase) => if InRefresh(x) then Pending(x.handler.request, x.handler.refresh, p) else 0
  }

  function JobInserts(p: Put): Job -> nat {
    (j: Job) => Pending(j.request, j.refresh, p)
  }

  /** Every successful fetch is put once, under its own stop and clock reading, or is about to be. */
  ghost predicate Conserved(s: State, p: Put) {
    Sum(s.shared.fetches, Yields(p))
    == Sum(s.shared.puts, IsPut(p)) + Sum(s.workers, Inserts(p)) + Sum(s.jobs, JobInserts(p))
  }

  ghost predicate Counted(s: State) {
    StartedInOrder(s) && forall p :: Conserved(s, p)
  }

  lemma RefreshConserves(c: Params, sh: Shared, origin: Origin, request: Request, r: Refresh, transport: Transport,
                         p: Put)
    requires !r.Finished?
    ensures var (b, q) := RefreshStep(c, sh, origin, request, r, transport);
            Sum(b.fetches, Yields(p)) + Sum(sh.puts, IsPut(p)) + Pending(request, r, p)
            == Sum(sh.fetches, Yields(p)) + Sum(b.puts, IsPut(p)) + Pending(request, q, p)
  {
    match r {
      case Stamping(url, used, arrivals) =>
        SumAppend(sh.fetches, Fetch(origin, request, url, used, arrivals, sh.now), Yields(p));
      case Inserting(entry) => SumAppend(sh.puts, Put(request.stopId, entry), IsPut(p));
      case _ =>
    }
  }

  lemma LookUpConserves(c: Params, s: State, w: nat, p: Put)
    requires Conserved(s, p) && Enabled(s, LookUp(w))
    ensures Conserved(DoLookUp(c, s, w), p)
  {
    var t := DoLookUp(c, s, w);
    if |t.jobs| > |s.jobs| {
      SumAppend(s.jobs, t.jobs[|s.jobs|], JobInserts(p));
    }
    SumUpdate(s.workers, w, t.workers[w], Inserts(p));
  }

  lemma AdvanceConserves(c: Params, s: State, w: nat, transport: Transport, p: Put)
    requires Conserved(s, p) && Enabled(s, Advance(w, transport))
    ensures Conserved(DoAdvance(c, s, w, transport), p)
  {
    var h := s.workers[w].handler;
    RefreshConserves(c, s.shared, Foreground(s.workers[w].ticket), h.request, h.refresh, transport, p);
    SumUpdate(s.workers, w, DoAdvance(c, s, w, transport).workers[w], Inserts(p));
  }

  lemma AdvanceJobConserves(c: Params, s: State, j: nat, transport: Transport, p: Put)
    requires Conserved(s, p) && Enabled(s, AdvanceJob(j, transport))
    ensures Conserved(DoAdvanceJob(c, s, j, transport), p)
  {
    var job := s.jobs[j];
    RefreshConserves(c, s.shared, Background(job.ticket), job.request, job.refresh, transport, p);
    SumUpdate(s.jobs, j, DoAdvanceJob(c, s, j, transport).jobs[j], JobInserts(p));
  }

  lemma OtherConserves(c: Params, s: State, e: Event, p: Put)
    requires Conserved(s, p) && Enabled(s, e) && !e.LookUp? && !e.Advance? && !e.AdvanceJob?
    ensures Conserved(Apply(c, s, e), p)
  {
    OtherKeepsRefreshes(c, s, e);
    SumsAgree(s.workers, Apply(c, s, e).workers, Inserts(p));
  }

  lemma StepConserves(c: Params, s: State, e: Event, p: Put)
    requires Conserved(s, p) && Enabled(s, e)
    ensures Conserved(Apply(c, s, e), p)
  {
    match e {
      case LookUp(w) => LookUpConserves(c, s, w, p);
      case Advance(w, transport) => AdvanceConserves(c, s, w, transport, p);
      case AdvanceJob(j, transport) => AdvanceJobConserves(c, s, j, transport, p);
      case _ => OtherConserves(c, s, e, p);
    }
  }

  lemma LookUpStartsInOrder(c: Params, s: State, w: nat)
    requires StartedInOrder(s) && Enabled(s, LookUp(w))
    ensures StartedInOrder(DoLookUp(c, s, w))
  {
    assert DoLookUp(c, s, w).lookups[..|s.lookups|] == s.lookups;
  }

  /** Only a lookup starts a refresh, and a refresh stays with its request. */
  lemma JobsStay(c: Params, s: State, e: Event)
    requires Enabled(s, e) && !e.LookUp?
    ensures var t := Apply(c, s, e);
            && |t.jobs| == |s.jobs|
            && forall j | 0 <= j < |s.jobs| :: t.jobs[j] == s.jobs[j].(refresh := t.jobs[j].refresh)
  {
  }

  lemma StepStartsInOrder(c: Params, s: State, e: Event)
    requires StartedInOrder(s) && Enabled(s, e)
    ensures StartedInOrder(Apply(c, s, e))
  {
    if e.LookUp? {
      LookUpStartsInOrder(c, s, e.worker);
    } else {
      HistoryGrows(c, s, e);
      JobsStay(c, s, e);
    }
  }

  lemma {:induction false} RunCounted(c: Params, s: State, events: seq<Event>, t: State)
    requires Counted(s) && Run(c, s, events, t)
    ensures Counted(t)
    decreases |events|
  {
    if events != [] {
      StepStartsInOrder(c, s, events[0]);
      forall p ensures Conserved(Apply(c, s, events[0]), p) {
        assert Conserved(s, p);
        StepConserves(c, s, events[0], p);
      }
      RunCounted(c, Apply(c, s, events[0]), events[1..], t);
    }
  }

  /** In every run each stale hit has started one background refresh for its request and nothing
      else has started one; and puts match successful fetches one to one by stop, arrivals and
      clock reading, but for those about to be put. */
  lemma RefreshesAreCounted(c: Params, workers: nat, s: State)
    requires Reachable(c, workers, s)
    ensures Counted(s)
  {
    var start, events :| Run(c, Init(workers, start), events, s);
    var init := Init(workers, start);
    forall p ensures Conserved(init, p) { SumConst(init.workers, Inserts(p), 0); }
    RunCounted(c, init, events, s);
  }
}
