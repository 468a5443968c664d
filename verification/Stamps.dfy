/** The order of clock readings: when an entry can be replaced by one that was read before it. */
module Stamps {
  import BkkApi
  import opened CacheSpec
  import opened ServerModel
  import opened Sequential
  import opened Witnesses
  import Replies

  ghost predicate StampsGrow(puts: seq<Put>) {
    forall i, j | 0 <= i < j < |puts| && puts[i].stop == puts[j].stop ::
      puts[i].entry.timestamp <= puts[j].entry.timestamp
  }

  ghost predicate AlwaysGrow(c: Params, workers: nat) {
    forall s | Reachable(c, workers, s) :: StampsGrow(s.shared.puts)
  }

  /** A cached entry is older than one that was put before it. */
  ghost predicate Regressed(sh: Shared) {
    exists k :: 0 <= k < |sh.puts| && sh.puts[k].stop in sh.cache
             && sh.puts[k].entry.timestamp > sh.cache[sh.puts[k].stop].timestamp
  }

  ghost predicate NeverRegresses(c: Params, workers: nat) {
    forall s | Reachable(c, workers, s) :: !Regressed(s.shared)
  }

  /** The windows with which a lookup can report a stale hit at all. */
  predicate MayBeStale(w: Windows) {
    w.staleness > 0 && w.freshness < w.staleness
  }

  // ---------------------------------------------------------------- one refresh at a time

  ghost predicate AllBy(puts: seq<Put>, stamp: Time) {
    forall i | 0 <= i < |puts| :: puts[i].entry.timestamp <= stamp
  }

  ghost predicate Ordered(puts: seq<Put>) {
    forall i, j | 0 <= i < j < |puts| :: puts[i].entry.timestamp <= puts[j].entry.timestamp
  }

  ghost predicate StampedLast(sh: Shared, p: Phase) {
    InRefresh(p) && p.handler.refresh.Inserting? ==>
      p.handler.refresh.entry.timestamp <= sh.now && AllBy(sh.puts, p.handler.refresh.entry.timestamp)
  }

  ghost predicate SharedOrdered(sh: Shared) {
    && Ordered(sh.puts) && AllBy(sh.puts, sh.now)
    && (forall k | k in sh.cache :: sh.cache[k].timestamp <= sh.now)
  }

  /** With at most one worker and no detached refresh, puts come in the order of their stamps. */
  ghost predicate Serial(s: State) {
    && |s.workers| <= 1 && s.jobs == [] && SharedOrdered(s.shared)
    && (forall w | 0 <= w < |s.workers| :: StampedLast(s.shared, s.workers[w]))
  }

  lemma SerialLookUp(c: Params, s: State, w: nat)
    requires Serial(s) && !MayBeStale(c.windows) && Enabled(s, LookUp(w))
    ensures Serial(DoLookUp(c, s, w))
  {
    var found := Get(c.windows, s.shared.cache, s.workers[w].handler.request.stopId, s.shared.now);
    assert !found.HitStale?;
  }

  lemma SerialRefresh(c: Params, sh: Shared, origin: Origin, request: Request, r: Refresh, transport: BkkApi.Transport)
    requires SharedOrdered(sh) && !r.Finished?
    requires r.Inserting? ==> r.entry.timestamp <= sh.now && AllBy(sh.puts, r.entry.timestamp)
    ensures var (b, q) := RefreshStep(c, sh, origin, request, r, transport);
            SharedOrdered(b) && (q.Inserting? ==> q.entry.timestamp <= b.now && AllBy(b.puts, q.entry.timestamp))
  {
  }

  lemma SerialAdvance(c: Params, s: State, w: nat, transport: BkkApi.Transport)
    requires Serial(s) && Enabled(s, Advance(w, transport))
    ensures Serial(DoAdvance(c, s, w, transport))
  {
    var h := s.workers[w].handler;
    assert StampedLast(s.shared, s.workers[w]);
    SerialRefresh(c, s.shared, Foreground(s.workers[w].ticket), h.request, h.refresh, transport);
  }

  lemma SerialOther(c: Params, s: State, e: Event)
    requires Serial(s) && Enabled(s, e) && !e.LookUp? && !e.Advance?
    ensures Serial(Apply(c, s, e))
  {
    var t := Apply(c, s, e);
    OtherKeepsRefreshes(c, s, e);
    forall w | 0 <= w < |t.workers| ensures StampedLast(t.shared, t.workers[w]) {
      assert StampedLast(s.shared, s.workers[w]);
    }
  }

  lemma SerialStep(c: Params, s: State, e: Event)
    requires Serial(s) && Enabled(s, e)
    requires s.workers == [] || !MayBeStale(c.windows)
    ensures Serial(Apply(c, s, e)) && |Apply(c, s, e).workers| == |s.workers|
  {
    match e {
      case LookUp(w) => SerialLookUp(c, s, w);
      case Advance(w, transport) => SerialAdvance(c, s, w, transport);
      case _ => SerialOther(c, s, e);
    }
  }

  lemma {:induction false} RunSerial(c: Params, s: State, events: seq<Event>, t: State)
    requires Serial(s) && Run(c, s, events, t)
    requires s.workers == [] || !MayBeStale(c.windows)
    ensures Serial(t)
    decreases |events|
  {
    if events != [] {
      SerialStep(c, s, events[0]);
      RunSerial(c, Apply(c, s, events[0]), events[1..], t);
    }
  }

  lemma SerialPoolsGrow(c: Params, workers: nat, s: State)
    requires workers == 0 || (workers == 1 && !MayBeStale(c.windows))
    requires Reachable(c, workers, s)
    ensures StampsGrow(s.shared.puts)
  {
    var start, events :| Run(c, Init(workers, start), events, s);
    RunSerial(c, Init(workers, start), events, s);
  }

  // ---------------------------------------------------------------- two workers

  const STOP: StopId := "1"

  lemma BothStamped(c: Params, workers: nat) returns (events: seq<Event>, s: State)
    requires workers >= 2
    ensures Run(c, Init(workers, 0), events, s) && s.shared.puts == [] && s.shared.now == 1
    ensures forall w: nat | w < 2 :: InHandler(s, w) && s.workers[w].handler.Refreshing?
              && s.workers[w].handler.request == Ask(STOP) && s.workers[w].handler.refresh.Inserting?
              && s.workers[w].handler.refresh.entry.timestamp == w
  {
    var start := Init(workers, 0);
    var e1, s1 := AcceptAndMiss(c, start, 0, Ask(STOP));
    var e2, s2 := AcceptAndMiss(c, s1, 1, Ask(STOP));
    var e3, s3 := FetchAndStamp(c, s2, 0, STOP, 0);
    var e4;
    e4, s := FetchAndStamp(c, s3, 1, STOP, 1);
    RunsCompose(c, start, e1, s1, e2, s2);
    RunsCompose(c, start, e1 + e2, s2, e3, s3);
    RunsCompose(c, start, e1 + e2 + e3, s3, e4, s);
    events := e1 + e2 + e3 + e4;
  }

  /** Two workers refresh one stop and insert in the other order of their clock readings. */
  lemma TwoWorkersRegress(c: Params, workers: nat) returns (s: State)
    requires workers >= 2
    ensures Reachable(c, workers, s) && !StampsGrow(s.shared.puts) && Regressed(s.shared)
  {
    var e1, a := BothStamped(c, workers);
    var e2, b := WaitAndAdvance(c, a, 1, ANSWER, 1);
    var e3;
    e3, s := WaitAndAdvance(c, b, 0, ANSWER, 1);
    RunsCompose(c, Init(workers, 0), e1, a, e2, b);
    RunsCompose(c, Init(workers, 0), e1 + e2, b, e3, s);
    assert s.shared.puts[0].entry.timestamp == 1 && s.shared.puts[1].entry.timestamp == 0;
  }

  // ---------------------------------------------------------------- one worker, two detached refreshes

  /** Waits until `at`, then takes one step of the detached refresh `j`. */
  lemma WaitAndAdvanceJob(c: Params, s: State, j: nat, at: Time) returns (events: seq<Event>, t: State)
    requires Enabled(s, AdvanceJob(j, ANSWER)) && s.shared.now <= at
    ensures Run(c, s, events, t)
    ensures var job := s.jobs[j];
            var (sh, r) := RefreshStep(c, s.shared.(now := at), Background(job.ticket), job.request, job.refresh,
                                       ANSWER);
            t.shared == sh && t.jobs == s.jobs[j := job.(refresh := r)]
  {
    var a := Apply(c, s, Tick(at - s.shared.now));
    t := DoAdvanceJob(c, a, j, ANSWER);
    RunThen(c, s, [], s, Tick(at - s.shared.now));
    RunThen(c, s, [] + [Tick(at - s.shared.now)], a, AdvanceJob(j, ANSWER));
    events := [] + [Tick(at - s.shared.now)] + [AdvanceJob(j, ANSWER)];
  }

  lemma FetchAndStampJob(c: Params, s: State, j: nat, at: Time) returns (events: seq<Event>, t: State)
    requires j < |s.jobs| && s.jobs[j].request == Ask(STOP) && s.jobs[j].refresh.Fetching? && s.shared.now <= at
    ensures Run(c, s, events, t) && |t.jobs| == |s.jobs|
    ensures t.shared == s.shared.(now := at, fetches := t.shared.fetches)
    ensures StampedAt(t.jobs[j], at) && forall i | 0 <= i < |s.jobs| && i != j :: t.jobs[i] == s.jobs[i]
  {
    AnswerIsOk(c.clock);
    var e1, a := WaitAndAdvanceJob(c, s, j, s.shared.now);
    var e2;
    e2, t := WaitAndAdvanceJob(c, a, j, at);
    RunsCompose(c, s, e1, a, e2, t);
    events := e1 + e2;
  }

  ghost predicate StampedAt(j: Job, at: Time) {
    j.request == Ask(STOP) && j.refresh.Inserting? && j.refresh.entry.timestamp == at
  }

  function StaleAge(w: Windows): nat {
    (if w.freshness > 0 then w.freshness else 0) * NANOS_PER_SECOND
  }

  ghost predicate CachedAtZero(sh: Shared) {
    STOP in sh.cache && sh.cache[STOP].timestamp == 0
  }

  /** A stale hit starts a detached refresh. */
  lemma ServeStale(c: Params, s: State) returns (events: seq<Event>, t: State)
    requires MayBeStale(c.windows) && CachedAtZero(s.shared) && s.shared.now <= StaleAge(c.windows)
    requires s.workers != [] && s.workers[0].Ready? && s.queue == []
    ensures Run(c, s, events, t) && t.queue == [] && t.workers == s.workers
    ensures CachedAtZero(t.shared) && t.shared.now == StaleAge(c.windows)
    ensures t.jobs == s.jobs + [Job(s.taken, Ask(STOP), Fetching)]
  {
    var at := StaleAge(c.windows);
    assert Get(c.windows, s.shared.cache, STOP, at).HitStale?;
    HandleAloneAmountsTo(c, s.shared, s.taken, Ask(STOP), ANSWER, at, at, at);
    var served;
    events, t, served := Serve(c, s, 0, Ask(STOP), at, at, at);
  }

  lemma CachedOnce(c: Params, workers: nat) returns (events: seq<Event>, s: State)
    requires workers >= 1 && MayBeStale(c.windows)
    ensures Run(c, Init(workers, 0), events, s) && s.shared.now == 0 && CachedAtZero(s.shared)
    ensures s.workers != [] && s.workers[0].Ready? && s.queue == [] && s.jobs == []
  {
    events, s := ServeMiss(c, Init(workers, 0), 0, STOP, 0);
  }

  lemma TwoJobs(c: Params, workers: nat) returns (events: seq<Event>, s: State)
    requires workers >= 1 && MayBeStale(c.windows)
    ensures Run(c, Init(workers, 0), events, s) && s.shared.now == StaleAge(c.windows)
    ensures |s.jobs| == 2 && forall j | 0 <= j < 2 :: s.jobs[j].request == Ask(STOP) && s.jobs[j].refresh.Fetching?
  {
    var e1, s1 := CachedOnce(c, workers);
    var e2, s2 := ServeStale(c, s1);
    var e3;
    e3, s := ServeStale(c, s2);
    RunsCompose(c, Init(workers, 0), e1, s1, e2, s2);
    RunsCompose(c, Init(workers, 0), e1 + e2, s2, e3, s);
    events := e1 + e2 + e3;
  }

  lemma BothJobsStamped(c: Params, workers: nat) returns (events: seq<Event>, s: State)
    requires workers >= 1 && MayBeStale(c.windows)
    ensures var at := StaleAge(c.windows);
            && Run(c, Init(workers, 0), events, s) && s.shared.now == at + 1
            && |s.jobs| == 2 && StampedAt(s.jobs[0], at) && StampedAt(s.jobs[1], at + 1)
  {
    var start := Init(workers, 0);
    var e1, s1 := TwoJobs(c, workers);
    var e2, s2 := FetchAndStampJob(c, s1, 0, StaleAge(c.windows));
    var e3;
    e3, s := FetchAndStampJob(c, s2, 1, StaleAge(c.windows) + 1);
    RunsCompose(c, start, e1, s1, e2, s2);
    RunsCompose(c, start, e1 + e2, s2, e3, s);
    events := e1 + e2 + e3;
  }

  /** One worker suffices if it can hit stale entries: two detached refreshes of one stop insert in
      the other order of their clock readings. */
  lemma StaleHitsRegress(c: Params, workers: nat) returns (s: State)
    requires workers >= 1 && MayBeStale(c.windows)
    ensures Reachable(c, workers, s) && !StampsGrow(s.shared.puts) && Regressed(s.shared)
  {
    var start, at := Init(workers, 0), StaleAge(c.windows);
    var e1, s1 := BothJobsStamped(c, workers);
    var e2, s2 := WaitAndAdvanceJob(c, s1, 1, at + 1);
    var e3;
    e3, s := WaitAndAdvanceJob(c, s2, 0, at + 1);
    RunsCompose(c, start, e1, s1, e2, s2);
    RunsCompose(c, start, e1 + e2, s2, e3, s);
    var n := |s1.shared.puts|;
    assert s.shared.puts[n].entry.timestamp == at + 1 && s.shared.puts[n + 1].entry.timestamp == at;
  }

  // ---------------------------------------------------------------- exactly when

  lemma GrowingMeansNoRegress(c: Params, sh: Shared)
    requires StampsGrow(sh.puts) && Agrees(c.windows, sh.cache, sh.puts, sh.now)
    ensures !Regressed(sh)
  {
    forall k | 0 <= k < |sh.puts| && sh.puts[k].stop in sh.cache
      ensures sh.puts[k].entry.timestamp <= sh.cache[sh.puts[k].stop].timestamp
    {
      LatestIsPut(sh.puts, sh.puts[k].stop);
    }
  }

  /** The clock readings of a stop never go backwards, and no cached entry is ever older than one
      put before it, exactly for a pool without a thread and for a pool of one thread whose windows
      rule out stale hits: the clock is read before the insert lock is taken, and any two refreshes
      that may overlap can swap in between. */
  lemma StampsGrowExactly(c: Params, workers: nat)
    ensures AlwaysGrow(c, workers) <==> workers == 0 || (workers == 1 && !MayBeStale(c.windows))
    ensures NeverRegresses(c, workers) <==> AlwaysGrow(c, workers)
  {
    if workers == 0 || (workers == 1 && !MayBeStale(c.windows)) {
      forall s | Reachable(c, workers, s) ensures StampsGrow(s.shared.puts) && !Regressed(s.shared) {
        SerialPoolsGrow(c, workers, s);
        Replies.ReachableInv(c, workers, s);
        GrowingMeansNoRegress(c, s.shared);
      }
    } else if workers >= 2 {
      var s := TwoWorkersRegress(c, workers);
    } else {
      var s := StaleHitsRegress(c, workers);
    }
  }
}
