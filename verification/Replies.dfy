/** Where replies come from and what they look like, over all runs. */
module Replies {
  import opened Options
  import CStrings
  import ArrivalTypes
  import opened BkkApi
  import opened CacheSpec
  import opened ServerModel
  import Tickets

  // ---------------------------------------------------------------- provenance

  /** A recorded fetch really is the parse of a successful upstream answer for the stop. */
  ghost predicate Genuine(c: Params, f: Fetch, now: Time) {
    && AsksFor(f.url, f.request.stopId, f.request.apiKey)
    && StationResult(c.clock, f.request.apiKey, f.transport) == (Ok, f.arrivals)
    && 1 <= |f.arrivals| <= CStrings.INT_MAX
    && f.stamp <= now
  }

  /** An entry is the outcome of a recorded fetch for this stop. */
  ghost predicate Fetched(fetches: seq<Fetch>, stop: StopId, entry: Entry) {
    exists i :: 0 <= i < |fetches| && fetches[i].request.stopId == stop
             && entry == Entry(fetches[i].arrivals, fetches[i].stamp)
  }

  /** A list is the outcome of a recorded fetch made by this very request or job. */
  ghost predicate FetchedBy(fetches: seq<Fetch>, origin: Origin, request: Request,
                            arrivals: seq<ArrivalTypes.Arrival>)
  {
    exists i :: 0 <= i < |fetches| && fetches[i].origin == origin && fetches[i].request == request
             && fetches[i].arrivals == arrivals
  }

  ghost predicate SharedOk(c: Params, sh: Shared) {
    && (forall i | 0 <= i < |sh.fetches| :: Genuine(c, sh.fetches[i], sh.now))
    && (forall i | 0 <= i < |sh.puts| :: Fetched(sh.fetches, sh.puts[i].stop, sh.puts[i].entry))
    && Agrees(c.windows, sh.cache, sh.puts, sh.now)
  }

  ghost predicate RefreshOk(c: Params, sh: Shared, origin: Origin, request: Request, r: Refresh) {
    match r
    case Fetching => true
    case Stamping(url, transport, fetched) =>
      AsksFor(url, request.stopId, request.apiKey)
      && StationResult(c.clock, request.apiKey, transport) == (Ok, fetched)
    case Inserting(entry) =>
      Fetched(sh.fetches, request.stopId, entry) && FetchedBy(sh.fetches, origin, request, entry.arrivals)
    case Sweeping(shown) => FetchedBy(sh.fetches, origin, request, shown)
    case Finished(status, arrivals) => OutcomeOk(sh, origin, request, status, arrivals)
  }

  ghost predicate OutcomeOk(sh: Shared, origin: Origin, request: Request, status: BkkStatus,
                            arrivals: seq<ArrivalTypes.Arrival>)
  {
    if status == Ok then FetchedBy(sh.fetches, origin, request, arrivals) else arrivals == []
  }

  /** A hit that was right at its clock reading: inside the window of its state and outside the
      windows of fresher states. */
  predicate RightlyFound(w: Windows, found: Lookup, at: Time) {
    match found
    case HitFresh(entry) => Younger(entry, w.freshness, at)
    case HitStale(entry) => !Younger(entry, w.freshness, at) && Younger(entry, w.staleness, at)
    case Miss => false
  }

  ghost predicate ReplyOk(c: Params, sh: Shared, ticket: nat, request: Request, response: Response, source: Source) {
    match source
    case FromCache(found, at) =>
      && RightlyFound(c.windows, found, at) && found.entry.timestamp <= at <= sh.now
      && Fetched(sh.fetches, request.stopId, found.entry)
      && response == Respond(Ok, found.entry.arrivals)
    case FromFetch(status, arrivals) =>
      && OutcomeOk(sh, Foreground(ticket), request, status, arrivals)
      && response == Respond(status, arrivals)
  }

  ghost predicate PhaseOk(c: Params, sh: Shared, p: Phase) {
    p.Handling? ==>
      match p.handler
      case Refreshing(request, r) => RefreshOk(c, sh, Foreground(p.ticket), request, r)
      case Replying(request, response, source) => ReplyOk(c, sh, p.ticket, request, response, source)
      case _ => true
  }

  ghost predicate JobOk(c: Params, sh: Shared, j: Job) {
    RefreshOk(c, sh, Background(j.ticket), j.request, j.refresh)
  }

  ghost predicate RecordedOk(c: Params, sh: Shared, r: Reply) {
    ReplyOk(c, sh, r.ticket, r.request, r.response, r.source)
  }

  ghost predicate Inv(c: Params, s: State) {
    && SharedOk(c, s.shared)
    && (forall w | 0 <= w < |s.workers| :: PhaseOk(c, s.shared, s.workers[w]))
    && (forall j | 0 <= j < |s.jobs| :: JobOk(c, s.shared, s.jobs[j]))
    && (forall i | 0 <= i < |s.replies| :: RecordedOk(c, s.shared, s.replies[i]))
  }

  // ---------------------------------------------------------------- one step

  /** Time passes and fetches are only added. */
  ghost predicate Extends(a: Shared, b: Shared) {
    a.now <= b.now && a.fetches <= b.fetches
  }

  /** Everything recorded or in progress stays right when the shared state is extended. */
  lemma ExtensionKeepsRest(c: Params, s: State, b: Shared)
    requires Inv(c, s) && Extends(s.shared, b)
    ensures forall w | 0 <= w < |s.workers| :: PhaseOk(c, b, s.workers[w])
    ensures forall j | 0 <= j < |s.jobs| :: JobOk(c, b, s.jobs[j])
    ensures forall i | 0 <= i < |s.replies| :: RecordedOk(c, b, s.replies[i])
  {
  }

  lemma PutsAreStamped(c: Params, sh: Shared)
    requires SharedOk(c, sh)
    ensures Stamped(sh.puts, sh.now)
  {
  }

  lemma CachedIsFetched(c: Params, sh: Shared, stop: StopId)
    requires SharedOk(c, sh) && stop in sh.cache
    ensures Fetched(sh.fetches, stop, sh.cache[stop]) && sh.cache[stop].timestamp <= sh.now
  {
    LatestIsPut(sh.puts, stop);
    var i :| LastPutAt(sh.puts, i, stop, Latest(sh.puts)[stop]);
    assert Fetched(sh.fetches, sh.puts[i].stop, sh.puts[i].entry);
    PutsAreStamped(c, sh);
  }

  lemma ExtensionKeepsShared(c: Params, a: Shared, b: Shared)
    requires SharedOk(c, a) && Extends(a, b) && b.puts == a.puts && b.cache == a.cache
    requires forall i | |a.fetches| <= i < |b.fetches| :: Genuine(c, b.fetches[i], b.now)
    ensures SharedOk(c, b)
  {
  }

  /** One step of a refresh, in the foreground or detached, keeps everything right. */
  lemma RefreshStepKeeps(c: Params, a: Shared, origin: Origin, request: Request, r: Refresh, transport: Transport)
    requires SharedOk(c, a) && RefreshOk(c, a, origin, request, r) && !r.Finished?
    ensures var (b, q) := RefreshStep(c, a, origin, request, r, transport);
            SharedOk(c, b) && Extends(a, b) && RefreshOk(c, b, origin, request, q)
  {
    match r {
      case Fetching => StationUrlAsksForStop(request.stopId, request.apiKey);
      case Stamping(url, used, arrivals) => StampKeeps(c, a, origin, request, url, used, arrivals);
      case Inserting(entry) => InsertKeeps(c, a, origin, request, entry);
      case Sweeping(arrivals) => SweepKeepsAgreement(c.windows, a.cache, a.puts, a.now);
    }
  }

  lemma InsertKeeps(c: Params, a: Shared, origin: Origin, request: Request, entry: Entry)
    requires SharedOk(c, a) && RefreshOk(c, a, origin, request, Inserting(entry))
    ensures var put := Put(request.stopId, entry);
            SharedOk(c, a.(cache := a.cache[request.stopId := entry], puts := a.puts + [put]))
  {
    InsertKeepsAgreement(c.windows, a.cache, a.puts, a.now, Put(request.stopId, entry));
  }

  lemma StampKeeps(c: Params, a: Shared, origin: Origin, request: Request, url: string, used: Transport,
                   arrivals: seq<ArrivalTypes.Arrival>)
    requires SharedOk(c, a) && AsksFor(url, request.stopId, request.apiKey)
    requires StationResult(c.clock, request.apiKey, used) == (Ok, arrivals)
    ensures var b := a.(fetches := a.fetches + [Fetch(origin, request, url, used, arrivals, a.now)]);
            SharedOk(c, b) && Extends(a, b)
            && RefreshOk(c, b, origin, request, Inserting(Entry(arrivals, a.now)))
  {
    var b := a.(fetches := a.fetches + [Fetch(origin, request, url, used, arrivals, a.now)]);
    StationOkExactly(c.clock, request.apiKey, used);
    var n := |a.fetches|;
    assert b.fetches[n] == Fetch(origin, request, url, used, arrivals, a.now);
    assert Genuine(c, b.fetches[n], b.now);
    ExtensionKeepsShared(c, a, b);
  }

  lemma TickKeeps(c: Params, s: State, nanos: nat)
    requires Inv(c, s)
    ensures Inv(c, Apply(c, s, Tick(nanos)))
  {
    var b := s.shared.(now := s.shared.now + nanos);
    ExtensionKeepsRest(c, s, b);
    ExtensionKeepsShared(c, s.shared, b);
  }

  /** A hit leads to a reply that is right. */
  lemma HitIsRight(c: Params, sh: Shared, ticket: nat, request: Request)
    requires SharedOk(c, sh) && !Get(c.windows, sh.cache, request.stopId, sh.now).Miss?
    ensures var found := Get(c.windows, sh.cache, request.stopId, sh.now);
            ReplyOk(c, sh, ticket, request, Respond(Ok, found.entry.arrivals), FromCache(found, sh.now))
  {
    CachedIsFetched(c, sh, request.stopId);
  }

  lemma LookUpLeadsToRight(c: Params, s: State, w: nat)
    requires Inv(c, s) && Enabled(s, LookUp(w))
    ensures PhaseOk(c, s.shared, DoLookUp(c, s, w).workers[w])
  {
    var request := s.workers[w].handler.request;
    if !Get(c.windows, s.shared.cache, request.stopId, s.shared.now).Miss? {
      HitIsRight(c, s.shared, s.workers[w].ticket, request);
    }
  }

  lemma LookUpKeeps(c: Params, s: State, w: nat)
    requires Inv(c, s) && Enabled(s, LookUp(w))
    ensures Inv(c, Apply(c, s, LookUp(w)))
  {
    var t := DoLookUp(c, s, w);
    assert t.shared == s.shared && t.replies == s.replies;
    assert t.workers == s.workers[w := t.workers[w]];
    LookUpLeadsToRight(c, s, w);
    forall j | 0 <= j < |t.jobs| ensures JobOk(c, t.shared, t.jobs[j]) {
      if j < |s.jobs| { assert t.jobs[j] == s.jobs[j] && JobOk(c, s.shared, s.jobs[j]); }
    }
  }

  lemma AdvanceKeeps(c: Params, s: State, w: nat, transport: Transport)
    requires Inv(c, s) && Enabled(s, Advance(w, transport))
    ensures Inv(c, Apply(c, s, Advance(w, transport)))
  {
    var h := s.workers[w].handler;
    assert PhaseOk(c, s.shared, s.workers[w]);
    RefreshStepKeeps(c, s.shared, Foreground(s.workers[w].ticket), h.request, h.refresh, transport);
    var t := DoAdvance(c, s, w, transport);
    ExtensionKeepsRest(c, s, t.shared);
    assert PhaseOk(c, t.shared, t.workers[w]);
  }

  lemma AdvanceJobKeeps(c: Params, s: State, j: nat, transport: Transport)
    requires Inv(c, s) && Enabled(s, AdvanceJob(j, transport))
    ensures Inv(c, Apply(c, s, AdvanceJob(j, transport)))
  {
    var job := s.jobs[j];
    assert JobOk(c, s.shared, job);
    RefreshStepKeeps(c, s.shared, Background(job.ticket), job.request, job.refresh, transport);
    var t := DoAdvanceJob(c, s, j, transport);
    ExtensionKeepsRest(c, s, t.shared);
    assert JobOk(c, t.shared, t.jobs[j]);
  }

  lemma SendKeeps(c: Params, s: State, w: nat)
    requires Inv(c, s) && Enabled(s, Send(w))
    ensures Inv(c, Apply(c, s, Send(w)))
  {
    assert PhaseOk(c, s.shared, s.workers[w]);
    var t := Apply(c, s, Send(w));
    assert RecordedOk(c, t.shared, t.replies[|s.replies|]);
  }

  lemma InvStep(c: Params, s: State, e: Event)
    requires Inv(c, s) && Enabled(s, e)
    ensures Inv(c, Apply(c, s, e))
  {
    match e {
      case Tick(nanos) => TickKeeps(c, s, nanos);
      case LookUp(w) => LookUpKeeps(c, s, w);
      case Advance(w, transport) => AdvanceKeeps(c, s, w, transport);
      case AdvanceJob(j, transport) => AdvanceJobKeeps(c, s, j, transport);
      case Send(w) => SendKeeps(c, s, w);
      case _ => OtherKeeps(c, s, e);
    }
  }

  predicate MayHoldData(h: Handler) { h.Refreshing? || h.Replying? }

  lemma OtherKeeps(c: Params, s: State, e: Event)
    requires Inv(c, s) && Enabled(s, e)
    requires !e.Tick? && !e.LookUp? && !e.Advance? && !e.AdvanceJob? && !e.Send?
    ensures Inv(c, Apply(c, s, e))
  {
    var t := Apply(c, s, e);
    assert t.shared == s.shared && t.jobs == s.jobs && t.replies == s.replies;
    assert |t.workers| == |s.workers|;
    forall w | 0 <= w < |t.workers| ensures PhaseOk(c, t.shared, t.workers[w]) {
      assert PhaseOk(c, s.shared, s.workers[w]);
      assert t.workers[w] == s.workers[w] || !t.workers[w].Handling? || !MayHoldData(t.workers[w].handler);
    }
  }

  // ---------------------------------------------------------------- all runs

  lemma {:induction false} RunInv(c: Params, s: State, events: seq<Event>, t: State)
    requires Inv(c, s) && Run(c, s, events, t)
    ensures Inv(c, t)
    decreases |events|
  {
    if events != [] {
      InvStep(c, s, events[0]);
      RunInv(c, Apply(c, s, events[0]), events[1..], t);
    }
  }

  lemma ReachableInv(c: Params, workers: nat, s: State)
    requires Reachable(c, workers, s)
    ensures Inv(c, s)
  {
    var start, events :| Run(c, Init(workers, start), events, s);
    RunInv(c, Init(workers, start), events, s);
  }

  // ---------------------------------------------------------------- theorems

  /** The reply shows the first sixteen arrivals of a list, or all of them if there are fewer. */
  predicate Shows(response: Response, arrivals: seq<ArrivalTypes.Arrival>) {
    && response.numberOfArrivals == (if |arrivals| < 16 then |arrivals| else 16)
    && |response.arrivals| == 16
    && (forall i | 0 <= i < response.numberOfArrivals :: response.arrivals[i] == arrivals[i])
    && (forall i | response.numberOfArrivals <= i < 16 :: response.arrivals[i] == ArrivalTypes.EMPTY_ARRIVAL)
  }

  lemma RespondShows(status: BkkStatus, arrivals: seq<ArrivalTypes.Arrival>)
    requires |arrivals| <= CStrings.INT_MAX
    ensures Shows(Respond(status, arrivals), arrivals) && Respond(status, arrivals).status == status
  {
  }

  /** How a fetch can justify a reply: it is the request's own, or its entry was found in the cache
      at a clock reading when it was younger than the window of the reported state. */
  ghost predicate Justifies(w: Windows, f: Fetch, r: Reply) {
    match r.source
    case FromFetch(_, _) => f.origin == Foreground(r.ticket) && f.request == r.request
    case FromCache(HitFresh(_), at) => f.stamp <= at && at - f.stamp < w.freshness * 1_000_000_000
    case FromCache(HitStale(_), at) => f.stamp <= at && at - f.stamp < w.staleness * 1_000_000_000
                                       && at - f.stamp >= w.freshness * 1_000_000_000
    case FromCache(Miss, _) => false
  }

  /** Provenance and bounded staleness: every Ok reply ever sent shows the outcome of one genuine
      successful fetch for the same stop, and that fetch justifies it at the clock reading of the
      one lookup recorded for the task. */
  lemma OkRepliesAreJustified(c: Params, workers: nat, s: State, i: nat)
    requires Reachable(c, workers, s) && i < |s.replies| && s.replies[i].response.status == Ok
    ensures exists k :: 0 <= k < |s.shared.fetches|
              && s.shared.fetches[k].request.stopId == s.replies[i].request.stopId
              && Genuine(c, s.shared.fetches[k], s.shared.now)
              && Shows(s.replies[i].response, s.shared.fetches[k].arrivals)
              && Justifies(c.windows, s.shared.fetches[k], s.replies[i])
    ensures exists j :: Tickets.IsLookupOf(s.lookups, j, s.replies[i])
  {
    var j := Tickets.RepliesComeFromLookups(c, workers, s, i);
    ReachableInv(c, workers, s);
    assert RecordedOk(c, s.shared, s.replies[i]);
    if s.replies[i].source.FromCache? {
      var k := CachedReplyIsJustified(c, s.shared, s.replies[i]);
    } else {
      var k := FetchedReplyIsJustified(c, s.shared, s.replies[i]);
    }
  }

  lemma CachedReplyIsJustified(c: Params, sh: Shared, r: Reply) returns (k: nat)
    requires SharedOk(c, sh) && RecordedOk(c, sh, r) && r.source.FromCache?
    ensures k < |sh.fetches| && sh.fetches[k].request.stopId == r.request.stopId
    ensures Genuine(c, sh.fetches[k], sh.now)
    ensures Shows(r.response, sh.fetches[k].arrivals) && Justifies(c.windows, sh.fetches[k], r)
  {
    var entry := r.source.found.entry;
    k :| 0 <= k < |sh.fetches| && sh.fetches[k].request.stopId == r.request.stopId
      && entry == Entry(sh.fetches[k].arrivals, sh.fetches[k].stamp);
    assert Genuine(c, sh.fetches[k], sh.now);
    RespondShows(Ok, entry.arrivals);
  }

  lemma FetchedReplyIsJustified(c: Params, sh: Shared, r: Reply) returns (k: nat)
    requires SharedOk(c, sh) && RecordedOk(c, sh, r) && r.source.FromFetch? && r.response.status == Ok
    ensures k < |sh.fetches| && sh.fetches[k].request.stopId == r.request.stopId
    ensures Genuine(c, sh.fetches[k], sh.now)
    ensures Shows(r.response, sh.fetches[k].arrivals) && Justifies(c.windows, sh.fetches[k], r)
  {
    var arrivals := r.source.arrivals;
    assert FetchedBy(sh.fetches, Foreground(r.ticket), r.request, arrivals);
    k :| 0 <= k < |sh.fetches| && sh.fetches[k].origin == Foreground(r.ticket)
      && sh.fetches[k].request == r.request && sh.fetches[k].arrivals == arrivals;
    assert Genuine(c, sh.fetches[k], sh.now);
    RespondShows(Ok, arrivals);
  }

  /** Every reply ever sent has sixteen slots; it is Ok exactly with 1 to 16 arrivals and an
      error exactly with none. */
  lemma RepliesAreShaped(c: Params, workers: nat, s: State, i: nat)
    requires Reachable(c, workers, s) && i < |s.replies|
    ensures var response := s.replies[i].response;
            && |response.arrivals| == 16
            && (response.status == Ok <==> 1 <= response.numberOfArrivals <= 16)
            && (response.status != Ok <==> response.numberOfArrivals == 0)
            && (response.status != Ok ==> response.arrivals == EmptyArrivals(16))
  {
    ReachableInv(c, workers, s);
    var r := s.replies[i];
    assert RecordedOk(c, s.shared, r);
    if r.response.status == Ok {
      OkRepliesAreJustified(c, workers, s, i);
    } else {
      assert r.response == Respond(r.response.status, []);
    }
  }

  // ---------------------------------------------------------------- whose request is served

  function RequestOf(h: Handler): Option<Request> {
    match h
    case Looking(request) => Some(request)
    case Refreshing(request, _) => Some(request)
    case Replying(request, _, _) => Some(request)
    case _ => None
  }

  /** A worker serves the request that was received for its task. */
  ghost predicate ServesReceived(received: seq<Receipt>, p: Phase) {
    p.Handling? && RequestOf(p.handler).Some? ==> Receipt(p.ticket, RequestOf(p.handler).value) in received
  }

  ghost predicate AllReceived(s: State) {
    && (forall w | 0 <= w < |s.workers| :: ServesReceived(s.received, s.workers[w]))
    && (forall j | 0 <= j < |s.jobs| :: Receipt(s.jobs[j].ticket, s.jobs[j].request) in s.received)
    && (forall i | 0 <= i < |s.lookups| :: Receipt(s.lookups[i].ticket, s.lookups[i].request) in s.received)
    && (forall i | 0 <= i < |s.replies| :: Receipt(s.replies[i].ticket, s.replies[i].request) in s.received)
  }

  lemma LookUpReceived(c: Params, s: State, w: nat)
    requires AllReceived(s) && Enabled(s, LookUp(w))
    ensures AllReceived(DoLookUp(c, s, w))
  {
    assert ServesReceived(s.received, s.workers[w]);
  }

  lemma SendReceived(c: Params, s: State, w: nat)
    requires AllReceived(s) && Enabled(s, Send(w))
    ensures AllReceived(Apply(c, s, Send(w)))
  {
    assert ServesReceived(s.received, s.workers[w]);
  }

  lemma ReceiveReceived(c: Params, s: State, w: nat, message: Option<Request>)
    requires AllReceived(s) && Enabled(s, Receive(w, message))
    ensures AllReceived(Apply(c, s, Receive(w, message)))
  {
  }

  lemma AdvanceReceived(c: Params, s: State, w: nat, transport: Transport)
    requires AllReceived(s) && Enabled(s, Advance(w, transport))
    ensures AllReceived(DoAdvance(c, s, w, transport))
  {
    assert ServesReceived(s.received, s.workers[w]);
  }

  lemma OtherReceived(c: Params, s: State, e: Event)
    requires AllReceived(s) && Enabled(s, e)
    requires !e.LookUp? && !e.Send? && !e.Receive? && !e.Advance?
    ensures AllReceived(Apply(c, s, e))
  {
    var t := Apply(c, s, e);
    assert t.received == s.received && |t.workers| == |s.workers|;
    forall w | 0 <= w < |t.workers| ensures ServesReceived(t.received, t.workers[w]) {
      assert ServesReceived(s.received, s.workers[w]);
      assert t.workers[w] == s.workers[w] || !t.workers[w].Handling? || t.workers[w].handler.Receiving?;
    }
  }

  lemma {:induction false} RunReceived(c: Params, s: State, events: seq<Event>, t: State)
    requires AllReceived(s) && Run(c, s, events, t)
    ensures AllReceived(t)
    decreases |events|
  {
    if events != [] {
      match events[0] {
        case LookUp(w) => LookUpReceived(c, s, w);
        case Send(w) => SendReceived(c, s, w);
        case Receive(w, message) => ReceiveReceived(c, s, w, message);
        case Advance(w, transport) => AdvanceReceived(c, s, w, transport);
        case _ => OtherReceived(c, s, events[0]);
      }
      RunReceived(c, Apply(c, s, events[0]), events[1..], t);
    }
  }

  /** In every run each lookup, each background refresh and each reply is for the one request that was
      received under its ticket. */
  lemma RequestsAreServedUnchanged(c: Params, workers: nat, s: State)
    requires Reachable(c, workers, s)
    ensures AllReceived(s) && Tickets.OneReceiptEach(s.received)
  {
    Tickets.ReceivedAndLookedUpOnce(c, workers, s);
    var start, events :| Run(c, Init(workers, start), events, s);
    RunReceived(c, Init(workers, start), events, s);
  }
}
