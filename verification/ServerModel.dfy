/** The thread pool, the shared cache and the detached refreshes as one step system.
    Every critical section of the source is one step, and steps of different threads interleave
    freely. Sequences named `submitted`, `received`, `puts`, `fetches`, `lookups`, `dropped`,
    `replies` and `closed`, and the counters `taken` and `stoppedAt`, only record what happened. */
module ServerModel {
  import opened Options
  import CStrings
  import opened ArrivalTypes
  import opened BkkApi
  import opened CacheSpec
  import ResponseParser

  datatype Params = Params(windows: Windows, clock: ResponseParser.Clock)

  datatype Request = Request(stopId: StopId, apiKey: CStrings.CStr)

  const MAX_ARRIVALS := 16

  datatype Response = Response(status: BkkStatus, numberOfArrivals: int, arrivals: seq<Arrival>)

  function EmptyArrivals(n: nat): (r: seq<Arrival>)
    ensures |r| == n
  {
    seq(n, _ => EMPTY_ARRIVAL)
  }

  /** The reply for a status and a list of arrivals; the list size is cast to `int`. */
  function Respond(status: BkkStatus, arrivals: seq<Arrival>): Response {
    var size := CStrings.AsInt32(|arrivals|);
    var n := if size < MAX_ARRIVALS then size else MAX_ARRIVALS;
    var shown := if n < 0 then [] else arrivals[..n];
    Response(status, n, shown + EmptyArrivals(MAX_ARRIVALS - |shown|))
  }

  // ---------------------------------------------------------------- refreshing one stop

  /** The request a fetch was made for: by its own handler, or detached after a stale hit. */
  datatype Origin = Foreground(ticket: nat) | Background(ticket: nat)

  /** A successful upstream fetch, recorded when its clock reading is taken. */
  datatype Fetch = Fetch(origin: Origin, request: Request, url: string, transport: Transport,
                         arrivals: seq<Arrival>, stamp: Time)

  /** Where `fresh_fetch_and_update_cache` stands between its steps. */
  datatype Refresh =
    | Fetching
    | Stamping(url: string, transport: Transport, fetched: seq<Arrival>)
    | Inserting(entry: Entry)
    | Sweeping(shown: seq<Arrival>)
    | Finished(status: BkkStatus, arrivals: seq<Arrival>)

  /** What all threads share besides the queue. */
  datatype Shared = Shared(now: Time, cache: Cache, puts: seq<Put>, fetches: seq<Fetch>)

  function RefreshStep(c: Params, sh: Shared, origin: Origin, request: Request, r: Refresh,
                       transport: Transport): (Shared, Refresh)
    requires !r.Finished?
  {
    match r
    case Fetching =>
      var (status, arrivals) := StationResult(c.clock, request.apiKey, transport);
      if status != Ok then (sh, Finished(status, []))
      else (sh, Stamping(StationUrl(request.stopId, request.apiKey), transport, arrivals))
    case Stamping(url, used, arrivals) =>
      (sh.(fetches := sh.fetches + [Fetch(origin, request, url, used, arrivals, sh.now)]),
       Inserting(Entry(arrivals, sh.now)))
    case Inserting(entry) =>
      (sh.(cache := sh.cache[request.stopId := entry], puts := sh.puts + [Put(request.stopId, entry)]),
       Sweeping(entry.arrivals))
    case Sweeping(arrivals) =>
      (sh.(cache := Sweep(c.windows, sh.cache, sh.now)), Finished(Ok, arrivals))
  }

  // ---------------------------------------------------------------- workers

  /** Where the contents of a reply came from. */
  datatype Source = FromCache(found: Lookup, at: Time) | FromFetch(status: BkkStatus, arrivals: seq<Arrival>)

  /** Where `handle_client` stands. */
  datatype Handler =
    | Receiving
    | Looking(request: Request)
    | Refreshing(request: Request, refresh: Refresh)
    | Replying(request: Request, response: Response, source: Source)
    | Closing

  /** Where a worker stands. `Ready` and `Woken` workers contend for the queue lock to evaluate
      the wait predicate; a `Blocked` worker is inside `wait`. */
  datatype Phase =
    | Ready
    | Blocked
    | Woken
    | Handling(ticket: nat, fd: int, handler: Handler)
    | Exited

  /** What a worker does with the queue lock held. */
  datatype Verdict = Sleep | Leave | Take

  function Decide(queue: seq<int>, stop: bool): Verdict {
    if queue != [] then Take else if stop then Leave else Sleep
  }

  // ---------------------------------------------------------------- the system

  datatype Job = Job(ticket: nat, request: Request, refresh: Refresh)

  /** A request that was received whole. */
  datatype Receipt = Receipt(ticket: nat, request: Request)

  /** A lookup with its clock reading, the number of puts before it, and its answer. */
  datatype LookupRecord = LookupRecord(ticket: nat, request: Request, at: Time, putsSeen: nat, found: Lookup)

  datatype Reply = Reply(ticket: nat, request: Request, response: Response, source: Source)

  datatype State = State(
    shared: Shared,
    queue: seq<int>,            // task_queue: client descriptors
    stop: bool,
    notifyAllDue: bool,         // the destructor has set `stop` but not yet notified
    pendingNotify: nat,         // calls of `submit` between the push and `notify_one`
    workers: seq<Phase>,
    jobs: seq<Job>,             // detached background refreshes
    submitted: seq<int>,        // descriptors ever pushed; a task's ticket is its index here
    taken: nat,                 // how many tasks were popped
    stoppedAt: nat,             // how many tasks had been submitted when `stop` was set
    received: seq<Receipt>,
    lookups: seq<LookupRecord>,
    dropped: seq<nat>,          // tickets whose request was not received whole
    replies: seq<Reply>,
    closed: seq<nat>)           // tickets whose descriptor was closed

  datatype Event =
    | Tick(nanos: nat)
    | Push(fd: int)
    | NotifyOne(target: Option<nat>)
    | SpuriousWake(worker: nat)
    | Check(worker: nat)
    | Receive(worker: nat, message: Option<Request>)
    | LookUp(worker: nat)
    | Advance(worker: nat, transport: Transport)
    | AdvanceJob(job: nat, transport: Transport)
    | Send(worker: nat)
    | Close(worker: nat)
    | Stop
    | NotifyAll

  function Init(workers: nat, start: Time): State {
    State(Shared(start, map[], [], []), [], false, false, 0, seq(workers, _ => Ready), [], [], 0, 0,
          [], [], [], [], [])
  }

  predicate InHandler(s: State, w: nat) {
    w < |s.workers| && s.workers[w].Handling?
  }

  predicate Enabled(s: State, e: Event) {
    match e
    case Tick(_) => true
    case Push(_) => true
    case NotifyOne(target) =>
      s.pendingNotify > 0 &&
      (match target
       case None => forall w | 0 <= w < |s.workers| :: s.workers[w] != Blocked
       case Some(w) => w < |s.workers| && s.workers[w] == Blocked)
    case SpuriousWake(w) => w < |s.workers| && s.workers[w] == Blocked
    case Check(w) => w < |s.workers| && (s.workers[w] == Ready || s.workers[w] == Woken)
    case Receive(w, _) => InHandler(s, w) && s.workers[w].handler.Receiving?
    case LookUp(w) => InHandler(s, w) && s.workers[w].handler.Looking?
    case Advance(w, _) => InHandler(s, w) && s.workers[w].handler.Refreshing?
                          && !s.workers[w].handler.refresh.Finished?
    case AdvanceJob(j, _) => j < |s.jobs| && !s.jobs[j].refresh.Finished?
    case Send(w) => InHandler(s, w) && s.workers[w].handler.Replying?
    case Close(w) => InHandler(s, w) && s.workers[w].handler.Closing?
    case Stop => !s.stop
    case NotifyAll => s.notifyAllDue
  }

  /** What comes from outside is never ruled out: time passes, clients come at any moment, send whatever
      they like or come short, a blocked worker may wake up by itself, upstream does anything to a
      fetch, and the destructor may start. */
  lemma OutsideIsFree(s: State, nanos: nat, fd: int, w: nat, j: nat, message: Option<Request>, transport: Transport)
    ensures Enabled(s, Tick(nanos)) && Enabled(s, Push(fd)) && (!s.stop ==> Enabled(s, Stop))
    ensures w < |s.workers| && s.workers[w].Blocked? ==> Enabled(s, SpuriousWake(w))
    ensures w < |s.workers| && s.workers[w].Handling? && s.workers[w].handler.Receiving? ==>
              Enabled(s, Receive(w, message))
    ensures w < |s.workers| && InRefresh(s.workers[w]) && s.workers[w].handler.refresh.Fetching? ==>
              Enabled(s, Advance(w, transport))
    ensures j < |s.jobs| && s.jobs[j].refresh.Fetching? ==> Enabled(s, AdvanceJob(j, transport))
  {
  }

  function WakeAll(workers: seq<Phase>): (r: seq<Phase>)
    ensures |r| == |workers|
    ensures forall w | 0 <= w < |r| :: r[w] == if workers[w] == Blocked then Woken else workers[w]
  {
    if workers == [] then [] else
    [if workers[0] == Blocked then Woken else workers[0]] + WakeAll(workers[1..])
  }

  function DoCheck(s: State, w: nat): State
    requires w < |s.workers|
  {
    match Decide(s.queue, s.stop)
    case Sleep => s.(workers := s.workers[w := Blocked])
    case Leave => s.(workers := s.workers[w := Exited])
    case Take => s.(workers := s.workers[w := Handling(s.taken, s.queue[0], Receiving)],
                    queue := s.queue[1..], taken := s.taken + 1)
  }

  /** Moves worker `w`, which is handling a task, to another place in the handler. */
  function At(s: State, w: nat, h: Handler): seq<Phase>
    requires InHandler(s, w)
  {
    s.workers[w := Handling(s.workers[w].ticket, s.workers[w].fd, h)]
  }

  function DoLookUp(c: Params, s: State, w: nat): State
    requires Enabled(s, LookUp(w))
  {
    var request := s.workers[w].handler.request;
    var sh := s.shared;
    var found := Get(c.windows, sh.cache, request.stopId, sh.now);
    var record := LookupRecord(s.workers[w].ticket, request, sh.now, |sh.puts|, found);
    var s' := s.(lookups := s.lookups + [record]);
    match found
    case HitFresh(entry) =>
      s'.(workers := At(s, w, Replying(request, Respond(Ok, entry.arrivals), FromCache(found, sh.now))))
    case HitStale(entry) =>
      s'.(workers := At(s, w, Replying(request, Respond(Ok, entry.arrivals), FromCache(found, sh.now))),
          jobs := s.jobs + [Job(s.workers[w].ticket, request, Fetching)])
    case Miss =>
      s'.(workers := At(s, w, Refreshing(request, Fetching)))
  }

  function DoAdvance(c: Params, s: State, w: nat, transport: Transport): State
    requires Enabled(s, Advance(w, transport))
  {
    var h := s.workers[w].handler;
    var (sh, r) := RefreshStep(c, s.shared, Foreground(s.workers[w].ticket), h.request, h.refresh, transport);
    var next := if r.Finished?
                then Replying(h.request, Respond(r.status, r.arrivals), FromFetch(r.status, r.arrivals))
                else Refreshing(h.request, r);
    s.(shared := sh, workers := At(s, w, next))
  }

  function DoAdvanceJob(c: Params, s: State, j: nat, transport: Transport): State
    requires Enabled(s, AdvanceJob(j, transport))
  {
    var job := s.jobs[j];
    var (sh, r) := RefreshStep(c, s.shared, Background(job.ticket), job.request, job.refresh, transport);
    s.(shared := sh, jobs := s.jobs[j := job.(refresh := r)])
  }

  function Apply(c: Params, s: State, e: Event): State
    requires Enabled(s, e)
  {
    match e
    case Tick(nanos) => s.(shared := s.shared.(now := s.shared.now + nanos))
    case Push(fd) => s.(queue := s.queue + [fd], submitted := s.submitted + [fd],
                        pendingNotify := s.pendingNotify + 1)
    case NotifyOne(target) =>
      s.(pendingNotify := s.pendingNotify - 1,
         workers := if target.Some? then s.workers[target.value := Woken] else s.workers)
    case SpuriousWake(w) => s.(workers := s.workers[w := Woken])
    case Check(w) => DoCheck(s, w)
    case Receive(w, message) =>
      if message.None?
      then s.(workers := At(s, w, Closing), dropped := s.dropped + [s.workers[w].ticket])
      else s.(workers := At(s, w, Looking(message.value)),
              received := s.received + [Receipt(s.workers[w].ticket, message.value)])
    case LookUp(w) => DoLookUp(c, s, w)
    case Advance(w, transport) => DoAdvance(c, s, w, transport)
    case AdvanceJob(j, transport) => DoAdvanceJob(c, s, j, transport)
    case Send(w) =>
      var h := s.workers[w].handler;
      s.(workers := At(s, w, Closing),
         replies := s.replies + [Reply(s.workers[w].ticket, h.request, h.response, h.source)])
    case Close(w) => s.(workers := s.workers[w := Ready], closed := s.closed + [s.workers[w].ticket])
    case Stop => s.(stop := true, notifyAllDue := true, stoppedAt := |s.submitted|)
    case NotifyAll => s.(notifyAllDue := false, workers := WakeAll(s.workers))
  }

  predicate InRefresh(p: Phase) { p.Handling? && p.handler.Refreshing? }

  /** Steps other than lookups and those of a refresh leave every refresh where it is, and nothing
      shared changes but the time. */
  lemma OtherKeepsRefreshes(c: Params, s: State, e: Event)
    requires Enabled(s, e) && !e.LookUp? && !e.Advance? && !e.AdvanceJob?
    ensures var t := Apply(c, s, e);
            && t.jobs == s.jobs && t.shared == s.shared.(now := t.shared.now) && s.shared.now <= t.shared.now
            && |t.workers| == |s.workers|
            && forall w | 0 <= w < |t.workers| ::
                 if InRefresh(s.workers[w]) then t.workers[w] == s.workers[w] else !InRefresh(t.workers[w])
  {
  }

  /** `events` is a run from `s` to `t`. */
  ghost predicate Run(c: Params, s: State, events: seq<Event>, t: State)
    decreases |events|
  {
    if events == [] then s == t
    else Enabled(s, events[0]) && Run(c, Apply(c, s, events[0]), events[1..], t)
  }

  /** `s` occurs in some run of a pool with `workers` threads. */
  ghost predicate Reachable(c: Params, workers: nat, s: State) {
    exists start, events :: Run(c, Init(workers, start), events, s)
  }

  lemma {:induction false} RunsCompose(c: Params, s: State, e1: seq<Event>, t: State, e2: seq<Event>, u: State)
    requires Run(c, s, e1, t) && Run(c, t, e2, u)
    ensures Run(c, s, e1 + e2, u)
    decreases |e1|
  {
    if e1 == [] {
      assert e1 + e2 == e2;
    } else {
      assert (e1 + e2)[1..] == e1[1..] + e2;
      RunsCompose(c, Apply(c, s, e1[0]), e1[1..], t, e2, u);
    }
  }

  lemma RunsReach(c: Params, workers: nat, s: State, events: seq<Event>, t: State)
    requires Reachable(c, workers, s) && Run(c, s, events, t)
    ensures Reachable(c, workers, t)
  {
    var start, before :| Run(c, Init(workers, start), before, s);
    RunsCompose(c, Init(workers, start), before, s, events, t);
  }

  lemma RunThen(c: Params, s: State, events: seq<Event>, t: State, e: Event)
    requires Run(c, s, events, t) && Enabled(t, e)
    ensures Run(c, s, events + [e], Apply(c, t, e))
  {
    assert [e][1..] == [];
    RunsCompose(c, s, events, t, [e], Apply(c, t, e));
  }

  /** A worker that a notification can wake, if there is one. */
  ghost function Waiter(workers: seq<Phase>): (target: Option<nat>)
    ensures match target
            case None => forall w | 0 <= w < |workers| :: workers[w] != Blocked
            case Some(w) => w < |workers| && workers[w] == Blocked
  {
    if w: nat :| w < |workers| && workers[w] == Blocked then Some(w) else None
  }
}
