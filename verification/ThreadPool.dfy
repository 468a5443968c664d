/** The thread pool as an object. A method body is what one thread executes without another thread in
    between; each method is proved to take the object along steps of `ServerModel`, which
    interleaves them. */
module ThreadPoolClass {
  import opened Options
  import CStrings
  import ArrivalTypes
  import opened BkkApi
  import opened CacheSpec
  import opened ServerModel
  import opened Sequential
  import opened UdsCacheClass
  import ResponseParser

  /** The cache object holds what the step system says it holds. */
  ghost predicate Represents(cache: UdsCache, sh: Shared)
    reads cache
  {
    cache.Valid() && cache.cache == sh.cache && cache.puts == sh.puts && cache.clock == sh.now
  }

  class ThreadPool {
    var taskQueue: seq<int>
    var stop: bool
    /** Descriptors closed so far. */
    var closedFds: seq<int>

    /** Where the step system stands, and its parameters. */
    ghost var state: State
    ghost const params: Params

    ghost predicate Valid()
      reads this
    {
      taskQueue == state.queue && stop == state.stop
    }

    constructor (threads: nat, ghost params: Params, ghost start: Time)
      ensures Valid() && closedFds == [] && this.params == params && state == Init(threads, start)
    {
      taskQueue, stop, closedFds := [], false, [];
      state := Init(threads, start);
      this.params := params;
    }

    /** The push is a step and the notification another; the latter wakes a blocked worker if any. */
    method Submit(clientFd: int) returns (accepted: bool)
      requires Valid()
      modifies this`taskQueue, this`state
      ensures Valid() && accepted
      ensures taskQueue == old(taskQueue) + [clientFd]
      ensures exists target :: Run(params, old(state), [Push(clientFd), NotifyOne(target)], state)
    {
      ghost var before := state;
      taskQueue := taskQueue + [clientFd];
      state := Apply(params, state, Push(clientFd));
      ghost var target := Waiter(state.workers);
      RunThen(params, before, [], before, Push(clientFd));
      RunThen(params, before, [] + [Push(clientFd)], state, NotifyOne(target));
      assert [] + [Push(clientFd)] + [NotifyOne(target)] == [Push(clientFd), NotifyOne(target)];
      state := Apply(params, state, NotifyOne(target));
      return true;
    }

    /** One pass of the worker loop with the queue lock held, by worker `w`. */
    method TakeTask(ghost w: nat) returns (verdict: Verdict, clientFd: int)
      requires Valid() && Enabled(state, Check(w))
      modifies this`taskQueue, this`state
      ensures Valid() && state == Apply(params, old(state), Check(w))
      ensures verdict == Take ==>
                old(taskQueue) == [clientFd] + taskQueue
                && state.workers[w] == Handling(old(state.taken), clientFd, Receiving)
      ensures verdict == Leave ==> taskQueue == old(taskQueue) && state.workers[w] == Exited
      ensures verdict == Sleep ==> taskQueue == old(taskQueue) && state.workers[w] == Blocked
    {
      state := Apply(params, state, Check(w));
      clientFd := -1;
      if !(stop || taskQueue != []) {
        return Sleep, clientFd;
      }
      if stop && taskQueue == [] {
        return Leave, clientFd;
      }
      verdict := Take;
      clientFd := taskQueue[0];
      taskQueue := taskQueue[1..];
    }

    /** The destructor up to its joins: setting the flag and notifying all are two steps, after which
        no worker is blocked. */
    method BeginShutdown()
      requires Valid() && !stop
      modifies this`stop, this`state
      ensures Valid() && stop
      ensures Run(params, old(state), [Stop, NotifyAll], state)
      ensures forall w | 0 <= w < |state.workers| :: !state.workers[w].Blocked?
    {
      ghost var before := state;
      stop := true;
      state := Apply(params, state, Stop);
      RunThen(params, before, [], before, Stop);
      RunThen(params, before, [] + [Stop], state, NotifyAll);
      assert [] + [Stop] + [NotifyAll] == [Stop, NotifyAll];
      state := Apply(params, state, NotifyAll);
    }

    /** Fills the zero-initialised reply. */
    method FillResponse(status: BkkStatus, arrivals: seq<ArrivalTypes.Arrival>) returns (response: Response)
      ensures response == Respond(status, arrivals)
    {
      var size := CStrings.AsInt32(|arrivals|);
      var numArrivals := if size < MAX_ARRIVALS then size else MAX_ARRIVALS;
      var slots := new ArrivalTypes.Arrival[MAX_ARRIVALS](_ => ArrivalTypes.EMPTY_ARRIVAL);
      var i := 0;
      while i < numArrivals
        invariant 0 <= i && (i <= numArrivals || i == 0)
        invariant slots[..i] == arrivals[..i]
        invariant forall k | i <= k < MAX_ARRIVALS :: slots[k] == ArrivalTypes.EMPTY_ARRIVAL
      {
        slots[i] := arrivals[i];
        i := i + 1;
      }
      assert slots[..] == slots[..i] + EmptyArrivals(MAX_ARRIVALS - i);
      response := Response(status, numArrivals, slots[..]);
    }

    /** Refreshes one stop: on failure neither the output nor the cache is touched. */
    method FreshFetchAndUpdateCache(clock: ResponseParser.Clock, request: Request, cache: UdsCache,
                                    arrivalsOut: ArrivalTypes.ArrivalVector, transport: Transport,
                                    stampAt: Time, sweepAt: Time, ghost sh: Shared, ghost origin: Origin)
      returns (status: BkkStatus)
      requires Represents(cache, sh) && cache.clock <= stampAt <= sweepAt
      modifies arrivalsOut, cache`cache, cache`puts, cache`clock
      ensures status == StationResult(clock, request.apiKey, transport).0
      ensures status != Ok ==> arrivalsOut.items == old(arrivalsOut.items) && cache.cache == old(cache.cache)
      ensures status == Ok ==> arrivalsOut.items == StationResult(clock, request.apiKey, transport).1
      ensures var (after, r) := RefreshAlone(Params(cache.Config(), clock), sh, origin, request, transport,
                                             stampAt, sweepAt);
              Represents(cache, after) && r == Finished(status, if status == Ok then arrivalsOut.items else [])
    {
      RefreshAloneAmountsTo(Params(cache.Config(), clock), sh, origin, request, transport, stampAt, sweepAt);
      var fetched := new ArrivalTypes.ArrivalVector();
      var fetchStatus, url := GetArrivalsForStation(clock, request.stopId, request.apiKey, transport, fetched);
      if fetchStatus != Ok {
        return fetchStatus;
      }
      assert url == Some(StationUrl(request.stopId, request.apiKey));
      arrivalsOut.items := fetched.items;
      cache.PutElement(request.stopId, Entry(arrivalsOut.items, stampAt), sweepAt);
      return Ok;
    }

    /** Looks the stop up and assembles the reply: from the cache on a hit, with the request handed to
        a detached refresh if the hit is stale; from upstream otherwise. */
    method Answer(clock: ResponseParser.Clock, request: Request, cache: UdsCache, transport: Transport,
                  lookAt: Time, stampAt: Time, sweepAt: Time, ghost sh: Shared, ghost ticket: nat)
      returns (response: Response, detached: Option<Request>, ghost served: Served)
      requires Represents(cache, sh) && sh.now <= lookAt <= stampAt <= sweepAt
      modifies cache`cache, cache`puts, cache`clock
      ensures served == HandleAlone(Params(cache.Config(), clock), sh, ticket, Some(request), transport,
                                    lookAt, stampAt, sweepAt)
      ensures Represents(cache, served.shared) && served.reply == Some(response) && served.detached == detached
    {
      detached := None;
      var arrivals := new ArrivalTypes.ArrivalVector();
      var apiStatus := Ok;
      var found, entry := cache.GetElement(request.stopId, lookAt, Entry([], 0));
      if found.HitFresh? {
        arrivals.items := entry.arrivals;
      } else if found.HitStale? {
        detached := Some(request);
        arrivals.items := entry.arrivals;
      } else {
        apiStatus := FreshFetchAndUpdateCache(clock, request, cache, arrivals, transport, stampAt, sweepAt,
                                              sh.(now := lookAt), Foreground(ticket));
      }
      response := FillResponse(apiStatus, arrivals.items);
      served := HandleAlone(Params(cache.Config(), clock), sh, ticket, Some(request), transport,
                            lookAt, stampAt, sweepAt);
    }

    /** Serves one client by worker `w`: no reply if the request came short. The handler is a run of
        the step system that appends this reply, closes the descriptor and leaves this cache. */
    method HandleClient(clientFd: int, clock: ResponseParser.Clock, message: Option<Request>, cache: UdsCache,
                        transport: Transport, lookAt: Time, stampAt: Time, sweepAt: Time, ghost w: nat)
      returns (reply: Option<Response>, detached: Option<Request>)
      requires Valid() && InHandler(state, w)
      requires state.workers[w].handler.Receiving? && state.workers[w].fd == clientFd
      requires Represents(cache, state.shared) && params == Params(cache.Config(), clock)
      requires state.shared.now <= lookAt <= stampAt <= sweepAt
      modifies this`closedFds, this`state, cache`cache, cache`puts, cache`clock
      ensures Valid() && Represents(cache, state.shared) && closedFds == old(closedFds) + [clientFd]
      ensures exists events :: Run(params, old(state), events, state)
      ensures HasServed(old(state), state, w, message, Served(state.shared, reply, detached))
      ensures message.None? ==> reply.None? && detached.None? && cache.cache == old(cache.cache)
      ensures message.Some? ==>
                var found := Get(params.windows, old(cache.cache), message.value.stopId, lookAt);
                var (status, arrivals) := StationResult(clock, message.value.apiKey, transport);
                var entry := Entry(arrivals, stampAt);
                && reply == Some(if found.Miss? then Respond(status, if status == Ok then arrivals else [])
                                 else Respond(Ok, found.entry.arrivals))
                && detached == (if found.HitStale? then Some(message.value) else None)
                && cache.cache == if found.Miss? && status == Ok
                                  then Sweep(params.windows, old(cache.cache)[message.value.stopId := entry], sweepAt)
                                  else old(cache.cache)
    {
      ghost var before := state;
      ghost var ticket := state.workers[w].ticket;
      ghost var events, after, served := UninterruptedHandlerIsRun(params, before, w, message, transport,
                                                                   lookAt, stampAt, sweepAt);
      if message.Some? {
        HandleAloneAmountsTo(params, before.shared, ticket, message.value, transport, lookAt, stampAt, sweepAt);
        var response;
        response, detached, served := Answer(clock, message.value, cache, transport, lookAt, stampAt, sweepAt,
                                             before.shared, ticket);
        reply := Some(response);
      } else {
        reply, detached := None, None;
      }
      closedFds := closedFds + [clientFd];
      state := after;
    }
  }
}
