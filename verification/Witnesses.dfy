/** Short runs that any pool can take, from which the runs that show a limit are put together. */
module Witnesses {
  import opened Options
  import opened BkkApi
  import opened CacheSpec
  import opened ServerModel
  import ResponseParser
  import opened Sequential
  import Json

  function Ask(stop: StopId): Request { Request(stop, "k") }

  const STOP_TIME := Json.JObject([Json.Member("arrivalTime", Json.JNumber(1.0))])
  const ENTRY := Json.JObject([Json.Member("stopTimes", Json.JArray([STOP_TIME]))])
  const DATA := Json.JObject([Json.Member("entry", ENTRY)])
  const BODY := Json.JObject([Json.Member("data", DATA)])
  /** An answer with a single scheduled arrival. */
  const ANSWER := Answered(200, Some(BODY))

  lemma AnswerIsOk(clock: ResponseParser.Clock)
    ensures StationResult(clock, "k", ANSWER).0 == Ok
  {
    Json.AtSteps(Some(BODY), "data", "entry", "stopTimes");
    assert Json.Get(Some(BODY), "data") == Some(DATA);
    assert Json.Get(Some(DATA), "entry") == Some(ENTRY);
    assert Json.Get(Some(ENTRY), "stopTimes") == Some(Json.JArray([STOP_TIME]));
    assert Json.Get(Some(STOP_TIME), "arrivalTime") == Some(Json.JNumber(1.0));
    assert ResponseParser.Usable(STOP_TIME);
    assert STOP_TIME in ResponseParser.Visited([STOP_TIME]);
    StationOkExactly(clock, "k", ANSWER);
  }

  /** Worker `w` takes a new task while nothing else is queued. */
  lemma Arrive(c: Params, s: State, w: nat) returns (events: seq<Event>, t: State)
    requires w < |s.workers| && s.workers[w].Ready? && s.queue == []
    ensures Run(c, s, events, t) && t.shared == s.shared && t.queue == [] && t.jobs == s.jobs
    ensures t.workers == s.workers[w := Handling(s.taken, 7, Receiving)]
  {
    var a := Apply(c, s, Push(7));
    t := Apply(c, a, Check(w));
    RunThen(c, s, [], s, Push(7));
    RunThen(c, s, [] + [Push(7)], a, Check(w));
    events := [] + [Push(7)] + [Check(w)];
  }

  /** It receives a request and is about to look it up. */
  lemma Accept(c: Params, s: State, w: nat, request: Request) returns (events: seq<Event>, t: State)
    requires w < |s.workers| && s.workers[w].Ready? && s.queue == []
    ensures Run(c, s, events, t) && t.shared == s.shared && t.queue == []
    ensures t.workers == s.workers[w := Handling(s.taken, 7, Looking(request))]
  {
    var a;
    events, a := Arrive(c, s, w);
    var e := Receive(w, Some(request));
    t := Apply(c, a, e);
    RunThen(c, s, events, a, e);
    events := events + [e];
  }

  /** It misses and is about to fetch. */
  lemma AcceptAndMiss(c: Params, s: State, w: nat, request: Request) returns (events: seq<Event>, t: State)
    requires w < |s.workers| && s.workers[w].Ready? && s.queue == [] && request.stopId !in s.shared.cache
    ensures Run(c, s, events, t) && t.shared == s.shared && t.queue == []
    ensures t.workers == s.workers[w := Handling(s.taken, 7, Refreshing(request, Fetching))]
  {
    var a;
    events, a := Accept(c, s, w, request);
    t := DoLookUp(c, a, w);
    RunThen(c, s, events, a, LookUp(w));
    events := events + [LookUp(w)];
  }

  /** It serves the whole request and is ready again. */
  lemma Serve(c: Params, s: State, w: nat, request: Request, lookAt: Time, stampAt: Time, sweepAt: Time)
    returns (events: seq<Event>, t: State, served: Served)
    requires w < |s.workers| && s.workers[w].Ready? && s.queue == []
    requires s.shared.now <= lookAt <= stampAt <= sweepAt
    ensures Run(c, s, events, t) && t.queue == [] && t.workers == s.workers && t.shared == served.shared
    ensures Detached(s, t, s.taken, served.detached)
    ensures served == HandleAlone(c, s.shared, s.taken, Some(request), ANSWER, lookAt, stampAt, sweepAt)
  {
    var e1, a := Arrive(c, s, w);
    var e2;
    e2, t, served := UninterruptedHandlerIsRun(c, a, w, Some(request), ANSWER, lookAt, stampAt, sweepAt);
    RunsCompose(c, s, e1, a, e2, t);
    events := e1 + e2;
    assert a.workers[w := Ready] == s.workers;
  }

  /** A stop that is not cached is fetched, put and swept at one moment. */
  lemma ServeMiss(c: Params, s: State, w: nat, stop: StopId, sweepAt: Time) returns (events: seq<Event>, t: State)
    requires w < |s.workers| && s.workers[w].Ready? && s.queue == []
    requires s.shared.now <= sweepAt && stop !in s.shared.cache
    ensures Run(c, s, events, t) && t.queue == [] && t.workers == s.workers && t.jobs == s.jobs
    ensures var entry := Entry(StationResult(c.clock, "k", ANSWER).1, s.shared.now);
            && t.shared.now == sweepAt && t.shared.puts == s.shared.puts + [Put(stop, entry)]
            && t.shared.cache == Sweep(c.windows, s.shared.cache[stop := entry], sweepAt)
  {
    var now := s.shared.now;
    AnswerIsOk(c.clock);
    HandleAloneAmountsTo(c, s.shared, s.taken, Ask(stop), ANSWER, now, now, sweepAt);
    var served;
    events, t, served := Serve(c, s, w, Ask(stop), now, now, sweepAt);
  }

  /** Worker `w`, about to fetch, gets the answer. */
  lemma FetchAnswer(c: Params, s: State, w: nat, stop: StopId) returns (events: seq<Event>, t: State)
    requires InHandler(s, w) && s.workers[w].handler == Refreshing(Ask(stop), Fetching)
    ensures Run(c, s, events, t)
    ensures var arrivals := StationResult(c.clock, "k", ANSWER).1;
            t == s.(workers := s.workers[w := Outcome(s.workers[w],
                                                      Stamping(StationUrl(stop, "k"), ANSWER, arrivals))])
  {
    AnswerIsOk(c.clock);
    assert s.shared.(now := s.shared.now) == s.shared;
    events, t := WaitAndAdvance(c, s, w, ANSWER, s.shared.now);
  }

  /** It then reads the clock at `at`. */
  lemma FetchAndStamp(c: Params, s: State, w: nat, stop: StopId, at: Time) returns (events: seq<Event>, t: State)
    requires InHandler(s, w) && s.workers[w].handler == Refreshing(Ask(stop), Fetching) && s.shared.now <= at
    ensures Run(c, s, events, t) && t.queue == s.queue
    ensures t.shared == s.shared.(now := at, fetches := t.shared.fetches)
    ensures var entry := Entry(StationResult(c.clock, "k", ANSWER).1, at);
            t.workers == s.workers[w := Outcome(s.workers[w], Inserting(entry))]
  {
    var e1, a := FetchAnswer(c, s, w, stop);
    var e2;
    e2, t := WaitAndAdvance(c, a, w, ANSWER, at);
    RunsCompose(c, s, e1, a, e2, t);
    events := e1 + e2;
  }

  /** Worker `w` serves a stop that is not cached up to its insert, which it makes at once. */
  lemma InsertMissed(c: Params, s: State, w: nat, stop: StopId) returns (events: seq<Event>, t: State)
    requires w < |s.workers| && s.workers[w].Ready? && s.queue == [] && stop !in s.shared.cache
    ensures Run(c, s, events, t) && t.queue == [] && t.shared.now == s.shared.now
    ensures var entry := Entry(StationResult(c.clock, "k", ANSWER).1, s.shared.now);
            && t.shared.cache == s.shared.cache[stop := entry]
            && t.workers == s.workers[w := Handling(s.taken, 7, Refreshing(Ask(stop), Sweeping(entry.arrivals)))]
  {
    var now := s.shared.now;
    var e1, a := AcceptAndMiss(c, s, w, Ask(stop));
    var e2, b := FetchAndStamp(c, a, w, stop, now);
    var e3;
    e3, t := WaitAndAdvance(c, b, w, ANSWER, now);
    RunsCompose(c, s, e1, a, e2, b);
    RunsCompose(c, s, e1 + e2, b, e3, t);
    events := e1 + e2 + e3;
  }
}
