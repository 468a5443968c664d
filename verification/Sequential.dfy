/** What one thread does when no other comes in between: the steps of a refresh and of a whole
    client handler composed, and the runs of the step system that they are. */
module Sequential {
  import opened Options
  import opened BkkApi
  import opened CacheSpec
  import opened ServerModel

  /** The four steps of a refresh with nothing in between but the passing of time. */
  function RefreshAlone(c: Params, sh: Shared, origin: Origin, request: Request, transport: Transport,
                        stampAt: Time, sweepAt: Time): (Shared, Refresh)
  {
    var (s1, r1) := RefreshStep(c, sh, origin, request, Fetching, transport);
    if r1.Finished? then (s1, r1)
    else StampInsertSweep(c, s1, origin, request, r1, transport, stampAt, sweepAt)
  }

  function StampInsertSweep(c: Params, sh: Shared, origin: Origin, request: Request, r: Refresh,
                            transport: Transport, stampAt: Time, sweepAt: Time): (Shared, Refresh)
    requires r.Stamping?
  {
    var (s2, r2) := RefreshStep(c, sh.(now := stampAt), origin, request, r, transport);
    var (s3, r3) := RefreshStep(c, s2, origin, request, r2, transport);
    RefreshStep(c, s3.(now := sweepAt), origin, request, r3, transport)
  }

  /** What the uninterrupted refresh amounts to. */
  lemma RefreshAloneAmountsTo(c: Params, sh: Shared, origin: Origin, request: Request, transport: Transport,
                              stampAt: Time, sweepAt: Time)
    ensures var (status, arrivals) := StationResult(c.clock, request.apiKey, transport);
            var entry := Entry(arrivals, stampAt);
            var url := StationUrl(request.stopId, request.apiKey);
            RefreshAlone(c, sh, origin, request, transport, stampAt, sweepAt)
            == if status != Ok then (sh, Finished(status, []))
               else (Shared(sweepAt, Sweep(c.windows, sh.cache[request.stopId := entry], sweepAt),
                            sh.puts + [Put(request.stopId, entry)],
                            sh.fetches + [Fetch(origin, request, url, transport, arrivals, stampAt)]),
                     Finished(Ok, arrivals))
  {
  }

  /** The phase of worker `p` once its refresh stands at `r`. */
  function Outcome(p: Phase, r: Refresh): Phase
    requires p.Handling? && p.handler.Refreshing?
  {
    var request := p.handler.request;
    Handling(p.ticket, p.fd,
             if r.Finished? then Replying(request, Respond(r.status, r.arrivals), FromFetch(r.status, r.arrivals))
             else Refreshing(request, r))
  }

  /** Waits until `at`, then takes one step of the refresh of worker `w`. */
  lemma WaitAndAdvance(c: Params, s: State, w: nat, transport: Transport, at: Time)
    returns (events: seq<Event>, t: State)
    requires Enabled(s, Advance(w, transport)) && s.shared.now <= at
    ensures Run(c, s, events, t)
    ensures var p := s.workers[w];
            var (sh, r) := RefreshStep(c, s.shared.(now := at), Foreground(p.ticket), p.handler.request,
                                       p.handler.refresh, transport);
            t == s.(shared := sh, workers := s.workers[w := Outcome(p, r)])
  {
    var a := Apply(c, s, Tick(at - s.shared.now));
    t := DoAdvance(c, a, w, transport);
    events := [Tick(at - s.shared.now), Advance(w, transport)];
    assert events[1..] == [Advance(w, transport)] && events[1..][1..] == [];
    assert Run(c, a, events[1..], t);
  }

  /** The uninterrupted refresh of a worker is a run of the step system: it ends with the shared
      state of `RefreshAlone` and with the worker about to reply with its outcome. */
  lemma UninterruptedRefreshIsRun(c: Params, s: State, w: nat, transport: Transport, stampAt: Time, sweepAt: Time)
    returns (events: seq<Event>, t: State)
    requires InHandler(s, w) && s.workers[w].handler.Refreshing? && s.workers[w].handler.refresh.Fetching?
    requires s.shared.now <= stampAt <= sweepAt
    ensures Run(c, s, events, t)
    ensures var p := s.workers[w];
            var (sh, r) := RefreshAlone(c, s.shared, Foreground(p.ticket), p.handler.request, transport,
                                        stampAt, sweepAt);
            r.Finished? && t == s.(shared := sh, workers := s.workers[w := Outcome(p, r)])
  {
    var p := s.workers[w];
    var (s1, r1) := RefreshStep(c, s.shared, Foreground(p.ticket), p.handler.request, Fetching, transport);
    assert s.shared.(now := s.shared.now) == s.shared;
    events, t := WaitAndAdvance(c, s, w, transport, s.shared.now);
    if r1.Stamping? {
      var rest, u := StampToFinish(c, t, w, transport, stampAt, sweepAt);
      assert u.workers == s.workers[w := u.workers[w]];
      RunsCompose(c, s, events, t, rest, u);
      events, t := events + rest, u;
    }
  }

  lemma StampToFinish(c: Params, s: State, w: nat, transport: Transport, stampAt: Time, sweepAt: Time)
    returns (events: seq<Event>, t: State)
    requires InHandler(s, w) && s.workers[w].handler.Refreshing? && s.workers[w].handler.refresh.Stamping?
    requires s.shared.now <= stampAt <= sweepAt
    ensures Run(c, s, events, t)
    ensures var p := s.workers[w];
            var (sh, r) := StampInsertSweep(c, s.shared, Foreground(p.ticket), p.handler.request, p.handler.refresh,
                                            transport, stampAt, sweepAt);
            r.Finished? && t == s.(shared := sh, workers := s.workers[w := Outcome(p, r)])
  {
    var e1, a := StampAndInsert(c, s, w, transport, stampAt);
    var e2;
    e2, t := WaitAndAdvance(c, a, w, transport, sweepAt);
    RunsCompose(c, s, e1, a, e2, t);
    events := e1 + e2;
  }

  lemma StampAndInsert(c: Params, s: State, w: nat, transport: Transport, stampAt: Time)
    returns (events: seq<Event>, t: State)
    requires InHandler(s, w) && s.workers[w].handler.Refreshing? && s.workers[w].handler.refresh.Stamping?
    requires s.shared.now <= stampAt
    ensures Run(c, s, events, t)
    ensures var p := s.workers[w];
            var (s1, r1) := RefreshStep(c, s.shared.(now := stampAt), Foreground(p.ticket), p.handler.request,
                                        p.handler.refresh, transport);
            var (s2, r2) := RefreshStep(c, s1, Foreground(p.ticket), p.handler.request, r1, transport);
            t == s.(shared := s2, workers := s.workers[w := Outcome(p, r2)])
  {
    var e1, a := WaitAndAdvance(c, s, w, transport, stampAt);
    assert a.shared.(now := stampAt) == a.shared;
    var e2;
    e2, t := WaitAndAdvance(c, a, w, transport, stampAt);
    RunsCompose(c, s, e1, a, e2, t);
    events := e1 + e2;
  }

  // ---------------------------------------------------------------- a whole client

  /** What an uninterrupted handler leaves in the shared state, sends and detaches. */
  datatype Served = Served(shared: Shared, reply: Option<Response>, detached: Option<Request>)

  function HandleAlone(c: Params, sh: Shared, ticket: nat, message: Option<Request>, transport: Transport,
                       lookAt: Time, stampAt: Time, sweepAt: Time): Served
  {
    if message.None? then Served(sh, None, None) else
    var request, looked := message.value, sh.(now := lookAt);
    var found := Get(c.windows, sh.cache, request.stopId, lookAt);
    AfterLookUp(c, looked, ticket, request, found, transport, stampAt, sweepAt)
  }

  /** What a served client amounts to. */
  lemma HandleAloneAmountsTo(c: Params, sh: Shared, ticket: nat, request: Request, transport: Transport,
                             lookAt: Time, stampAt: Time, sweepAt: Time)
    ensures var served := HandleAlone(c, sh, ticket, Some(request), transport, lookAt, stampAt, sweepAt);
            var found := Get(c.windows, sh.cache, request.stopId, lookAt);
            var (status, arrivals) := StationResult(c.clock, request.apiKey, transport);
            var entry := Entry(arrivals, stampAt);
            && served.reply == Some(if found.Miss? then Respond(status, if status == Ok then arrivals else [])
                                    else Respond(Ok, found.entry.arrivals))
            && served.detached == (if found.HitStale? then Some(request) else None)
            && served.shared.cache == (if found.Miss? && status == Ok
                                       then Sweep(c.windows, sh.cache[request.stopId := entry], sweepAt)
                                       else sh.cache)
            && served.shared.puts == (if found.Miss? && status == Ok then sh.puts + [Put(request.stopId, entry)]
                                      else sh.puts)
            && served.shared.now == if found.Miss? && status == Ok then sweepAt else lookAt
  {
    RefreshAloneAmountsTo(c, sh.(now := lookAt), Foreground(ticket), request, transport, stampAt, sweepAt);
  }

  /** What follows the lookup. */
  function AfterLookUp(c: Params, sh: Shared, ticket: nat, request: Request, found: Lookup, transport: Transport,
                    stampAt: Time, sweepAt: Time): Served
  {
    match found
    case HitFresh(entry) => Served(sh, Some(Respond(Ok, entry.arrivals)), None)
    case HitStale(entry) => Served(sh, Some(Respond(Ok, entry.arrivals)), Some(request))
    case Miss =>
      RefreshAloneAmountsTo(c, sh, Foreground(ticket), request, transport, stampAt, sweepAt);
      var (refreshed, r) := RefreshAlone(c, sh, Foreground(ticket), request, transport, stampAt, sweepAt);
      Served(refreshed, Some(Respond(r.status, r.arrivals)), None)
  }

  lemma SendAndClose(c: Params, s: State, w: nat) returns (events: seq<Event>, t: State)
    requires InHandler(s, w) && s.workers[w].handler.Replying?
    ensures Run(c, s, events, t)
    ensures var p := s.workers[w];
            t == s.(workers := s.workers[w := Ready], closed := s.closed + [p.ticket],
                    replies := s.replies + [Reply(p.ticket, p.handler.request, p.handler.response, p.handler.source)])
  {
    var a := Apply(c, s, Send(w));
    t := Apply(c, a, Close(w));
    RunThen(c, s, [], s, Send(w));
    RunThen(c, s, [] + [Send(w)], a, Close(w));
    events := [] + [Send(w)] + [Close(w)];
  }

  /** Worker `w` has served its client: `t` differs from `s` by what `served` says, one closed
      descriptor and one reply, or one dropped client when nothing was received. */
  ghost predicate HasServed(s: State, t: State, w: nat, message: Option<Request>, served: Served) {
    && InHandler(s, w) && t.shared == served.shared && t.queue == s.queue && t.stop == s.stop
    && t.workers == s.workers[w := Ready] && t.closed == s.closed + [s.workers[w].ticket]
    && (match message
        case None => t.replies == s.replies && t.dropped == s.dropped + [s.workers[w].ticket] && t.jobs == s.jobs
        case Some(request) =>
          && t.dropped == s.dropped && served.reply.Some?
          && Replied(s, t, s.workers[w].ticket, request, served.reply.value)
          && Detached(s, t, s.workers[w].ticket, served.detached))
  }

  ghost predicate Replied(s: State, t: State, ticket: nat, request: Request, response: Response) {
    && |t.replies| == |s.replies| + 1 && s.replies <= t.replies
    && t.replies[|s.replies|].ticket == ticket && t.replies[|s.replies|].request == request
    && t.replies[|s.replies|].response == response
  }

  ghost predicate Detached(s: State, t: State, ticket: nat, detached: Option<Request>) {
    t.jobs == s.jobs + if detached.Some? then [Job(ticket, detached.value, Fetching)] else []
  }

  /** Worker `w` is about to send `served.reply`, and all else is as `HasServed` wants it. */
  ghost predicate AboutToReply(s: State, b: State, w: nat, request: Request, served: Served) {
    && InHandler(s, w) && served.reply.Some? && b.shared == served.shared && b.queue == s.queue && b.stop == s.stop
    && b.closed == s.closed && b.replies == s.replies && b.dropped == s.dropped
    && (exists source :: b.workers == s.workers[w := Handling(s.workers[w].ticket, s.workers[w].fd,
                                                  Replying(request, served.reply.value, source))])
    && Detached(s, b, s.workers[w].ticket, served.detached)
  }

  lemma DropAndClose(c: Params, s: State, w: nat) returns (events: seq<Event>, t: State)
    requires InHandler(s, w) && s.workers[w].handler.Receiving?
    ensures Run(c, s, events, t) && HasServed(s, t, w, None, Served(s.shared, None, None))
  {
    var a := Apply(c, s, Receive(w, None));
    t := Apply(c, a, Close(w));
    RunThen(c, s, [], s, Receive(w, None));
    RunThen(c, s, [] + [Receive(w, None)], a, Close(w));
    events := [] + [Receive(w, None)] + [Close(w)];
  }

  /** Worker `w` has been handed `request` and looked it up at `a`. */
  ghost predicate HasLookedUp(c: Params, s: State, a: State, w: nat, request: Request, sh: Shared, found: Lookup) {
    && InHandler(s, w) && a.shared == sh && a.queue == s.queue && a.stop == s.stop && a.closed == s.closed
    && a.replies == s.replies && a.dropped == s.dropped
    && Detached(s, a, s.workers[w].ticket, if found.HitStale? then Some(request) else None)
    && a.workers == s.workers[w := Handling(s.workers[w].ticket, s.workers[w].fd,
         if found.Miss? then Refreshing(request, Fetching)
         else Replying(request, Respond(Ok, found.entry.arrivals), FromCache(found, sh.now)))]
  }

  lemma ReceiveAndWait(c: Params, s: State, w: nat, request: Request, until: Time)
    returns (events: seq<Event>, t: State)
    requires InHandler(s, w) && s.workers[w].handler.Receiving? && s.shared.now <= until
    ensures Run(c, s, events, t)
    ensures t == s.(shared := s.shared.(now := until), workers := At(s, w, Looking(request)), received := t.received)
  {
    var e1, e2 := Receive(w, Some(request)), Tick(until - s.shared.now);
    var a := Apply(c, s, e1);
    t := Apply(c, a, e2);
    RunThen(c, s, [], s, e1);
    RunThen(c, s, [] + [e1], a, e2);
    events := [] + [e1] + [e2];
  }

  lemma ReceiveAndLookUp(c: Params, s: State, w: nat, request: Request, lookAt: Time)
    returns (events: seq<Event>, t: State)
    requires InHandler(s, w) && s.workers[w].handler.Receiving? && s.shared.now <= lookAt
    ensures Run(c, s, events, t)
    ensures var sh := s.shared.(now := lookAt);
            HasLookedUp(c, s, t, w, request, sh, Get(c.windows, sh.cache, request.stopId, sh.now))
  {
    var b;
    events, b := ReceiveAndWait(c, s, w, request, lookAt);
    t := DoLookUp(c, b, w);
    RunThen(c, s, events, b, LookUp(w));
    events := events + [LookUp(w)];
    assert t.workers == s.workers[w := t.workers[w]];
  }

  /** After a miss the reply is the outcome `r` of the refresh. */
  lemma RefreshedReplies(c: Params, s: State, a: State, b: State, w: nat, request: Request, looked: Shared,
                         sh: Shared, r: Refresh)
    requires HasLookedUp(c, s, a, w, request, looked, Miss) && r.Finished?
    requires b == a.(shared := sh, workers := a.workers[w := Outcome(a.workers[w], r)])
    ensures AboutToReply(s, b, w, request, Served(sh, Some(Respond(r.status, r.arrivals)), None))
  {
    assert b.workers == s.workers[w := Outcome(a.workers[w], r)];
  }

  /** A hit replies at once. */
  lemma HitReplies(c: Params, s: State, a: State, w: nat, request: Request, looked: Shared, found: Lookup)
    requires HasLookedUp(c, s, a, w, request, looked, found) && !found.Miss?
    ensures AboutToReply(s, a, w, request, Served(looked, Some(Respond(Ok, found.entry.arrivals)),
                                                  if found.HitStale? then Some(request) else None))
  {
  }

  lemma AnswerRuns(c: Params, s: State, a: State, w: nat, request: Request, looked: Shared, found: Lookup,
                   transport: Transport, stampAt: Time, sweepAt: Time)
    returns (events: seq<Event>, t: State, served: Served)
    requires looked.now <= stampAt <= sweepAt
    requires HasLookedUp(c, s, a, w, request, looked, found)
    ensures Run(c, a, events, t) && AboutToReply(s, t, w, request, served)
    ensures served == AfterLookUp(c, looked, s.workers[w].ticket, request, found, transport,
                                  stampAt, sweepAt)
  {
    served := AfterLookUp(c, looked, s.workers[w].ticket, request, found, transport,
                          stampAt, sweepAt);
    if found.Miss? {
      events, t := UninterruptedRefreshIsRun(c, a, w, transport, stampAt, sweepAt);
      var (sh, r) := RefreshAlone(c, looked, Foreground(s.workers[w].ticket), request, transport,
                                  stampAt, sweepAt);
      RefreshedReplies(c, s, a, t, w, request, looked, sh, r);
    } else {
      HitReplies(c, s, a, w, request, looked, found);
      events, t := [], a;
    }
  }

  lemma ReplyServes(c: Params, s: State, b: State, w: nat, request: Request, served: Served)
    returns (events: seq<Event>, t: State)
    requires AboutToReply(s, b, w, request, served)
    ensures Run(c, b, events, t) && HasServed(s, t, w, Some(request), served)
  {
    events, t := SendAndClose(c, b, w);
    assert t.workers == s.workers[w := Ready];
  }

  lemma ReceivedIsRun(c: Params, s: State, w: nat, request: Request, looked: Shared, found: Lookup,
                      transport: Transport, stampAt: Time, sweepAt: Time)
    returns (events: seq<Event>, t: State, served: Served)
    requires InHandler(s, w) && s.workers[w].handler.Receiving?
    requires s.shared.now <= looked.now <= stampAt <= sweepAt && looked == s.shared.(now := looked.now)
    requires found == Get(c.windows, looked.cache, request.stopId, looked.now)
    ensures Run(c, s, events, t) && HasServed(s, t, w, Some(request), served)
    ensures served == AfterLookUp(c, looked, s.workers[w].ticket, request, found, transport,
                                  stampAt, sweepAt)
  {
    var e1, a := ReceiveAndLookUp(c, s, w, request, looked.now);
    var e2, b;
    e2, b, served := AnswerRuns(c, s, a, w, request, looked, found, transport, stampAt, sweepAt);
    var e3;
    e3, t := ReplyServes(c, s, b, w, request, served);
    RunsCompose(c, s, e1, a, e2, b);
    RunsCompose(c, s, e1 + e2, b, e3, t);
    events := e1 + e2 + e3;
  }

  /** The uninterrupted handler of a client is a run of the step system, with exactly the shared
      state, reply and detached refresh of `HandleAlone`. */
  lemma UninterruptedHandlerIsRun(c: Params, s: State, w: nat, message: Option<Request>, transport: Transport,
                                  lookAt: Time, stampAt: Time, sweepAt: Time)
    returns (events: seq<Event>, t: State, served: Served)
    requires InHandler(s, w) && s.workers[w].handler.Receiving?
    requires s.shared.now <= lookAt <= stampAt <= sweepAt
    ensures Run(c, s, events, t) && HasServed(s, t, w, message, served)
    ensures served == HandleAlone(c, s.shared, s.workers[w].ticket, message, transport, lookAt, stampAt, sweepAt)
  {
    if message.None? {
      events, t := DropAndClose(c, s, w);
      served := Served(s.shared, None, None);
    } else {
      var looked := s.shared.(now := lookAt);
      var found := Get(c.windows, looked.cache, message.value.stopId, looked.now);
      events, t, served := ReceivedIsRun(c, s, w, message.value, looked, found, transport, stampAt, sweepAt);
    }
  }
}
