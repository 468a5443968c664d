/** The whole server against the same server with a cache that is never swept. */
module Refinement {
  import opened Options
  import opened BkkApi
  import opened CacheSpec
  import opened ServerModel
  import Replies
  import Linearizability

  /** A step of the simple server: as in the real one, but a sweep changes nothing shared. */
  function PlainApply(c: Params, s: State, e: Event): State
    requires Enabled(s, e)
  {
    if Linearizability.IsSweep(s, e) then Apply(c, s, e).(shared := s.shared) else Apply(c, s, e)
  }

  ghost predicate PlainRun(c: Params, s: State, events: seq<Event>, t: State)
    decreases |events|
  {
    if events == [] then s == t
    else Enabled(s, events[0]) && PlainRun(c, PlainApply(c, s, events[0]), events[1..], t)
  }

  /** The state of the simple server that stands for a state of the real one: all is equal but the
      cache, which holds the last entry ever put for each stop. */
  function Plain(s: State): State {
    s.(shared := s.shared.(cache := Latest(s.shared.puts)))
  }

  lemma EnabledAlike(s: State, e: Event)
    ensures Enabled(s, e) <==> Enabled(Plain(s), e)
    ensures Linearizability.IsSweep(s, e) <==> Linearizability.IsSweep(Plain(s), e)
    ensures Linearizability.IsInsert(s, e) <==> Linearizability.IsInsert(Plain(s), e)
  {
  }

  lemma LookUpSimulates(c: Params, s: State, w: nat)
    requires Sound(c.windows) && Replies.Inv(c, s) && Enabled(s, LookUp(w))
    ensures DoLookUp(c, Plain(s), w) == Plain(DoLookUp(c, s, w))
  {
    var sh := s.shared;
    Replies.PutsAreStamped(c, sh);
    LookupRefinesPlainMap(c.windows, sh.cache, sh.puts, sh.now, s.workers[w].handler.request.stopId);
    EqualLookupsSimulate(c, s, w);
  }

  lemma EqualLookupsSimulate(c: Params, s: State, w: nat)
    requires Enabled(s, LookUp(w))
    requires var sh, stop := s.shared, s.workers[w].handler.request.stopId;
             Get(c.windows, sh.cache, stop, sh.now) == Get(c.windows, Latest(sh.puts), stop, sh.now)
    ensures DoLookUp(c, Plain(s), w) == Plain(DoLookUp(c, s, w))
  {
  }

  /** One step of a refresh on the plain map. */
  lemma RefreshSimulates(c: Params, sh: Shared, origin: Origin, request: Request, r: Refresh, transport: Transport)
    requires !r.Finished?
    ensures var plain := sh.(cache := Latest(sh.puts));
            var (a, q) := RefreshStep(c, sh, origin, request, r, transport);
            var (b, p) := RefreshStep(c, plain, origin, request, r, transport);
            p == q && (if r.Sweeping? then plain else b) == a.(cache := Latest(a.puts))
  {
  }

  lemma AdvanceSimulates(c: Params, s: State, w: nat, transport: Transport)
    requires Enabled(s, Advance(w, transport))
    ensures PlainApply(c, Plain(s), Advance(w, transport)) == Plain(DoAdvance(c, s, w, transport))
  {
    var h := s.workers[w].handler;
    RefreshSimulates(c, s.shared, Foreground(s.workers[w].ticket), h.request, h.refresh, transport);
  }

  lemma AdvanceJobSimulates(c: Params, s: State, j: nat, transport: Transport)
    requires Enabled(s, AdvanceJob(j, transport))
    ensures PlainApply(c, Plain(s), AdvanceJob(j, transport)) == Plain(DoAdvanceJob(c, s, j, transport))
  {
    var job := s.jobs[j];
    RefreshSimulates(c, s.shared, Background(job.ticket), job.request, job.refresh, transport);
  }

  /** The remaining steps do not touch what is shared, except for the clock. */
  lemma OtherSimulates(c: Params, s: State, e: Event)
    requires Enabled(s, e) && !e.LookUp? && !e.Advance? && !e.AdvanceJob?
    ensures Enabled(Plain(s), e) && PlainApply(c, Plain(s), e) == Plain(Apply(c, s, e))
  {
    EnabledAlike(s, e);
    match e {
      case Check(w) => CheckSimulates(s, w);
      case Receive(w, message) => ReceiveSimulates(c, s, w, message);
      case Send(w) => SendSimulates(c, s, w);
      case _ =>
    }
  }

  lemma CheckSimulates(s: State, w: nat)
    requires Enabled(s, Check(w))
    ensures DoCheck(Plain(s), w) == Plain(DoCheck(s, w))
  {
  }

  lemma ReceiveSimulates(c: Params, s: State, w: nat, message: Option<Request>)
    requires Enabled(s, Receive(w, message))
    ensures Apply(c, Plain(s), Receive(w, message)) == Plain(Apply(c, s, Receive(w, message)))
  {
  }

  lemma SendSimulates(c: Params, s: State, w: nat)
    requires Enabled(s, Send(w))
    ensures Apply(c, Plain(s), Send(w)) == Plain(Apply(c, s, Send(w)))
  {
  }

  lemma StepSimulates(c: Params, s: State, e: Event)
    requires Sound(c.windows) && Replies.Inv(c, s) && Enabled(s, e)
    ensures Enabled(Plain(s), e) && PlainApply(c, Plain(s), e) == Plain(Apply(c, s, e))
  {
    match e {
      case LookUp(w) => LookUpSimulates(c, s, w);
      case Advance(w, transport) => AdvanceSimulates(c, s, w, transport);
      case AdvanceJob(j, transport) => AdvanceJobSimulates(c, s, j, transport);
      case _ => OtherSimulates(c, s, e);
    }
  }

  lemma {:induction false} RealRunsSimulate(c: Params, s: State, events: seq<Event>, t: State)
    requires Sound(c.windows) && Replies.Inv(c, s) && Run(c, s, events, t)
    ensures PlainRun(c, Plain(s), events, Plain(t))
    decreases |events|
  {
    if events != [] {
      StepSimulates(c, s, events[0]);
      Replies.InvStep(c, s, events[0]);
      RealRunsSimulate(c, Apply(c, s, events[0]), events[1..], t);
    }
  }

  lemma {:induction false} PlainRunsAreReal(c: Params, s: State, events: seq<Event>, u: State) returns (t: State)
    requires Sound(c.windows) && Replies.Inv(c, s) && PlainRun(c, Plain(s), events, u)
    ensures Run(c, s, events, t) && Plain(t) == u
    decreases |events|
  {
    if events == [] {
      t := s;
    } else {
      EnabledAlike(s, events[0]);
      StepSimulates(c, s, events[0]);
      Replies.InvStep(c, s, events[0]);
      t := PlainRunsAreReal(c, Apply(c, s, events[0]), events[1..], u);
    }
  }

  /** With sound windows the server with the swept cache and the server that never sweeps have the
      same runs: the same events lead to states that agree in everything, replies, lookups and
      background refreshes included, except for what is stored in the cache. */
  lemma ServerRefinesPlainServer(c: Params, workers: nat, start: Time, events: seq<Event>, u: State)
    requires Sound(c.windows)
    ensures PlainRun(c, Init(workers, start), events, u)
       <==> exists t :: Run(c, Init(workers, start), events, t) && Plain(t) == u
  {
    var s := Init(workers, start);
    assert Plain(s) == s;
    if PlainRun(c, s, events, u) {
      var t := PlainRunsAreReal(c, s, events, u);
    }
    if t :| Run(c, s, events, t) && Plain(t) == u {
      RealRunsSimulate(c, s, events, t);
    }
  }
}
