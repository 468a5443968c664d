/** Where the server can be told from one that never sweeps. */
module Limits {
  import opened CacheSpec
  import opened ServerModel
  import Witnesses
  import Refinement

  const STOP: StopId := "1"

  function EarlyAge(w: Windows): nat {
    (if w.staleness > 0 then w.staleness else 0) * NANOS_PER_SECOND
  }

  /** A state whose worker is about to look up a stop that was swept although it is fresh. */
  lemma SweptWhileFresh(c: Params, workers: nat) returns (events: seq<Event>, s: State)
    requires workers > 0 && !Sound(c.windows)
    ensures Run(c, Init(workers, 0), events, s) && Enabled(s, LookUp(0))
    ensures s.workers[0].handler == Looking(Witnesses.Ask(STOP))
    ensures Get(c.windows, s.shared.cache, STOP, s.shared.now) == Miss
    ensures Get(c.windows, Latest(s.shared.puts), STOP, s.shared.now).HitFresh?
  {
    var start := Init(workers, 0);
    var e1, s1 := Witnesses.ServeMiss(c, start, 0, STOP, EarlyAge(c.windows));
    var e2;
    e2, s := Witnesses.Accept(c, s1, 0, Witnesses.Ask(STOP));
    RunsCompose(c, start, e1, s1, e2, s);
    events := e1 + e2;
    LatestIsPut(s.shared.puts, STOP);
  }

  lemma {:induction false} PlainRunsEndAlike(c: Params, s: State, events: seq<Event>, t: State, e: Event, u: State)
    requires Refinement.PlainRun(c, s, events, t) && Refinement.PlainRun(c, s, events + [e], u)
    ensures Enabled(t, e) && u == Refinement.PlainApply(c, t, e)
    decreases |events|
  {
    assert (events + [e])[0] == if events == [] then e else events[0];
    assert (events + [e])[1..] == if events == [] then [] else events[1..] + [e];
    if events != [] {
      PlainRunsEndAlike(c, Refinement.PlainApply(c, s, events[0]), events[1..], t, e, u);
    }
  }

  lemma LookUpTellsApart(c: Params, s: State)
    requires Enabled(s, LookUp(0)) && s.workers[0].handler == Looking(Witnesses.Ask(STOP))
    requires Get(c.windows, s.shared.cache, STOP, s.shared.now) == Miss
    requires Get(c.windows, Latest(s.shared.puts), STOP, s.shared.now).HitFresh?
    ensures Refinement.PlainApply(c, Refinement.Plain(s), LookUp(0)) != Refinement.Plain(DoLookUp(c, s, 0))
  {
    assert DoLookUp(c, s, 0).workers[0].handler.Refreshing?;
    assert DoLookUp(c, Refinement.Plain(s), 0).workers[0].handler.Replying?;
  }

  ghost predicate AlwaysSimulates(c: Params, workers: nat) {
    forall start, events, t | Run(c, Init(workers, start), events, t) ::
      Refinement.PlainRun(c, Init(workers, start), events, Refinement.Plain(t))
  }

  /** Without threads nothing is ever cached, and nothing is swept. */
  lemma {:induction false} IdleRunsSimulate(c: Params, s: State, events: seq<Event>, t: State)
    requires s.workers == [] && s.jobs == [] && s.shared.cache == map[] && s.shared.puts == []
    requires Run(c, s, events, t)
    ensures Refinement.PlainRun(c, s, events, Refinement.Plain(t))
    decreases |events|
  {
    if events != [] {
      IdleRunsSimulate(c, Apply(c, s, events[0]), events[1..], t);
    }
  }

  lemma UnsoundIsSeen(c: Params, workers: nat)
    requires workers > 0 && !Sound(c.windows)
    ensures !AlwaysSimulates(c, workers)
  {
    var start := Init(workers, 0);
    var events, s := SweptWhileFresh(c, workers);
    var t := Apply(c, s, LookUp(0));
    RunThen(c, start, events, s, LookUp(0));
    LookUpTellsApart(c, s);
    var p, q := Refinement.Plain(s), Refinement.Plain(t);
    if Refinement.PlainRun(c, start, events, p) {
      if Refinement.PlainRun(c, start, events + [LookUp(0)], q) {
        PlainRunsEndAlike(c, start, events, p, LookUp(0), q);
      }
    }
  }

  /** The server behaves as one that never sweeps exactly when it has no thread or its windows are
      sound: otherwise it can fetch anew where the simple server would have replied from a fresh
      entry. */
  lemma ServerRefinesExactly(c: Params, workers: nat)
    ensures AlwaysSimulates(c, workers) <==> workers == 0 || Sound(c.windows)
  {
    if workers == 0 || Sound(c.windows) {
      forall start, events, t | Run(c, Init(workers, start), events, t)
        ensures Refinement.PlainRun(c, Init(workers, start), events, Refinement.Plain(t))
      {
        if workers == 0 {
          IdleRunsSimulate(c, Init(workers, start), events, t);
        } else {
          Refinement.ServerRefinesPlainServer(c, workers, start, events, Refinement.Plain(t));
        }
      }
    } else {
      UnsoundIsSeen(c, workers);
    }
  }
}
