/** How many steps the threads of a pool can take: bounds for every run, before and after `stop`. */
module Shutdown {
  import opened Sums
  import opened ServerModel
  import opened Scheduling
  import BkkApi

  /** Steps that the pool's threads take part in. Submissions, the start of the destructor and the
      passing of time come from outside. A receive is counted here although only the client can
      complete it, so that the bounds hold whatever the clients do. */
  predicate Internal(e: Event) {
    !e.Tick? && !e.Push? && !e.Stop?
  }

  // ---------------------------------------------------------------- the measure

  function RefreshRank(r: Refresh): nat {
    match r
    case Fetching => 4
    case Stamping(_, _, _) => 3
    case Inserting(_) => 2
    case Sweeping(_) => 1
    case Finished(_, _) => 0
  }

  function HandlerRank(h: Handler): nat {
    match h
    case Receiving => 9
    case Looking(_) => 8
    case Refreshing(_, r) => 3 + RefreshRank(r)
    case Replying(_, _, _) => 3
    case Closing => 2
  }

  function PhaseRank(p: Phase): nat {
    match p
    case Exited => 0
    case Ready => 1
    case Woken => 1
    case Blocked => 2
    case Handling(_, _, h) => HandlerRank(h)
  }

  function JobRank(j: Job): nat { RefreshRank(j.refresh) }

  const TASK_WEIGHT := 9

  /** Bounds the number of steps the pool can still take once `stop` is set. */
  function Measure(s: State): nat {
    TASK_WEIGHT * |s.queue| + s.pendingNotify + (if s.notifyAllDue then 1 else 0)
    + Sum(s.workers, PhaseRank) + Sum(s.jobs, JobRank)
  }

  lemma {:induction false} WakeAllLowersRank(workers: seq<Phase>)
    ensures Sum(WakeAll(workers), PhaseRank) <= Sum(workers, PhaseRank)
  {
    if workers != [] {
      WakeAllLowersRank(workers[1..]);
    }
  }

  lemma RefreshRankDrops(c: Params, sh: Shared, origin: Origin, request: Request, r: Refresh,
                         transport: BkkApi.Transport)
    requires !r.Finished?
    ensures RefreshRank(RefreshStep(c, sh, origin, request, r, transport).1) < RefreshRank(r)
  {
  }

  /** What a step does to the ranks of handlers and jobs. */
  ghost predicate Ranks(s: State, e: Event, t: State) {
    match e
    case LookUp(w) =>
      w < |s.workers| == |t.workers|
      && PhaseRank(t.workers[w]) + Sum(t.jobs, JobRank) < PhaseRank(s.workers[w]) + Sum(s.jobs, JobRank)
    case Advance(w, _) =>
      w < |s.workers| == |t.workers| && PhaseRank(t.workers[w]) < PhaseRank(s.workers[w]) && t.jobs == s.jobs
    case AdvanceJob(_, _) => Sum(t.jobs, JobRank) < Sum(s.jobs, JobRank)
    case _ => t.jobs == s.jobs
  }

  lemma LookUpRanks(c: Params, s: State, w: nat)
    requires Enabled(s, LookUp(w))
    ensures Ranks(s, LookUp(w), DoLookUp(c, s, w))
  {
    var t := DoLookUp(c, s, w);
    if |t.jobs| > |s.jobs| {
      SumAppend(s.jobs, t.jobs[|s.jobs|], JobRank);
    }
  }

  lemma AdvanceRanks(c: Params, s: State, w: nat, transport: BkkApi.Transport)
    requires Enabled(s, Advance(w, transport))
    ensures Ranks(s, Advance(w, transport), DoAdvance(c, s, w, transport))
  {
  }

  lemma AdvanceJobRanks(c: Params, s: State, j: nat, transport: BkkApi.Transport)
    requires Enabled(s, AdvanceJob(j, transport))
    ensures Ranks(s, AdvanceJob(j, transport), DoAdvanceJob(c, s, j, transport))
  {
    var job := s.jobs[j];
    RefreshRankDrops(c, s.shared, Background(job.ticket), job.request, job.refresh, transport);
    SumUpdate(s.jobs, j, DoAdvanceJob(c, s, j, transport).jobs[j], JobRank);
  }

  lemma StepsRank(c: Params, s: State, e: Event)
    requires Enabled(s, e)
    ensures Ranks(s, e, Apply(c, s, e))
  {
    match e {
      case LookUp(w) => LookUpRanks(c, s, w);
      case Advance(w, transport) => AdvanceRanks(c, s, w, transport);
      case AdvanceJob(j, transport) => AdvanceJobRanks(c, s, j, transport);
      case _ =>
    }
  }

  lemma MeasureDrops(s: State, e: Event, t: State)
    requires s.stop && Internal(e) && Schedules(s, e, t) && Ranks(s, e, t)
    ensures Measure(t) < Measure(s)
  {
    if e == NotifyAll {
      WakeAllLowersRank(s.workers);
    } else {
      WeightStep(s, e, t, PhaseRank);
    }
  }

  lemma PushAddsToMeasure(s: State, e: Event, t: State)
    requires !Internal(e) && !e.Stop? && Schedules(s, e, t) && Ranks(s, e, t)
    ensures Measure(t) == Measure(s) + if e.Push? then TASK_WEIGHT + 1 else 0
  {
  }

  function InternalWeight(e: Event): nat { if Internal(e) then 1 else 0 }
  function PushWeight(e: Event): nat { if e.Push? then 1 else 0 }

  /** Once `stop` is set the threads take at most `Measure` steps, plus ten for each later
      submission, however the steps interleave and whatever upstream answers. */
  lemma {:induction false} ShutdownTerminates(c: Params, s: State, events: seq<Event>, t: State)
    requires s.stop && Run(c, s, events, t)
    ensures t.stop
    ensures Sum(events, InternalWeight) + Measure(t) <= Measure(s) + (TASK_WEIGHT + 1) * Sum(events, PushWeight)
    decreases |events|
  {
    if events != [] {
      var e := events[0];
      var u := Apply(c, s, e);
      StepsSchedule(c, s, e);
      StepsRank(c, s, e);
      if Internal(e) {
        MeasureDrops(s, e, u);
      } else {
        PushAddsToMeasure(s, e, u);
      }
      ShutdownTerminates(c, u, events[1..], t);
    }
  }

  // ---------------------------------------------------------------- whether or not it is stopped

  /** Steps that get work done, spurious wake-ups aside. */
  predicate Working(e: Event) {
    Internal(e) && !e.SpuriousWake?
  }

  function WorkRank(p: Phase): nat {
    if p.Blocked? then 0 else PhaseRank(p)
  }

  const NOTIFY_WEIGHT := 2

  /** Bounds the number of steps to rest, whether or not `stop` is set: a notification still to come
      weighs more than the look at the queue that it may lead to. */
  function Work(s: State): nat {
    TASK_WEIGHT * |s.queue| + NOTIFY_WEIGHT * s.pendingNotify + (if s.notifyAllDue then |s.workers| + 1 else 0)
    + Sum(s.workers, WorkRank) + Sum(s.jobs, JobRank)
  }

  lemma {:induction false} WakeAllAddsLittle(workers: seq<Phase>)
    ensures Sum(WakeAll(workers), WorkRank) <= Sum(workers, WorkRank) + |workers|
  {
    if workers != [] {
      WakeAllAddsLittle(workers[1..]);
    }
  }

  /** What the outside, and spurious wake-ups, add to the work. */
  function Cost(workers: nat): Event -> nat {
    (e: Event) => match e
      case Push(_) => TASK_WEIGHT + NOTIFY_WEIGHT
      case Stop => workers + 1
      case SpuriousWake(_) => 1
      case _ => 0
  }

  function WorkingWeight(e: Event): nat { if Working(e) then 1 else 0 }

  lemma WorkStep(s: State, e: Event, t: State)
    requires Stopping(s) && Schedules(s, e, t) && Ranks(s, e, t)
    ensures |t.workers| == |s.workers|
    ensures WorkingWeight(e) + Work(t) <= Work(s) + Cost(|s.workers|)(e)
  {
    WorkersStep(s, e, t);
    match e {
      case NotifyAll => WakeAllAddsLittle(s.workers);
      case Check(_) => CheckLowersWork(s, e, t);
      case NotifyOne(_) => NotifyLowersWork(s, e, t);
      case _ => RestOfWorkStep(s, e, t);
    }
  }

  lemma RestOfWorkStep(s: State, e: Event, t: State)
    requires Schedules(s, e, t) && Ranks(s, e, t) && !e.NotifyAll? && !e.Check? && !e.NotifyOne?
    ensures WorkingWeight(e) + Work(t) <= Work(s) + Cost(|s.workers|)(e)
  {
    WorkersStep(s, e, t);
    WeightStep(s, e, t, WorkRank);
  }

  lemma CheckLowersWork(s: State, e: Event, t: State)
    requires e.Check? && Schedules(s, e, t) && Ranks(s, e, t)
    ensures Work(t) < Work(s)
  {
    WorkersStep(s, e, t);
    WeightStep(s, e, t, WorkRank);
  }

  lemma NotifyLowersWork(s: State, e: Event, t: State)
    requires e.NotifyOne? && Schedules(s, e, t) && Ranks(s, e, t)
    ensures Work(t) < Work(s)
  {
    WorkersStep(s, e, t);
    WeightStep(s, e, t, WorkRank);
  }

  /** In every run the threads take no more steps than the work there was plus eleven for each
      submission, one for each spurious wake-up and one for each worker and one more for `stop`. */
  lemma {:induction false} WorkIsBounded(c: Params, s: State, events: seq<Event>, t: State)
    requires Inv(s) && Run(c, s, events, t)
    ensures Sum(events, WorkingWeight) + Work(t) <= Work(s) + Sum(events, Cost(|s.workers|))
    decreases |events|
  {
    if events != [] {
      var e := events[0];
      var u := Apply(c, s, e);
      StepsSchedule(c, s, e);
      StepsRank(c, s, e);
      WorkStep(s, e, u);
      InvStep(s, e, u);
      WorkIsBounded(c, u, events[1..], t);
    }
  }
}
