/** Where a pool can come to a stop, and what has been served then. A receive blocks without a
    timeout: a client that stays silent holds its worker, and the statements say exactly when that
    matters. */
module Draining {
  import opened Options
  import Sums
  import opened ServerModel
  import opened Scheduling
  import opened Shutdown
  import BkkApi

  // ---------------------------------------------------------------- steps of the pool alone

  /** Steps that the pool's threads take by themselves: all but receives, which need the client to
      send or hang up, and spurious wake-ups, which nothing makes happen. */
  predicate Own(e: Event) {
    Working(e) && !e.Receive?
  }

  /** The pool can do nothing more by itself. */
  ghost predicate Stuck(s: State) {
    forall e | Own(e) :: !Enabled(s, e)
  }

  /** Worker `w` is inside `recv`. */
  predicate Waits(s: State, w: nat) {
    InHandler(s, w) && s.workers[w].handler.Receiving?
  }

  predicate WaitsFor(s: State, w: nat, ticket: nat) {
    Waits(s, w) && s.workers[w].ticket == ticket
  }

  ghost predicate NobodyWaits(s: State) {
    forall w: nat :: !Waits(s, w)
  }

  ghost predicate AllExited(s: State) {
    forall w | 0 <= w < |s.workers| :: s.workers[w].Exited?
  }

  ghost predicate AllDone(s: State, tasks: nat) {
    forall k: nat | k < tasks :: Done(s, k)
  }

  // ---------------------------------------------------------------- handlers under way

  /** No handler is parked in a finished refresh: it has moved on to its reply. */
  ghost predicate Underway(s: State) {
    forall w | 0 <= w < |s.workers| && InRefresh(s.workers[w]) :: !s.workers[w].handler.refresh.Finished?
  }

  lemma UnderwayStep(c: Params, s: State, e: Event)
    requires Underway(s) && Enabled(s, e)
    ensures Underway(Apply(c, s, e))
  {
    StepsSchedule(c, s, e);
    WorkersStep(s, e, Apply(c, s, e));
  }

  lemma {:induction false} RunUnderway(c: Params, s: State, events: seq<Event>, t: State)
    requires Underway(s) && Run(c, s, events, t)
    ensures Underway(t)
    decreases |events|
  {
    if events != [] {
      UnderwayStep(c, s, events[0]);
      RunUnderway(c, Apply(c, s, events[0]), events[1..], t);
    }
  }

  lemma ReachableUnderway(c: Params, workers: nat, s: State)
    requires Reachable(c, workers, s)
    ensures Underway(s)
  {
    var start, events :| Run(c, Init(workers, start), events, s);
    RunUnderway(c, Init(workers, start), events, s);
  }

  // ---------------------------------------------------------------- what a stuck pool looks like

  lemma StuckWorker(s: State, w: nat)
    requires Underway(s) && Stuck(s) && w < |s.workers|
    ensures s.workers[w].Blocked? || s.workers[w].Exited? || Waits(s, w)
  {
    assert !Enabled(s, Check(w)) && !Enabled(s, LookUp(w)) && !Enabled(s, Advance(w, BkkApi.InitFailed));
    assert !Enabled(s, Send(w)) && !Enabled(s, Close(w));
  }

  lemma StuckPool(s: State)
    requires Underway(s) && Stuck(s)
    ensures s.pendingNotify == 0 && !s.notifyAllDue
    ensures forall j | 0 <= j < |s.jobs| :: s.jobs[j].refresh.Finished?
    ensures forall w | 0 <= w < |s.workers| :: s.workers[w].Blocked? || s.workers[w].Exited? || Waits(s, w)
  {
    assert !Enabled(s, NotifyAll);
    if w :| 0 <= w < |s.workers| && s.workers[w] == Blocked {
      assert !Enabled(s, NotifyOne(Some(w)));
    } else {
      assert !Enabled(s, NotifyOne(None));
    }
    forall j | 0 <= j < |s.jobs| ensures s.jobs[j].refresh.Finished? {
      assert !Enabled(s, AdvanceJob(j, BkkApi.InitFailed));
    }
    forall w | 0 <= w < |s.workers| ensures s.workers[w].Blocked? || s.workers[w].Exited? || Waits(s, w) {
      StuckWorker(s, w);
    }
  }

  lemma DoneUnlessHeld(s: State, k: nat)
    requires Inv(s)
    ensures Done(s, k) <==> k < s.taken && forall w :: !Holding(s, w, k)
  {
    assert OnceFor(s, k);
    HolderCount(s, k);
    SumIsMultiplicity(s.closed, k);
  }

  /** In a stuck pool a task is closed exactly once, still queued, or held by a silent client. */
  lemma StuckTask(c: Params, workers: nat, s: State, k: nat)
    requires Reachable(c, workers, s) && Stuck(s)
    ensures Done(s, k) <==> k < s.taken && forall w: nat :: !WaitsFor(s, w, k)
  {
    ReachableInv(c, workers, s);
    ReachableUnderway(c, workers, s);
    DoneUnlessHeld(s, k);
    if w :| Holding(s, w, k) {
      StuckWorker(s, w);
      assert WaitsFor(s, w, k);
    }
    if w: nat :| WaitsFor(s, w, k) {
      assert Holding(s, w, k);
    }
  }

  // ---------------------------------------------------------------- a stopped pool

  lemma {:induction false} RunWithoutThreads(c: Params, s: State, events: seq<Event>, t: State)
    requires Run(c, s, events, t) && s.workers == [] && s.taken == 0
    ensures t.taken == 0
    decreases |events|
  {
    if events != [] {
      RunWithoutThreads(c, Apply(c, s, events[0]), events[1..], t);
    }
  }

  /** No worker waits for a client that came before `stop`. */
  ghost predicate NoneWaitsBefore(s: State) {
    forall w: nat | Waits(s, w) :: s.workers[w].ticket >= s.stoppedAt
  }

  /** When the pool has been stopped and can do nothing more, all tasks submitted before `stop` have
      been served if and only if there were none, or the pool has a thread and no worker still waits
      for the client of one of them. The joins of the destructor return if and only if no worker
      waits at all. */
  lemma StoppedPoolDrainsExactly(c: Params, workers: nat, s: State)
    requires Reachable(c, workers, s) && s.stop && Stuck(s)
    ensures AllDone(s, s.stoppedAt) <==> s.stoppedAt == 0 || (workers > 0 && NoneWaitsBefore(s))
    ensures AllExited(s) <==> NobodyWaits(s)
    ensures forall j | 0 <= j < |s.jobs| :: s.jobs[j].refresh.Finished?
  {
    ReachableInv(c, workers, s);
    ReachableUnderway(c, workers, s);
    StuckPool(s);
    if workers > 0 && NoneWaitsBefore(s) {
      assert s.workers[0].Exited? || Waits(s, 0);
      forall k: nat | k < s.stoppedAt ensures Done(s, k) { StuckTask(c, workers, s, k); }
    }
    if AllDone(s, s.stoppedAt) && s.stoppedAt > 0 {
      assert Done(s, 0);
      if workers == 0 { NothingTakenWithoutThreads(c, s); }
      forall w: nat | Waits(s, w) ensures s.workers[w].ticket >= s.stoppedAt {
        assert WaitsFor(s, w, s.workers[w].ticket);
        StuckTask(c, workers, s, s.workers[w].ticket);
      }
    }
  }

  lemma NothingTakenWithoutThreads(c: Params, s: State)
    requires Reachable(c, 0, s)
    ensures s.taken == 0
  {
    var start, events :| Run(c, Init(0, start), events, s);
    RunWithoutThreads(c, Init(0, start), events, s);
  }

  /** When the joins of the destructor have returned, every task submitted before `stop` was
      closed exactly once, and the queue holds only tasks submitted after it. */
  lemma JoinedMeansDrained(c: Params, workers: nat, s: State)
    requires Reachable(c, workers, s) && workers > 0 && AllExited(s)
    ensures s.stop && AllDone(s, s.stoppedAt)
    ensures |s.submitted| == s.stoppedAt ==> s.queue == []
  {
    ReachableInv(c, workers, s);
    assert s.workers[0].Exited?;
    forall k: nat | k < s.stoppedAt ensures Done(s, k) { DoneUnlessHeld(s, k); }
  }

  // ---------------------------------------------------------------- a running pool

  /** When a running pool with a thread can do nothing more, everything submitted has been served if
      and only if no worker waits for its client; and a task is left in the queue only if every
      worker waits. */
  lemma RunningPoolServesExactly(c: Params, workers: nat, s: State)
    requires Reachable(c, workers, s) && workers > 0 && !s.stop && Stuck(s)
    ensures AllDone(s, |s.submitted|) <==> NobodyWaits(s)
    ensures s.queue != [] ==> forall w: nat | w < workers :: Waits(s, w)
    ensures forall j | 0 <= j < |s.jobs| :: s.jobs[j].refresh.Finished?
  {
    ReachableInv(c, workers, s);
    ReachableUnderway(c, workers, s);
    StuckPool(s);
    if w: nat :| w < workers && !Waits(s, w) {
      assert s.workers[w].Blocked?;
      Sums.SumAtLeast(s.workers, w, BlockedWeight);
      Sums.SumZero(s.workers, WokenWeight);
      assert s.queue == [];
    }
    if NobodyWaits(s) {
      assert !Waits(s, 0);
      forall k: nat | k < |s.submitted| ensures Done(s, k) { StuckTask(c, workers, s, k); }
    } else {
      var w: nat :| Waits(s, w);
      assert WaitsFor(s, w, s.workers[w].ticket);
      StuckTask(c, workers, s, s.workers[w].ticket);
    }
  }

  // ---------------------------------------------------------------- the pool gets stuck

  ghost predicate OwnRun(c: Params, s: State, events: seq<Event>, t: State) {
    Run(c, s, events, t) && forall e | e in events :: Own(e)
  }

  lemma WorkingStep(c: Params, s: State, e: Event)
    requires Inv(s) && Enabled(s, e) && Working(e)
    ensures var t := Apply(c, s, e);
            && t.stop == s.stop && t.submitted == s.submitted && t.stoppedAt == s.stoppedAt
            && Work(t) < Work(s) && (s.stop ==> Measure(t) < Measure(s)) && Run(c, s, [e], t)
  {
    var t := Apply(c, s, e);
    StepsSchedule(c, s, e);
    StepsRank(c, s, e);
    WorkStep(s, e, t);
    if s.stop { MeasureDrops(s, e, t); }
    assert [e][1..] == [];
  }

  /** From every state, running or stopped, the pool comes to its end by a bounded number of its own
      steps, whatever the clients do. */
  lemma {:induction false} OwnStepsEnd(c: Params, workers: nat, s: State) returns (events: seq<Event>, t: State)
    requires Reachable(c, workers, s)
    ensures OwnRun(c, s, events, t) && Stuck(t) && Reachable(c, workers, t)
    ensures |events| <= Work(s) && (s.stop ==> |events| <= Measure(s))
    ensures t.stop == s.stop && t.submitted == s.submitted && t.stoppedAt == s.stoppedAt
    decreases Work(s)
  {
    if Stuck(s) {
      events, t := [], s;
    } else {
      var e :| Own(e) && Enabled(s, e);
      var u := Apply(c, s, e);
      ReachableInv(c, workers, s);
      WorkingStep(c, s, e);
      RunsReach(c, workers, s, [e], u);
      var rest;
      rest, t := OwnStepsEnd(c, workers, u);
      RunsCompose(c, s, [e], u, rest, t);
      events := [e] + rest;
    }
  }

  // ---------------------------------------------------------------- exactly when it needs nobody

  /** No task waits for a worker and no worker for a client. */
  ghost predicate NeedsNoClient(s: State) {
    s.queue == [] && NobodyWaits(s)
  }

  /** A worker that waits is moved by nothing but its receive. */
  lemma WaiterStays(c: Params, s: State, e: Event, w: nat)
    requires Enabled(s, e) && Own(e) && Waits(s, w)
    ensures Waits(Apply(c, s, e), w)
  {
    StepsSchedule(c, s, e);
    WorkersStep(s, e, Apply(c, s, e));
    assert Mover(e) != Some(w);
  }

  /** Only taking a task makes a worker wait. */
  lemma NoNewWaiter(c: Params, s: State, e: Event, w: nat)
    requires Enabled(s, e) && !(e.Check? && Decide(s.queue, s.stop) == Take) && Waits(Apply(c, s, e), w)
    ensures Waits(s, w)
  {
    StepsSchedule(c, s, e);
    WorkersStep(s, e, Apply(c, s, e));
    if e.LookUp? || e.Advance? {
      RefreshersDoNotWait(c, s, e);
    }
  }

  lemma RefreshersDoNotWait(c: Params, s: State, e: Event)
    requires Enabled(s, e) && (e.LookUp? || e.Advance?)
    ensures !Waits(Apply(c, s, e), e.worker)
  {
  }

  /** A step of the pool alone neither receives nor submits: it takes a queued task to a worker that
      waits, and leaves workers that wait where they are. */
  lemma NeedsNoClientStep(c: Params, s: State, e: Event)
    requires Enabled(s, e) && Own(e)
    ensures NeedsNoClient(Apply(c, s, e)) <==> NeedsNoClient(s)
  {
    var t := Apply(c, s, e);
    StepsSchedule(c, s, e);
    if w: nat :| Waits(s, w) {
      WaiterStays(c, s, e, w);
    } else if e.Check? && Decide(s.queue, s.stop) == Take {
      assert Waits(t, e.worker);
    } else if w: nat :| Waits(t, w) {
      NoNewWaiter(c, s, e, w);
    }
  }

  lemma ExitStep(c: Params, s: State, e: Event)
    requires Enabled(s, e) && Own(e)
    ensures NeedsNoClient(Apply(c, s, e)) || AllExited(Apply(c, s, e)) <==> NeedsNoClient(s) || AllExited(s)
  {
    var t := Apply(c, s, e);
    NeedsNoClientStep(c, s, e);
    StepsSchedule(c, s, e);
    if w: nat :| Waits(s, w) {
      WaiterStays(c, s, e, w);
    } else {
      LastExit(s, e, t);
    }
  }

  /** The last worker leaves an empty queue behind, and workers that have exited stay so. */
  lemma LastExit(s: State, e: Event, t: State)
    requires Schedules(s, e, t) && Own(e)
    ensures AllExited(t) ==> AllExited(s) || s.queue == []
    ensures AllExited(s) ==> AllExited(t)
  {
    WorkersStep(s, e, t);
  }

  lemma {:induction false} OwnRunsKeepNeeds(c: Params, s: State, events: seq<Event>, t: State)
    requires OwnRun(c, s, events, t)
    ensures NeedsNoClient(t) <==> NeedsNoClient(s)
    ensures NeedsNoClient(t) || AllExited(t) <==> NeedsNoClient(s) || AllExited(s)
    decreases |events|
  {
    if events != [] {
      var u := Apply(c, s, events[0]);
      assert Own(events[0]) && forall e | e in events[1..] :: e in events;
      NeedsNoClientStep(c, s, events[0]);
      ExitStep(c, s, events[0]);
      OwnRunsKeepNeeds(c, u, events[1..], t);
    }
  }

  /** A running pool with a thread can serve all that was submitted by itself exactly when no task is
      queued and no worker waits for its client: any other task still needs its client. */
  lemma ServesByItselfExactly(c: Params, workers: nat, s: State)
    requires Reachable(c, workers, s) && workers > 0 && !s.stop
    ensures (exists events, t :: OwnRun(c, s, events, t) && AllDone(t, |s.submitted|)) <==> NeedsNoClient(s)
  {
    if NeedsNoClient(s) {
      var events, t := OwnStepsEnd(c, workers, s);
      OwnRunsKeepNeeds(c, s, events, t);
      RunningPoolServesExactly(c, workers, t);
    }
    if events, t :| OwnRun(c, s, events, t) && AllDone(t, |s.submitted|) {
      OwnRunsKeepNeeds(c, s, events, t);
      RunsReach(c, workers, s, events, t);
      OwnRunsSubmitNothing(c, s, events, t);
      ReachableInv(c, workers, t);
      AllDoneNeedsNoClient(t);
    }
  }

  lemma AllDoneNeedsNoClient(s: State)
    requires Inv(s)
    ensures AllDone(s, |s.submitted|) ==> NeedsNoClient(s)
  {
    if s.queue != [] {
      assert !Done(s, s.taken);
    } else if w: nat :| Waits(s, w) {
      assert Holding(s, w, s.workers[w].ticket);
      assert !Done(s, s.workers[w].ticket);
    }
  }

  lemma {:induction false} OwnRunsSubmitNothing(c: Params, s: State, events: seq<Event>, t: State)
    requires OwnRun(c, s, events, t)
    ensures t.submitted == s.submitted
    decreases |events|
  {
    if events != [] {
      assert Own(events[0]) && forall e | e in events[1..] :: e in events;
      StepsSchedule(c, s, events[0]);
      OwnRunsSubmitNothing(c, Apply(c, s, events[0]), events[1..], t);
    }
  }

  /** A stopped pool can bring all joins to return by itself exactly when all workers have exited
      already, or no task is queued and no worker waits for its client. */
  lemma ExitsByItselfExactly(c: Params, workers: nat, s: State)
    requires Reachable(c, workers, s) && s.stop
    ensures (exists events, t :: OwnRun(c, s, events, t) && AllExited(t)) <==> AllExited(s) || NeedsNoClient(s)
  {
    if AllExited(s) {
      assert OwnRun(c, s, [], s);
    } else if NeedsNoClient(s) {
      var events, t := OwnStepsEnd(c, workers, s);
      OwnRunsKeepNeeds(c, s, events, t);
      StoppedPoolDrainsExactly(c, workers, t);
    }
    if events, t :| OwnRun(c, s, events, t) && AllExited(t) {
      OwnRunsKeepNeeds(c, s, events, t);
    }
  }

  // ---------------------------------------------------------------- silent clients

  /** The first `n` workers wait for their clients, the others are ready, nothing else is under way. */
  ghost predicate Parked(s: State, n: nat) {
    && n <= |s.workers| && (forall w: nat | w < n :: Waits(s, w))
    && (forall w: nat | n <= w < |s.workers| :: s.workers[w].Ready?)
    && s.queue == [] && !s.stop && !s.notifyAllDue && s.pendingNotify == 0 && s.jobs == [] && s.closed == []
    && |s.submitted| == n
  }

  lemma SubmitOne(c: Params, s: State, n: nat) returns (events: seq<Event>, t: State)
    requires Parked(s, n)
    ensures Run(c, s, events, t)
    ensures t == s.(queue := [7], submitted := s.submitted + [7])
  {
    var a := Apply(c, s, Push(7));
    forall w | 0 <= w < |s.workers| ensures !s.workers[w].Blocked? {
      if w < n { assert Waits(s, w); }
    }
    t := Apply(c, a, NotifyOne(None));
    RunThen(c, s, [], s, Push(7));
    RunThen(c, s, [] + [Push(7)], a, NotifyOne(None));
    events := [] + [Push(7)] + [NotifyOne(None)];
  }

  lemma {:induction false} ParkWorkers(c: Params, workers: nat, n: nat) returns (s: State)
    requires n <= workers
    ensures Reachable(c, workers, s) && |s.workers| == workers && Parked(s, n)
  {
    if n == 0 {
      s := Init(workers, 0);
      assert Run(c, s, [], s);
    } else {
      var a := ParkWorkers(c, workers, n - 1);
      var events, b := SubmitOne(c, a, n - 1);
      s := DoCheck(b, n - 1);
      RunThen(c, a, events, b, Check(n - 1));
      RunsReach(c, workers, a, events + [Check(n - 1)], s);
      forall w: nat | w < n ensures Waits(s, w) {
        if w < n - 1 { assert Waits(a, w); }
      }
    }
  }

  lemma ParkedIsStuck(s: State)
    requires (forall w: nat | w < |s.workers| :: Waits(s, w)) && s.jobs == []
    requires !s.notifyAllDue && s.pendingNotify == 0
    ensures Stuck(s)
  {
    forall e | Own(e) ensures !Enabled(s, e) {
      if Mover(e).Some? && Mover(e).value < |s.workers| { assert Waits(s, Mover(e).value); }
    }
  }

  /** As many silent clients as there are threads, and one client more, hold any pool for ever: it
      can do nothing more, running or stopped, nobody is served and no join returns. */
  lemma SilentClientsHoldThePool(c: Params, workers: nat) returns (running: State, stopped: State)
    ensures Reachable(c, workers, running) && !running.stop && |running.submitted| == workers + 1
    ensures Reachable(c, workers, stopped) && stopped.stop && stopped.stoppedAt == workers + 1
    ensures forall s | s in {running, stopped} ::
              Stuck(s) && s.queue != [] && (forall w: nat | w < workers :: Waits(s, w)) && forall k :: !Done(s, k)
  {
    var a := ParkWorkers(c, workers, workers);
    var events;
    events, running := SubmitOne(c, a, workers);
    RunsReach(c, workers, a, events, running);
    var b := Apply(c, running, Stop);
    stopped := Apply(c, b, NotifyAll);
    RunThen(c, a, events, running, Stop);
    RunThen(c, a, events + [Stop], b, NotifyAll);
    RunsReach(c, workers, a, events + [Stop] + [NotifyAll], stopped);
    forall w: nat | w < workers ensures Waits(running, w) && Waits(stopped, w) {
      assert Waits(a, w);
    }
    ParkedIsStuck(running);
    ParkedIsStuck(stopped);
  }

  // ---------------------------------------------------------------- when no client stays silent

  /** The pool can do nothing more, and no worker waits for its client. */
  ghost predicate AtRest(s: State) {
    Stuck(s) && NobodyWaits(s)
  }

  /** A running pool with a thread rests only with an empty queue, every submitted task closed exactly
      once, all workers waiting for a notification and no refresh open. */
  lemma RestMeansServed(c: Params, workers: nat, s: State)
    requires Reachable(c, workers, s) && workers > 0 && !s.stop && AtRest(s)
    ensures s.queue == [] && AllDone(s, |s.submitted|)
    ensures forall w | 0 <= w < |s.workers| :: s.workers[w].Blocked?
    ensures forall j | 0 <= j < |s.jobs| :: s.jobs[j].refresh.Finished?
  {
    ReachableInv(c, workers, s);
    ReachableUnderway(c, workers, s);
    StuckPool(s);
    RunningPoolServesExactly(c, workers, s);
    assert !Waits(s, 0);
  }

  /** A stopped pool rests only when all workers have exited and all refreshes ended. */
  lemma StoppedRestIsExit(c: Params, workers: nat, s: State)
    requires Reachable(c, workers, s) && s.stop && AtRest(s)
    ensures AllExited(s) && forall j | 0 <= j < |s.jobs| :: s.jobs[j].refresh.Finished?
  {
    StoppedPoolDrainsExactly(c, workers, s);
  }

  ghost predicate DrainsAtRest(c: Params, workers: nat) {
    forall s | Reachable(c, workers, s) && s.stop && AtRest(s) :: AllDone(s, s.stoppedAt)
  }

  ghost predicate DrainsRegardless(c: Params, workers: nat) {
    forall s | Reachable(c, workers, s) && s.stop && Stuck(s) :: AllDone(s, s.stoppedAt)
  }

  /** If no client stays silent, shutdown serves everything submitted before it exactly when the pool
      has a thread; the number of threads is the hardware concurrency, which the platform may report
      as zero. Whatever the clients do, no pool serves it always. */
  lemma DrainsExactlyWithAThread(c: Params, workers: nat)
    ensures DrainsAtRest(c, workers) <==> workers > 0
    ensures !DrainsRegardless(c, workers)
  {
    var running, stopped := SilentClientsHoldThePool(c, workers);
    assert stopped in {running, stopped} && !Done(stopped, 0);
    if workers > 0 {
      forall s | Reachable(c, workers, s) && s.stop && AtRest(s) ensures AllDone(s, s.stoppedAt) {
        StoppedPoolDrainsExactly(c, workers, s);
      }
    } else {
      ReachableInv(c, workers, stopped);
      assert AtRest(stopped);
    }
  }

  /** If every client sends or hangs up, a running pool with a thread comes to rest within a bounded
      number of steps, with every submitted task closed exactly once and all workers waiting for
      more. */
  lemma {:induction false} RunningPoolServesAll(c: Params, workers: nat, s: State)
    returns (events: seq<Event>, t: State)
    requires Reachable(c, workers, s) && workers > 0 && !s.stop
    ensures Run(c, s, events, t) && |events| <= Work(s) && forall e | e in events :: Working(e)
    ensures !t.stop && t.submitted == s.submitted && AtRest(t)
    ensures t.queue == [] && AllDone(t, |s.submitted|)
    ensures forall w | 0 <= w < |t.workers| :: t.workers[w].Blocked?
    decreases Work(s)
  {
    if AtRest(s) {
      RestMeansServed(c, workers, s);
      events, t := [], s;
    } else {
      ReachableInv(c, workers, s);
      var e := NextStep(s);
      var u := Apply(c, s, e);
      WorkingStep(c, s, e);
      RunsReach(c, workers, s, [e], u);
      var rest;
      rest, t := RunningPoolServesAll(c, workers, u);
      RunsCompose(c, s, [e], u, rest, t);
      events := [e] + rest;
    }
  }

  /** A step of the pool, or a client that hangs up. */
  lemma NextStep(s: State) returns (e: Event)
    requires !AtRest(s)
    ensures Working(e) && Enabled(s, e)
  {
    if w: nat :| Waits(s, w) {
      e := Receive(w, None);
    } else {
      e :| Own(e) && Enabled(s, e);
    }
  }

  /** If every client sends or hangs up, a stopped pool brings all joins to return within a bounded
      number of steps. */
  lemma {:induction false} ShutdownReachesExit(c: Params, workers: nat, s: State)
    returns (events: seq<Event>, t: State)
    requires Reachable(c, workers, s) && s.stop
    ensures Run(c, s, events, t) && |events| <= Measure(s) && forall e | e in events :: Working(e)
    ensures AllExited(t)
    decreases Measure(s)
  {
    if AtRest(s) {
      StoppedPoolDrainsExactly(c, workers, s);
      events, t := [], s;
    } else {
      var e := NextStep(s);
      var u := Apply(c, s, e);
      ReachableInv(c, workers, s);
      WorkingStep(c, s, e);
      RunsReach(c, workers, s, [e], u);
      var rest;
      rest, t := ShutdownReachesExit(c, workers, u);
      RunsCompose(c, s, [e], u, rest, t);
      events := [e] + rest;
    }
  }
}
