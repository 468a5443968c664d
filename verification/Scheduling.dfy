/** Which worker does what: queue order, exactly-once handling and wake-ups, over all runs. */
module Scheduling {
  import opened Options
  import opened Sums
  import opened ServerModel
  import BkkApi

  // ---------------------------------------------------------------- weights

  function BlockedWeight(p: Phase): nat { if p.Blocked? then 1 else 0 }
  function WokenWeight(p: Phase): nat { if p.Woken? then 1 else 0 }

  /** Weight 1 for a worker that handles the task with this ticket. */
  function Holds(ticket: nat): Phase -> nat {
    (p: Phase) => if p.Handling? && p.ticket == ticket then 1 else 0
  }

  /** Weight 1 for a worker that handles the task and has neither replied nor given up. */
  function Unanswered(ticket: nat): Phase -> nat {
    (p: Phase) => if p.Handling? && p.ticket == ticket && !p.handler.Closing? then 1 else 0
  }

  function Is(ticket: nat): nat -> nat {
    (x: nat) => if x == ticket then 1 else 0
  }

  function RepliesTo(ticket: nat): Reply -> nat {
    (r: Reply) => if r.ticket == ticket then 1 else 0
  }

  // ---------------------------------------------------------------- invariants

  /** The queue is what was submitted and not yet popped, in order; a worker serves the
      descriptor that was submitted under its ticket. */
  ghost predicate Fifo(s: State) {
    && s.taken <= |s.submitted|
    && s.queue == s.submitted[s.taken..]
    && forall w | 0 <= w < |s.workers| && s.workers[w].Handling? ::
         s.workers[w].ticket < s.taken && s.workers[w].fd == s.submitted[s.workers[w].ticket]
  }

  function PoppedWeight(s: State, ticket: nat): nat {
    if ticket < s.taken then 1 else 0
  }

  /** Conservation for one ticket: a popped task is held or closed, and it is unanswered,
      answered or dropped, each in exactly one way. */
  ghost predicate OnceFor(s: State, k: nat) {
    && Sum(s.workers, Holds(k)) + Sum(s.closed, Is(k)) == PoppedWeight(s, k)
    && Sum(s.workers, Unanswered(k)) + Sum(s.replies, RepliesTo(k)) + Sum(s.dropped, Is(k))
       == PoppedWeight(s, k)
  }

  ghost predicate Once(s: State) {
    forall k: nat :: OnceFor(s, k)
  }

  /** Nobody waits, or the queue is covered by notifications under way and by woken workers
      that have not looked at the queue yet. */
  ghost predicate Covered(s: State) {
    Sum(s.workers, BlockedWeight) == 0 || |s.queue| <= s.pendingNotify + Sum(s.workers, WokenWeight)
  }

  ghost predicate Stopping(s: State) {
    && (s.stop ==> s.stoppedAt <= |s.submitted|)
    && (s.notifyAllDue ==> s.stop)
    && (s.stop && !s.notifyAllDue ==> forall w | 0 <= w < |s.workers| :: !s.workers[w].Blocked?)
    && (forall w | 0 <= w < |s.workers| && s.workers[w].Exited? :: s.stop && s.stoppedAt <= s.taken)
  }

  // ---------------------------------------------------------------- one step

  ghost predicate SameQueue(s: State, t: State) {
    && t.queue == s.queue && t.submitted == s.submitted && t.taken == s.taken
    && t.stop == s.stop && t.stoppedAt == s.stoppedAt && t.notifyAllDue == s.notifyAllDue
  }

  ghost predicate SameLogs(s: State, t: State) {
    t.dropped == s.dropped && t.replies == s.replies && t.closed == s.closed
  }

  /** Worker `w` goes to phase `p`; no other worker moves. */
  ghost predicate Moves(s: State, t: State, w: nat, p: Phase) {
    w < |s.workers| && t.workers == s.workers[w := p]
  }

  /** Worker `w` goes on handling its task. */
  ghost predicate GoesOn(s: State, t: State, w: nat, h: Handler) {
    InHandler(s, w) && !s.workers[w].handler.Closing?
    && Moves(s, t, w, Handling(s.workers[w].ticket, s.workers[w].fd, h))
  }

  /** What a step does as far as scheduling is concerned: nothing here depends on clocks, caches
      or upstream answers. */
  ghost predicate Schedules(s: State, e: Event, t: State) {
    match e
    case Tick(_) => t.workers == s.workers && SameQueue(s, t) && SameLogs(s, t) && t.pendingNotify == s.pendingNotify
    case AdvanceJob(_, _) =>
      t.workers == s.workers && SameQueue(s, t) && SameLogs(s, t) && t.pendingNotify == s.pendingNotify
    case Push(fd) =>
      t == s.(queue := s.queue + [fd], submitted := s.submitted + [fd], pendingNotify := s.pendingNotify + 1)
    case NotifyOne(target) =>
      && SameQueue(s, t) && SameLogs(s, t) && t.pendingNotify == s.pendingNotify - 1
      && (match target
          case None => t.workers == s.workers && forall w | 0 <= w < |s.workers| :: !s.workers[w].Blocked?
          case Some(w) => Moves(s, t, w, Woken) && s.workers[w].Blocked?)
    case SpuriousWake(w) =>
      && SameQueue(s, t) && SameLogs(s, t) && t.pendingNotify == s.pendingNotify
      && Moves(s, t, w, Woken) && s.workers[w].Blocked?
    case Check(w) =>
      && w < |s.workers| && (s.workers[w].Ready? || s.workers[w].Woken?)
      && SameLogs(s, t) && t.pendingNotify == s.pendingNotify
      && (match Decide(s.queue, s.stop)
          case Sleep => Moves(s, t, w, Blocked) && SameQueue(s, t)
          case Leave => Moves(s, t, w, Exited) && SameQueue(s, t)
          case Take => Moves(s, t, w, Handling(s.taken, s.queue[0], Receiving))
                       && SameQueue(s.(queue := s.queue[1..], taken := s.taken + 1), t))
    case Receive(w, message) =>
      && SameQueue(s, t) && t.replies == s.replies && t.closed == s.closed && t.pendingNotify == s.pendingNotify
      && InHandler(s, w) && s.workers[w].handler.Receiving?
      && (match message
          case None => GoesOn(s, t, w, Closing) && t.dropped == s.dropped + [s.workers[w].ticket]
          case Some(request) => GoesOn(s, t, w, Looking(request)) && t.dropped == s.dropped)
    case LookUp(w) =>
      SameQueue(s, t) && SameLogs(s, t) && t.pendingNotify == s.pendingNotify && ContinuesUnanswered(s, t, w)
    case Advance(w, _) =>
      SameQueue(s, t) && SameLogs(s, t) && t.pendingNotify == s.pendingNotify && ContinuesUnanswered(s, t, w)
    case Send(w) =>
      && SameQueue(s, t) && t.dropped == s.dropped && t.closed == s.closed && t.pendingNotify == s.pendingNotify
      && GoesOn(s, t, w, Closing) && s.workers[w].handler.Replying?
      && |t.replies| == |s.replies| + 1 && t.replies == s.replies + [t.replies[|s.replies|]]
      && t.replies[|s.replies|].ticket == s.workers[w].ticket
    case Close(w) =>
      && SameQueue(s, t) && t.dropped == s.dropped && t.replies == s.replies && t.pendingNotify == s.pendingNotify
      && InHandler(s, w) && s.workers[w].handler.Closing? && Moves(s, t, w, Ready)
      && t.closed == s.closed + [s.workers[w].ticket]
    case Stop => !s.stop && t == s.(stop := true, notifyAllDue := true, stoppedAt := |s.submitted|)
    case NotifyAll => s.notifyAllDue && t == s.(notifyAllDue := false, workers := WakeAll(s.workers))
  }

  ghost predicate ContinuesUnanswered(s: State, t: State, w: nat) {
    && InHandler(s, w) && w < |t.workers| && t.workers[w].Handling? && !t.workers[w].handler.Closing?
    && GoesOn(s, t, w, t.workers[w].handler)
  }

  lemma LookUpSchedules(c: Params, s: State, w: nat)
    requires Enabled(s, LookUp(w))
    ensures Schedules(s, LookUp(w), DoLookUp(c, s, w))
  {
  }

  lemma AdvanceSchedules(c: Params, s: State, w: nat, transport: BkkApi.Transport)
    requires Enabled(s, Advance(w, transport))
    ensures Schedules(s, Advance(w, transport), DoAdvance(c, s, w, transport))
  {
  }

  lemma CheckSchedules(s: State, w: nat)
    requires Enabled(s, Check(w))
    ensures Schedules(s, Check(w), DoCheck(s, w))
  {
  }

  lemma StepsSchedule(c: Params, s: State, e: Event)
    requires Enabled(s, e)
    ensures Schedules(s, e, Apply(c, s, e))
  {
    match e {
      case LookUp(w) => LookUpSchedules(c, s, w);
      case Advance(w, transport) => AdvanceSchedules(c, s, w, transport);
      case Check(w) => CheckSchedules(s, w);
      case _ =>
    }
  }

  lemma {:induction false} WakeAllKeepsSum(workers: seq<Phase>, f: Phase -> nat)
    requires f(Blocked) == f(Woken)
    ensures Sum(WakeAll(workers), f) == Sum(workers, f)
  {
    if workers != [] {
      WakeAllKeepsSum(workers[1..], f);
    }
  }

  /** The worker whose phase a step changes, if it is a single one. */
  function Mover(e: Event): Option<nat> {
    match e
    case NotifyOne(target) => target
    case SpuriousWake(w) => Some(w)
    case Check(w) => Some(w)
    case Receive(w, _) => Some(w)
    case LookUp(w) => Some(w)
    case Advance(w, _) => Some(w)
    case Send(w) => Some(w)
    case Close(w) => Some(w)
    case _ => None
  }

  ghost predicate OnlyMover(s: State, e: Event, t: State) {
    match Mover(e)
    case Some(w) => w < |s.workers| == |t.workers| && t.workers == s.workers[w := t.workers[w]]
    case None => t.workers == if e == NotifyAll then WakeAll(s.workers) else s.workers
  }

  lemma WorkersStep(s: State, e: Event, t: State)
    requires Schedules(s, e, t)
    ensures |t.workers| == |s.workers| && OnlyMover(s, e, t)
  {
  }

  lemma WeightStep(s: State, e: Event, t: State, f: Phase -> nat)
    requires Schedules(s, e, t)
    ensures match Mover(e)
            case Some(w) => w < |s.workers| == |t.workers|
                            && Sum(t.workers, f) + f(s.workers[w]) == Sum(s.workers, f) + f(t.workers[w])
            case None => e != NotifyAll ==> t.workers == s.workers
  {
    WorkersStep(s, e, t);
    if Mover(e).Some? {
      SumUpdate(s.workers, Mover(e).value, t.workers[Mover(e).value], f);
    }
  }

  lemma FifoStep(s: State, e: Event, t: State)
    requires Fifo(s) && Schedules(s, e, t)
    ensures Fifo(t)
  {
    WorkersStep(s, e, t);
    if e.Check? && Decide(s.queue, s.stop) == Take {
      assert s.submitted[s.taken..][1..] == s.submitted[s.taken + 1..];
    } else if e.Push? {
      assert (s.submitted + [e.fd])[s.taken..] == s.submitted[s.taken..] + [e.fd];
    }
  }

  lemma HeldStep(s: State, e: Event, t: State, k: nat)
    requires OnceFor(s, k) && Schedules(s, e, t)
    ensures Sum(t.workers, Holds(k)) + Sum(t.closed, Is(k)) == PoppedWeight(t, k)
  {
    WeightStep(s, e, t, Holds(k));
    match e {
      case NotifyAll => WakeAllKeepsSum(s.workers, Holds(k));
      case Close(w) => SumAppend(s.closed, s.workers[w].ticket, Is(k));
      case _ =>
    }
  }

  lemma AnsweredStep(s: State, e: Event, t: State, k: nat)
    requires OnceFor(s, k) && Schedules(s, e, t)
    ensures Sum(t.workers, Unanswered(k)) + Sum(t.replies, RepliesTo(k)) + Sum(t.dropped, Is(k))
         == PoppedWeight(t, k)
  {
    WeightStep(s, e, t, Unanswered(k));
    match e {
      case NotifyAll => WakeAllKeepsSum(s.workers, Unanswered(k));
      case Receive(w, _) => SumAppend(s.dropped, s.workers[w].ticket, Is(k));
      case Send(w) => SumAppend(s.replies, t.replies[|s.replies|], RepliesTo(k));
      case _ =>
    }
  }

  lemma CoveredStep(s: State, e: Event, t: State)
    requires Covered(s) && Schedules(s, e, t)
    ensures Covered(t)
  {
    WeightStep(s, e, t, BlockedWeight);
    WeightStep(s, e, t, WokenWeight);
    if e == NotifyAll {
      SumZero(WakeAll(s.workers), BlockedWeight);
    } else if e.NotifyOne? {
      SumZero(s.workers, BlockedWeight);
    }
  }

  lemma StoppingStep(s: State, e: Event, t: State)
    requires Stopping(s) && Fifo(s) && Schedules(s, e, t)
    ensures Stopping(t)
  {
  }

  // ---------------------------------------------------------------- all runs

  ghost predicate Inv(s: State) {
    Fifo(s) && Once(s) && Covered(s) && Stopping(s)
  }

  lemma InvStep(s: State, e: Event, t: State)
    requires Inv(s) && Schedules(s, e, t)
    ensures Inv(t) && |t.workers| == |s.workers|
  {
    WorkersStep(s, e, t);
    FifoStep(s, e, t);
    forall k: nat ensures OnceFor(t, k) {
      HeldStep(s, e, t, k);
      AnsweredStep(s, e, t, k);
    }
    CoveredStep(s, e, t);
    StoppingStep(s, e, t);
  }

  lemma InitInv(workers: nat, start: int)
    ensures Inv(Init(workers, start))
  {
    var s := Init(workers, start);
    SumConst(s.workers, BlockedWeight, 0);
    forall k: nat ensures OnceFor(s, k) {
      SumConst(s.workers, Holds(k), 0);
      SumConst(s.workers, Unanswered(k), 0);
    }
  }

  lemma {:induction false} RunInv(c: Params, s: State, events: seq<Event>, t: State)
    requires Inv(s) && Run(c, s, events, t)
    ensures Inv(t) && |t.workers| == |s.workers|
    decreases |events|
  {
    if events != [] {
      StepsSchedule(c, s, events[0]);
      InvStep(s, events[0], Apply(c, s, events[0]));
      RunInv(c, Apply(c, s, events[0]), events[1..], t);
    }
  }

  lemma ReachableInv(c: Params, workers: nat, s: State)
    requires Reachable(c, workers, s)
    ensures Inv(s) && |s.workers| == workers
  {
    var start, events :| Run(c, Init(workers, start), events, s);
    InitInv(workers, start);
    RunInv(c, Init(workers, start), events, s);
  }

  // ---------------------------------------------------------------- theorems

  /** Tasks leave the queue in the order of their submission, and each worker serves the
      descriptor submitted under the ticket it popped. */
  lemma TasksAreServedInOrder(c: Params, workers: nat, s: State)
    requires Reachable(c, workers, s)
    ensures s.taken <= |s.submitted| && s.submitted == s.submitted[..s.taken] + s.queue
    ensures forall w | 0 <= w < |s.workers| && s.workers[w].Handling? ::
              s.workers[w].ticket < s.taken && s.workers[w].fd == s.submitted[s.workers[w].ticket]
  {
    ReachableInv(c, workers, s);
  }

  predicate Holding(s: State, w: int, ticket: nat) {
    0 <= w < |s.workers| && s.workers[w].Handling? && s.workers[w].ticket == ticket
  }

  /** The three situations of a submitted task. */
  ghost predicate Queued(s: State, k: nat) {
    && s.taken <= k < |s.submitted| && k - s.taken < |s.queue| && s.queue[k - s.taken] == s.submitted[k]
    && (forall w :: !Holding(s, w, k)) && k !in multiset(s.closed)
  }

  ghost predicate InHand(s: State, k: nat) {
    && k < s.taken && k !in multiset(s.closed)
    && exists w :: Holding(s, w, k) && forall v | Holding(s, v, k) :: v == w
  }

  ghost predicate Done(s: State, k: nat) {
    k < s.taken && (forall w :: !Holding(s, w, k)) && multiset(s.closed)[k] == 1
  }

  lemma {:induction false} SumIsMultiplicity(log: seq<nat>, k: nat)
    ensures Sum(log, Is(k)) == multiset(log)[k]
  {
    if log != [] {
      SumIsMultiplicity(log[1..], k);
      assert log == [log[0]] + log[1..];
    }
  }

  lemma HolderCount(s: State, k: nat)
    ensures Sum(s.workers, Holds(k)) == 0 <==> forall w :: !Holding(s, w, k)
    ensures Sum(s.workers, Holds(k)) == 1 ==> exists w :: Holding(s, w, k) && forall v | Holding(s, v, k) :: v == w
  {
    SumZero(s.workers, Holds(k));
    if Sum(s.workers, Holds(k)) == 0 {
      forall w ensures !Holding(s, w, k) {
        if 0 <= w < |s.workers| { assert Holds(k)(s.workers[w]) == 0; }
      }
    } else {
      var w := SumPositive(s.workers, Holds(k));
      assert Holding(s, w, k);
      if Sum(s.workers, Holds(k)) == 1 {
        forall v | Holding(s, v, k) ensures v == w {
          if v < w { SumAtLeastTwo(s.workers, v, w, Holds(k)); }
          if w < v { SumAtLeastTwo(s.workers, w, v, Holds(k)); }
        }
      }
    }
  }

  /** Every submitted task is queued, in the hands of exactly one worker, or closed exactly once.
      It is answered at most once, never answered when its request came short, and a closed task
      was either answered or dropped. */
  lemma ExactlyOnce(c: Params, workers: nat, s: State, k: nat)
    requires Reachable(c, workers, s) && k < |s.submitted|
    ensures Queued(s, k) || InHand(s, k) || Done(s, k)
    ensures Sum(s.replies, RepliesTo(k)) + multiset(s.dropped)[k] <= 1
    ensures Done(s, k) ==> Sum(s.replies, RepliesTo(k)) + multiset(s.dropped)[k] == 1
  {
    ReachableInv(c, workers, s);
    assert OnceFor(s, k);
    SumIsMultiplicity(s.closed, k);
    SumIsMultiplicity(s.dropped, k);
    HolderCount(s, k);
    if Done(s, k) {
      SumZero(s.workers, Holds(k));
      forall w | 0 <= w < |s.workers| ensures Unanswered(k)(s.workers[w]) == 0 {
        assert Holds(k)(s.workers[w]) == 0;
      }
      SumZero(s.workers, Unanswered(k));
    }
  }

  /** No lost wake-up: while a worker is blocked, the queue never outgrows the notifications under
      way plus the woken workers that have yet to look; so a task is never left to a pool in which
      all sleep and nothing is pending. */
  lemma NoLostWakeUp(c: Params, workers: nat, s: State)
    requires Reachable(c, workers, s)
    ensures (exists w :: 0 <= w < |s.workers| && s.workers[w].Blocked?)
        ==> |s.queue| <= s.pendingNotify + Sum(s.workers, WokenWeight)
    ensures workers > 0 && s.queue != [] && s.pendingNotify == 0
        ==> exists w :: 0 <= w < |s.workers| && !s.workers[w].Blocked?
    ensures s.stop && !s.notifyAllDue ==> forall w | 0 <= w < |s.workers| :: !s.workers[w].Blocked?
  {
    ReachableInv(c, workers, s);
    SumZero(s.workers, BlockedWeight);
    if w :| 0 <= w < |s.workers| && s.workers[w].Blocked? {
      SumAtLeast(s.workers, w, BlockedWeight);
      if s.queue != [] && s.pendingNotify == 0 {
        var v := SumPositive(s.workers, WokenWeight);
        assert !s.workers[v].Blocked?;
      }
    } else if workers > 0 {
      assert !s.workers[0].Blocked?;
    }
  }
}
