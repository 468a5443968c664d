/** One receipt and one lookup for each task, and every reply comes from the lookup of its task. */
module Tickets {
  import opened Options
  import opened Sums
  import opened ServerModel
  import opened Scheduling
  import BkkApi

  // ---------------------------------------------------------------- one receipt, one lookup

  function ReceiptFor(ticket: nat): Receipt -> nat {
    (r: Receipt) => if r.ticket == ticket then 1 else 0
  }

  function LookupFor(ticket: nat): LookupRecord -> nat {
    (l: LookupRecord) => if l.ticket == ticket then 1 else 0
  }

  /** Weight 1 for a worker that has still to receive the request of the task. */
  function ToReceive(ticket: nat): Phase -> nat {
    (p: Phase) => if p.Handling? && p.ticket == ticket && p.handler.Receiving? then 1 else 0
  }

  /** Weight 1 for a worker that has still to look it up. */
  function ToLookUp(ticket: nat): Phase -> nat {
    (p: Phase) => if p.Handling? && p.ticket == ticket && (p.handler.Receiving? || p.handler.Looking?) then 1 else 0
  }

  /** A popped task is received, looked up or dropped, or all that is still to come. */
  ghost predicate OnceEach(s: State, k: nat) {
    && Sum(s.received, ReceiptFor(k)) + Sum(s.workers, ToReceive(k)) + Sum(s.dropped, Is(k)) == PoppedWeight(s, k)
    && Sum(s.lookups, LookupFor(k)) + Sum(s.workers, ToLookUp(k)) + Sum(s.dropped, Is(k)) == PoppedWeight(s, k)
  }

  lemma DropOnce(c: Params, s: State, w: nat, k: nat)
    requires OnceEach(s, k) && Enabled(s, Receive(w, None))
    ensures OnceEach(Apply(c, s, Receive(w, None)), k)
  {
    var t := Apply(c, s, Receive(w, None));
    SumUpdate(s.workers, w, t.workers[w], ToReceive(k));
    SumUpdate(s.workers, w, t.workers[w], ToLookUp(k));
    SumAppend(s.dropped, s.workers[w].ticket, Is(k));
  }

  lemma ReceiveOnce(c: Params, s: State, w: nat, request: Request, k: nat)
    requires OnceEach(s, k) && Enabled(s, Receive(w, Some(request)))
    ensures OnceEach(Apply(c, s, Receive(w, Some(request))), k)
  {
    var t := Apply(c, s, Receive(w, Some(request)));
    SumUpdate(s.workers, w, t.workers[w], ToReceive(k));
    SumUpdate(s.workers, w, t.workers[w], ToLookUp(k));
    SumAppend(s.received, Receipt(s.workers[w].ticket, request), ReceiptFor(k));
  }

  lemma LookUpOnce(c: Params, s: State, w: nat, k: nat)
    requires OnceEach(s, k) && Enabled(s, LookUp(w))
    ensures OnceEach(DoLookUp(c, s, w), k)
  {
    var t := DoLookUp(c, s, w);
    LookUpLogs(c, s, w);
    SumUpdate(s.workers, w, t.workers[w], ToReceive(k));
    SumUpdate(s.workers, w, t.workers[w], ToLookUp(k));
    SumAppend(s.lookups, t.lookups[|s.lookups|], LookupFor(k));
  }

  lemma LookUpLogs(c: Params, s: State, w: nat)
    requires Enabled(s, LookUp(w))
    ensures var t, p := DoLookUp(c, s, w), s.workers[w];
            && |t.lookups| == |s.lookups| + 1 && t.lookups == s.lookups + [t.lookups[|s.lookups|]]
            && t.lookups[|s.lookups|].ticket == p.ticket
            && t.received == s.received && t.dropped == s.dropped && t.replies == s.replies && t.taken == s.taken
            && t.workers == s.workers[w := t.workers[w]] && t.workers[w].Handling? && t.workers[w].ticket == p.ticket
            && (t.workers[w].handler.Replying? || t.workers[w].handler.Refreshing?)
  {
  }

  /** A worker that takes the task takes over its weight. */
  lemma CheckWeight(s: State, w: nat, k: nat, f: Phase -> nat)
    requires Enabled(s, Check(w)) && f(s.workers[w]) == 0 && f(Blocked) == 0 && f(Exited) == 0
    requires forall fd :: f(Handling(s.taken, fd, Receiving)) == if s.taken == k then 1 else 0
    ensures Sum(DoCheck(s, w).workers, f) + PoppedWeight(s, k) == Sum(s.workers, f) + PoppedWeight(DoCheck(s, w), k)
  {
    SumUpdate(s.workers, w, DoCheck(s, w).workers[w], f);
  }

  lemma CheckOnce(s: State, w: nat, k: nat)
    requires OnceEach(s, k) && Enabled(s, Check(w))
    ensures OnceEach(DoCheck(s, w), k)
  {
    CheckWeight(s, w, k, ToReceive(k));
    CheckWeight(s, w, k, ToLookUp(k));
  }

  /** The other steps neither receive nor look up. */
  lemma OthersKeepWeights(c: Params, s: State, e: Event, k: nat)
    requires Enabled(s, e) && !e.Receive? && !e.LookUp? && !e.Check? && !e.Advance?
    ensures var t := Apply(c, s, e);
            && t.received == s.received && t.lookups == s.lookups && t.dropped == s.dropped && t.taken == s.taken
            && |t.workers| == |s.workers|
            && (forall w | 0 <= w < |s.workers| :: ToReceive(k)(t.workers[w]) == ToReceive(k)(s.workers[w]))
            && (forall w | 0 <= w < |s.workers| :: ToLookUp(k)(t.workers[w]) == ToLookUp(k)(s.workers[w]))
  {
  }

  lemma AdvanceOnce(c: Params, s: State, w: nat, transport: BkkApi.Transport, k: nat)
    requires OnceEach(s, k) && Enabled(s, Advance(w, transport))
    ensures OnceEach(DoAdvance(c, s, w, transport), k)
  {
    var t := DoAdvance(c, s, w, transport);
    SumUpdate(s.workers, w, t.workers[w], ToReceive(k));
    SumUpdate(s.workers, w, t.workers[w], ToLookUp(k));
  }

  lemma OtherOnce(c: Params, s: State, e: Event, k: nat)
    requires OnceEach(s, k) && Enabled(s, e) && !e.Receive? && !e.LookUp? && !e.Check? && !e.Advance?
    ensures OnceEach(Apply(c, s, e), k)
  {
    OthersKeepWeights(c, s, e, k);
    SumsAgree(s.workers, Apply(c, s, e).workers, ToReceive(k));
    SumsAgree(s.workers, Apply(c, s, e).workers, ToLookUp(k));
  }

  lemma StepOnce(c: Params, s: State, e: Event, k: nat)
    requires OnceEach(s, k) && Enabled(s, e)
    ensures OnceEach(Apply(c, s, e), k)
  {
    match e {
      case Receive(w, None) => DropOnce(c, s, w, k);
      case Receive(w, Some(request)) => ReceiveOnce(c, s, w, request, k);
      case LookUp(w) => LookUpOnce(c, s, w, k);
      case Check(w) => CheckOnce(s, w, k);
      case Advance(w, transport) => AdvanceOnce(c, s, w, transport, k);
      case _ => OtherOnce(c, s, e, k);
    }
  }

  lemma {:induction false} RunOnce(c: Params, s: State, events: seq<Event>, t: State, k: nat)
    requires OnceEach(s, k) && Run(c, s, events, t)
    ensures OnceEach(t, k)
    decreases |events|
  {
    if events != [] {
      StepOnce(c, s, events[0], k);
      RunOnce(c, Apply(c, s, events[0]), events[1..], t, k);
    }
  }

  lemma ReachableOnce(c: Params, workers: nat, s: State, k: nat)
    requires Reachable(c, workers, s)
    ensures OnceEach(s, k)
  {
    var start, events :| Run(c, Init(workers, start), events, s);
    SumConst(Init(workers, start).workers, ToReceive(k), 0);
    SumConst(Init(workers, start).workers, ToLookUp(k), 0);
    RunOnce(c, Init(workers, start), events, s, k);
  }

  ghost predicate OneReceiptEach(received: seq<Receipt>) {
    forall i, j | 0 <= i < j < |received| :: received[i].ticket != received[j].ticket
  }

  ghost predicate OneLookupEach(lookups: seq<LookupRecord>) {
    forall i, j | 0 <= i < j < |lookups| :: lookups[i].ticket != lookups[j].ticket
  }

  /** In every run a task is received at most once and looked up at most once, and neither if its
      request came short. */
  lemma ReceivedAndLookedUpOnce(c: Params, workers: nat, s: State)
    requires Reachable(c, workers, s)
    ensures OneReceiptEach(s.received) && OneLookupEach(s.lookups)
    ensures forall i | 0 <= i < |s.received| :: s.received[i].ticket !in s.dropped
    ensures forall i | 0 <= i < |s.lookups| :: s.lookups[i].ticket !in s.dropped
  {
    forall i, j | 0 <= i < j < |s.received| ensures s.received[i].ticket != s.received[j].ticket {
      ReachableOnce(c, workers, s, s.received[i].ticket);
      SumAtLeastTwo(s.received, i, j, ReceiptFor(s.received[i].ticket));
    }
    forall i, j | 0 <= i < j < |s.lookups| ensures s.lookups[i].ticket != s.lookups[j].ticket {
      ReachableOnce(c, workers, s, s.lookups[i].ticket);
      SumAtLeastTwo(s.lookups, i, j, LookupFor(s.lookups[i].ticket));
    }
    forall i | 0 <= i < |s.received| ensures s.received[i].ticket !in s.dropped {
      ReachableOnce(c, workers, s, s.received[i].ticket);
      SumAtLeast(s.received, i, ReceiptFor(s.received[i].ticket));
      SumIsMultiplicity(s.dropped, s.received[i].ticket);
    }
    forall i | 0 <= i < |s.lookups| ensures s.lookups[i].ticket !in s.dropped {
      ReachableOnce(c, workers, s, s.lookups[i].ticket);
      SumAtLeast(s.lookups, i, LookupFor(s.lookups[i].ticket));
      SumIsMultiplicity(s.dropped, s.lookups[i].ticket);
    }
  }

  // ---------------------------------------------------------------- replies come from lookups

  /** A lookup that leads to such a reply: a hit at the reported reading, or a miss that was fetched. */
  predicate Answers(l: LookupRecord, ticket: nat, request: Request, source: Source) {
    && l.ticket == ticket && l.request == request
    && (match source
        case FromCache(found, at) => l.found == found && l.at == at
        case FromFetch(_, _) => l.found.Miss?)
  }

  ghost predicate Answered(lookups: seq<LookupRecord>, ticket: nat, request: Request, source: Source) {
    exists i :: 0 <= i < |lookups| && Answers(lookups[i], ticket, request, source)
  }

  /** What will be the source of the reply, as far as lookups are concerned. */
  const FETCHED := FromFetch(BkkApi.Ok, [])

  ghost predicate Behind(lookups: seq<LookupRecord>, p: Phase) {
    p.Handling? ==>
      match p.handler
      case Refreshing(request, _) => Answered(lookups, p.ticket, request, FETCHED)
      case Replying(request, _, source) => Answered(lookups, p.ticket, request, source)
      case _ => true
  }

  ghost predicate AllAnswered(s: State) {
    && (forall w | 0 <= w < |s.workers| :: Behind(s.lookups, s.workers[w]))
    && (forall i | 0 <= i < |s.replies| ::
          Answered(s.lookups, s.replies[i].ticket, s.replies[i].request, s.replies[i].source))
  }

  lemma LaterFetch(lookups: seq<LookupRecord>, ticket: nat, request: Request, source: Source)
    requires Answered(lookups, ticket, request, FETCHED) && source.FromFetch?
    ensures Answered(lookups, ticket, request, source)
  {
    var i :| 0 <= i < |lookups| && Answers(lookups[i], ticket, request, FETCHED);
    assert Answers(lookups[i], ticket, request, source);
  }

  lemma AnsweredGrows(lookups: seq<LookupRecord>, l: LookupRecord, ticket: nat, request: Request, source: Source)
    requires Answered(lookups, ticket, request, source)
    ensures Answered(lookups + [l], ticket, request, source)
  {
    var i :| 0 <= i < |lookups| && Answers(lookups[i], ticket, request, source);
    assert (lookups + [l])[i] == lookups[i];
  }

  lemma BehindGrows(lookups: seq<LookupRecord>, l: LookupRecord, p: Phase)
    requires Behind(lookups, p)
    ensures Behind(lookups + [l], p)
  {
    if p.Handling? && p.handler.Refreshing? {
      AnsweredGrows(lookups, l, p.ticket, p.handler.request, FETCHED);
    } else if p.Handling? && p.handler.Replying? {
      AnsweredGrows(lookups, l, p.ticket, p.handler.request, p.handler.source);
    }
  }

  lemma LookUpBehind(c: Params, s: State, w: nat)
    requires Enabled(s, LookUp(w))
    ensures var t := DoLookUp(c, s, w);
            && t.lookups == s.lookups + [t.lookups[|s.lookups|]] && t.replies == s.replies
            && t.workers == s.workers[w := t.workers[w]] && Behind(t.lookups, t.workers[w])
  {
    var t := DoLookUp(c, s, w);
    var request := s.workers[w].handler.request;
    var l := t.lookups[|s.lookups|];
    if l.found.Miss? {
      assert Answers(l, s.workers[w].ticket, request, FETCHED);
    } else {
      assert Answers(l, s.workers[w].ticket, request, FromCache(l.found, l.at));
    }
  }

  lemma LookUpAnswered(c: Params, s: State, w: nat)
    requires AllAnswered(s) && Enabled(s, LookUp(w))
    ensures AllAnswered(DoLookUp(c, s, w))
  {
    var t := DoLookUp(c, s, w);
    LookUpBehind(c, s, w);
    var l := t.lookups[|s.lookups|];
    forall v | 0 <= v < |t.workers| ensures Behind(t.lookups, t.workers[v]) {
      if v != w { BehindGrows(s.lookups, l, s.workers[v]); }
    }
    forall i | 0 <= i < |t.replies|
      ensures Answered(t.lookups, t.replies[i].ticket, t.replies[i].request, t.replies[i].source)
    {
      AnsweredGrows(s.lookups, l, s.replies[i].ticket, s.replies[i].request, s.replies[i].source);
    }
  }

  lemma AdvanceAnswered(c: Params, s: State, w: nat, transport: BkkApi.Transport)
    requires AllAnswered(s) && Enabled(s, Advance(w, transport))
    ensures AllAnswered(DoAdvance(c, s, w, transport))
  {
    var p, t := s.workers[w], DoAdvance(c, s, w, transport);
    assert Behind(s.lookups, p);
    assert t.lookups == s.lookups && t.replies == s.replies && t.workers == s.workers[w := t.workers[w]];
    if t.workers[w].handler.Replying? {
      LaterFetch(s.lookups, p.ticket, p.handler.request, t.workers[w].handler.source);
    }
  }

  lemma SendAnswered(c: Params, s: State, w: nat)
    requires AllAnswered(s) && Enabled(s, Send(w))
    ensures AllAnswered(Apply(c, s, Send(w)))
  {
    assert Behind(s.lookups, s.workers[w]);
  }

  lemma OtherAnswered(c: Params, s: State, e: Event)
    requires AllAnswered(s) && Enabled(s, e) && !e.LookUp? && !e.Advance? && !e.Send?
    ensures AllAnswered(Apply(c, s, e))
  {
    var t := Apply(c, s, e);
    assert t.lookups == s.lookups && t.replies == s.replies && |t.workers| == |s.workers|;
    forall w | 0 <= w < |t.workers| ensures Behind(t.lookups, t.workers[w]) {
      assert Behind(s.lookups, s.workers[w]);
      assert t.workers[w] == s.workers[w] || !t.workers[w].Handling?
          || (!t.workers[w].handler.Refreshing? && !t.workers[w].handler.Replying?);
    }
  }

  lemma {:induction false} RunAnswered(c: Params, s: State, events: seq<Event>, t: State)
    requires AllAnswered(s) && Run(c, s, events, t)
    ensures AllAnswered(t)
    decreases |events|
  {
    if events != [] {
      match events[0] {
        case LookUp(w) => LookUpAnswered(c, s, w);
        case Advance(w, transport) => AdvanceAnswered(c, s, w, transport);
        case Send(w) => SendAnswered(c, s, w);
        case _ => OtherAnswered(c, s, events[0]);
      }
      RunAnswered(c, Apply(c, s, events[0]), events[1..], t);
    }
  }

  /** Lookup `j` is the only one of its task, and it leads to this reply. */
  ghost predicate IsLookupOf(lookups: seq<LookupRecord>, j: int, r: Reply) {
    && 0 <= j < |lookups| && Answers(lookups[j], r.ticket, r.request, r.source)
    && forall i | 0 <= i < |lookups| && lookups[i].ticket == r.ticket :: i == j
  }

  /** Every reply ever sent comes from the one lookup of its task: a cached reply shows what that
      lookup found at its clock reading, and a fetched reply follows a miss. */
  lemma RepliesComeFromLookups(c: Params, workers: nat, s: State, i: nat) returns (j: nat)
    requires Reachable(c, workers, s) && i < |s.replies|
    ensures IsLookupOf(s.lookups, j, s.replies[i])
  {
    var start, events :| Run(c, Init(workers, start), events, s);
    RunAnswered(c, Init(workers, start), events, s);
    ReceivedAndLookedUpOnce(c, workers, s);
    var r := s.replies[i];
    assert Answered(s.lookups, r.ticket, r.request, r.source);
    j :| 0 <= j < |s.lookups| && Answers(s.lookups[j], r.ticket, r.request, r.source);
  }
}
