/** The bounded queue of usage events, its workers, and the drain on shutdown. */
module WorkerPool {
  import opened Gathering

  datatype UsageEvent = UsageEvent(customerId: string, subscriptionItemId: string, quantity: int)

  /** `passed`: ProcessUsage has handed the event on and is about to return nil. */
  datatype Worker =
    | Ready
    | Draining
    | Busy(event: UsageEvent, draining: bool, passed: bool)
    | Exited

  /**
    `accepted`, `taken` and `late` are history: the events Submit took, those workers
    took from the queue, and those accepted when every worker had already exited.
  */
  datatype State = State(
    capacity: nat,
    queue: seq<UsageEvent>,
    workers: seq<Worker>,
    cancelled: bool,
    processed: seq<UsageEvent>,
    errored: seq<UsageEvent>,
    accepted: seq<UsageEvent>,
    taken: seq<UsageEvent>,
    late: seq<UsageEvent>)

  datatype Event =
    | Submit(event: UsageEvent)
    | Take(w: nat)        // receive from the channel, before or while draining
    | SeeCancel(w: nat)   // the select picks the done channel
    | Quit(w: nat)        // nothing left to drain
    | Pass(w: nat)
    | Return(w: nat)
    | Cancel

  function Init(workers: nat, capacity: nat): State {
    State(capacity, [], seq(workers, _ => Ready), false, [], [], [], [], [])
  }

  predicate AllExited(s: State) {
    forall w :: 0 <= w < |s.workers| ==> s.workers[w].Exited?
  }

  predicate Enabled(s: State, e: Event) {
    match e
    case Submit(_) => true
    case Take(w) => w < |s.workers| && (s.workers[w].Ready? || s.workers[w].Draining?) && s.queue != []
    case SeeCancel(w) => w < |s.workers| && s.workers[w].Ready? && s.cancelled
    case Quit(w) => w < |s.workers| && s.workers[w].Draining? && s.queue == []
    case Pass(w) => w < |s.workers| && s.workers[w].Busy? && !s.workers[w].passed
    case Return(w) => w < |s.workers| && s.workers[w].Busy?
    case Cancel => !s.cancelled
  }

  function Apply(s: State, e: Event): State
    requires Enabled(s, e)
  {
    match e
    case Submit(event) =>
      if |s.queue| < s.capacity then
        s.(queue := s.queue + [event], accepted := s.accepted + [event],
           late := if AllExited(s) then s.late + [event] else s.late)
      else s
    case Take(w) =>
      s.(queue := s.queue[1..], taken := s.taken + [s.queue[0]],
         workers := s.workers[w := Busy(s.queue[0], s.workers[w].Draining?, false)])
    case SeeCancel(w) => s.(workers := s.workers[w := Draining])
    case Quit(w) => s.(workers := s.workers[w := Exited])
    case Pass(w) => s.(workers := s.workers[w := s.workers[w].(passed := true)])
    case Return(w) =>
      var worker := s.workers[w];
      s.(workers := s.workers[w := if worker.draining then Draining else Ready],
         processed := if worker.passed then s.processed + [worker.event] else s.processed,
         errored := if worker.passed then s.errored else s.errored + [worker.event])
    case Cancel => s.(cancelled := true)
  }

  predicate Legal(s: State, events: seq<Event>)
    decreases |events|
  {
    events == [] || (Enabled(s, events[0]) && Legal(Apply(s, events[0]), events[1..]))
  }

  function Exec(s: State, events: seq<Event>): State
    requires Legal(s, events)
    decreases |events|
  {
    if events == [] then s else Exec(Apply(s, events[0]), events[1..])
  }

  // ----- conservation

  function BusyPart(): Worker -> seq<UsageEvent> {
    (w: Worker) => if w.Busy? then [w.event] else []
  }

  /** The events being processed. */
  function BusyOf(s: State): seq<UsageEvent> { Gather(BusyPart(), s.workers) }

  /** Events leave the queue in the order of their acceptance. */
  ghost predicate Queued(s: State) {
    s.accepted == s.taken + s.queue && |s.queue| <= s.capacity
  }

  /** Every taken event is being processed, processed or errored, exactly once. */
  ghost predicate Counted(s: State, e: UsageEvent) {
    Times(s.taken, e) == Times(BusyOf(s), e) + Times(s.processed, e) + Times(s.errored, e)
  }

  /** What is left in the queue once all workers have exited is what came too late. */
  ghost predicate LateOnly(s: State) {
    && (if AllExited(s) then s.queue == s.late else s.late == [])
    && (forall w :: 0 <= w < |s.workers| && LeftSelect(s.workers[w]) ==> s.cancelled)
  }

  /** The worker has seen the cancelled context. */
  predicate LeftSelect(w: Worker) {
    w.Draining? || w.Exited? || (w.Busy? && w.draining)
  }

  lemma StepKeepsQueued(s: State, e: Event)
    requires Enabled(s, e) && Queued(s)
    ensures Queued(Apply(s, e))
  {
    if e.Take? {
      assert s.queue == [s.queue[0]] + s.queue[1..];
    }
  }

  lemma StepKeepsCounted(s: State, e: Event, v: UsageEvent)
    requires Enabled(s, e) && Counted(s, v)
    ensures Counted(Apply(s, e), v)
  {
    hide Gather, Times;
    var t := Apply(s, e);
    TimesNone(v);
    if e.Take? || e.SeeCancel? || e.Quit? || e.Pass? || e.Return? {
      GatherReplace(BusyPart(), s.workers, e.w, t.workers[e.w], v);
    }
    if e.Take? {
      TimesJoin(s.taken, [s.queue[0]], v);
    } else if e.Return? {
      TimesJoin(s.processed, [s.workers[e.w].event], v);
      TimesJoin(s.errored, [s.workers[e.w].event], v);
    }
  }

  lemma StepKeepsLateOnly(s: State, e: Event)
    requires Enabled(s, e) && LateOnly(s)
    ensures LateOnly(Apply(s, e))
  {
    var t := Apply(s, e);
    if e.Take? || e.SeeCancel? || e.Quit? || e.Pass? || e.Return? {
      assert !s.workers[e.w].Exited?;
      assert t.workers[e.w].Exited? ==> e.Quit?;
      assert LeftSelect(s.workers[e.w]) ==> s.cancelled;
      forall w | 0 <= w < |t.workers| && w != e.w ensures t.workers[w] == s.workers[w] {
      }
    }
  }

  ghost predicate Inv(s: State) {
    Queued(s) && LateOnly(s) && forall v :: Counted(s, v)
  }

  lemma StepKeepsInv(s: State, e: Event)
    requires Enabled(s, e) && Inv(s)
    ensures Inv(Apply(s, e))
  {
    hide Queued, LateOnly, Counted;
    StepKeepsQueued(s, e);
    StepKeepsLateOnly(s, e);
    forall v ensures Counted(Apply(s, e), v) {
      StepKeepsCounted(s, e, v);
    }
  }

  lemma {:induction false} RunKeepsInv(s: State, events: seq<Event>)
    requires Legal(s, events) && Inv(s)
    ensures Inv(Exec(s, events))
    ensures |Exec(s, events).workers| == |s.workers| && Exec(s, events).capacity == s.capacity
    decreases |events|
  {
    hide Inv;
    if events != [] {
      StepKeepsInv(s, events[0]);
      RunKeepsInv(Apply(s, events[0]), events[1..]);
    }
  }

  lemma InitInv(workers: nat, capacity: nat)
    requires workers > 0
    ensures Inv(Init(workers, capacity))
  {
    GatherNone(BusyPart(), Init(workers, capacity).workers);
    assert Init(workers, capacity).workers[0].Ready?;
  }

  /**
    In every reachable state, for any number of workers, accepted events are queued,
    being processed, processed or errored, first accepted are first taken, and the
    queue never exceeds its capacity.
  */
  lemma PoolConserves(workers: nat, capacity: nat, events: seq<Event>)
    requires workers > 0 && Legal(Init(workers, capacity), events)
    ensures var s := Exec(Init(workers, capacity), events);
      && |s.queue| <= capacity
      && s.accepted == s.taken + s.queue
      && multiset(s.accepted) == multiset(s.queue) + multiset(BusyOf(s)) + multiset(s.processed) + multiset(s.errored)
  {
    InitInv(workers, capacity);
    RunKeepsInv(Init(workers, capacity), events);
    CountedAsMultisets(Exec(Init(workers, capacity), events));
  }

  lemma CountedAsMultisets(s: State)
    requires Inv(s)
    ensures multiset(s.accepted) ==
      multiset(s.queue) + multiset(BusyOf(s)) + multiset(s.processed) + multiset(s.errored)
  {
    var places := multiset(s.queue) + multiset(BusyOf(s)) + multiset(s.processed) + multiset(s.errored);
    forall v ensures multiset(s.accepted)[v] == places[v] {
      assert Counted(s, v);
      TimesJoin(s.taken, s.queue, v);
    }
  }

  /**
    When Stop returns, the events left unprocessed are exactly those accepted after the
    last worker had exited, and the Stats counters account for all others.
  */
  lemma StopLosesExactlyTheLate(workers: nat, capacity: nat, events: seq<Event>)
    requires workers > 0 && Legal(Init(workers, capacity), events)
    requires AllExited(Exec(Init(workers, capacity), events))
    ensures var s := Exec(Init(workers, capacity), events);
      && s.queue == s.late
      && multiset(s.accepted) == multiset(s.processed) + multiset(s.errored) + multiset(s.late)
      && |s.accepted| == |s.processed| + |s.errored| + |s.late|
  {
    InitInv(workers, capacity);
    RunKeepsInv(Init(workers, capacity), events);
    var s := Exec(Init(workers, capacity), events);
    CountedAsMultisets(s);
    GatherNone(BusyPart(), s.workers);
    assert |multiset(s.accepted)| == |multiset(s.queue)| + |multiset(s.processed)| + |multiset(s.errored)|;
  }

  /** No Submit is accepted once the context is cancelled. */
  predicate NoneAfterCancel(s: State, events: seq<Event>)
    requires Legal(s, events)
    decreases |events|
  {
    events == [] || ((s.cancelled ==> !events[0].Submit?) && NoneAfterCancel(Apply(s, events[0]), events[1..]))
  }

  lemma {:induction false} NoneLate(s: State, events: seq<Event>)
    requires Legal(s, events) && NoneAfterCancel(s, events) && LateOnly(s) && s.late == [] && s.workers != []
    ensures Exec(s, events).late == []
    decreases |events|
  {
    if events != [] {
      if AllExited(s) {
        assert s.workers[0].Exited? && LeftSelect(s.workers[0]);
      }
      StepKeepsLateOnly(s, events[0]);
      NoneLate(Apply(s, events[0]), events[1..]);
    }
  }

  /** If no Submit follows the cancellation, Stop leaves an empty queue and every accepted event is counted in Stats. */
  lemma StopDrainsTheQueue(workers: nat, capacity: nat, events: seq<Event>)
    requires workers > 0 && Legal(Init(workers, capacity), events)
    requires AllExited(Exec(Init(workers, capacity), events)) && NoneAfterCancel(Init(workers, capacity), events)
    ensures var s := Exec(Init(workers, capacity), events);
      && s.queue == []
      && multiset(s.accepted) == multiset(s.processed) + multiset(s.errored)
      && |s.accepted| == |s.processed| + |s.errored|
  {
    InitInv(workers, capacity);
    NoneLate(Init(workers, capacity), events);
    StopLosesExactlyTheLate(workers, capacity, events);
  }

  /** A Submit between the cancellation and Stop can be accepted and never processed. */
  lemma LateSubmitIsLost(capacity: nat, event: UsageEvent)
    requires capacity > 0
    ensures var events := [Cancel, SeeCancel(0), Quit(0), Submit(event)];
      && Legal(Init(1, capacity), events)
      && AllExited(Exec(Init(1, capacity), events))
      && Exec(Init(1, capacity), events).accepted == [event] == Exec(Init(1, capacity), events).queue
  {
    var s0 := Init(1, capacity);
    var s1 := Apply(s0, Cancel);
    var s2 := Apply(s1, SeeCancel(0));
    var s3 := Apply(s2, Quit(0));
    ExecStep(s3, Submit(event), []);
    ExecStep(s2, Quit(0), [Submit(event)]);
    ExecStep(s1, SeeCancel(0), [Quit(0), Submit(event)]);
    ExecStep(s0, Cancel, [SeeCancel(0), Quit(0), Submit(event)]);
  }

  lemma ExecStep(s: State, e: Event, rest: seq<Event>)
    requires Enabled(s, e) && Legal(Apply(s, e), rest)
    ensures Legal(s, [e] + rest) && Exec(s, [e] + rest) == Exec(Apply(s, e), rest)
  {
    assert ([e] + rest)[1..] == rest;
  }

  lemma EmptyRun(s: State)
    ensures Legal(s, []) && Exec(s, []) == s
  {
  }

  lemma {:induction false} ExecJoin(s: State, a: seq<Event>, b: seq<Event>)
    requires Legal(s, a) && Legal(Exec(s, a), b)
    ensures Legal(s, a + b) && Exec(s, a + b) == Exec(Exec(s, a), b)
    decreases |a|
  {
    if a == [] {
      assert a + b == b;
    } else {
      ExecJoin(Apply(s, a[0]), a[1..], b);
      assert (a + b)[0] == a[0] && (a + b)[1..] == a[1..] + b;
    }
  }

  // ----- Stop terminates

  function Effort(): Worker -> int {
    (w: Worker) =>
      match w
      case Ready => 2
      case Draining => 1
      case Busy(_, draining, passed) => (if draining then 1 else 2) + (if passed then 1 else 2)
      case Exited => 0
  }

  function Measure(s: State): int {
    3 * |s.queue| + Sum(Effort(), s.workers)
  }

  lemma StepDrains(s: State, e: Event)
    requires Enabled(s, e) && s.cancelled && !e.Submit?
    ensures Measure(Apply(s, e)) < Measure(s) && Apply(s, e).cancelled
  {
    hide Sum;
    if !e.Cancel? {
      SumReplace(Effort(), s.workers, e.w, Apply(s, e).workers[e.w]);
    }
  }

  /** After the cancellation every run without Submit is bounded, and none gets stuck before all workers have exited. */
  lemma {:induction false} StopTerminates(s: State, events: seq<Event>)
    requires Legal(s, events) && s.cancelled && forall i :: 0 <= i < |events| ==> !events[i].Submit?
    ensures |events| <= Measure(s)
    ensures !AllExited(Exec(s, events)) ==> exists e :: Enabled(Exec(s, events), e) && !e.Submit?
    decreases |events|
  {
    if events == [] {
      SumNonNegative(Effort(), s.workers);
      if w :| 0 <= w < |s.workers| && !s.workers[w].Exited? {
        var e := if s.workers[w].Ready? then SeeCancel(w)
                 else if s.workers[w].Busy? then Return(w)
                 else if s.queue == [] then Quit(w) else Take(w);
        assert Enabled(s, e);
      }
    } else {
      StepDrains(s, events[0]);
      assert forall i :: 0 <= i < |events[1..]| ==> events[1..][i] == events[i + 1];
      StopTerminates(Apply(s, events[0]), events[1..]);
    }
  }

  // ----- the pool as an object

  /** The events for which ProcessUsage answers `ok`. */
  function Answered(outcome: UsageEvent -> bool, ok: bool): UsageEvent -> seq<UsageEvent> {
    (e: UsageEvent) => if outcome(e) == ok then [e] else []
  }

  /** The steps by which worker `w` deals with the event at the head of the queue. */
  function OneEvent(w: nat, ok: bool): seq<Event> {
    if ok then [Take(w), Pass(w), Return(w)] else [Take(w), Return(w)]
  }

  lemma OneEventIsLegal(s: State, w: nat, ok: bool)
    requires Enabled(s, Take(w))
    ensures Legal(s, OneEvent(w, ok))
    ensures var e, t := s.queue[0], Exec(s, OneEvent(w, ok));
      t == s.(queue := s.queue[1..], taken := s.taken + [e],
              processed := if ok then s.processed + [e] else s.processed,
              errored := if ok then s.errored else s.errored + [e])
  {
    var t := Apply(s, Take(w));
    assert s.workers[w := t.workers[w]][w := s.workers[w]] == s.workers;
    if ok {
      var u := Apply(t, Pass(w));
      EmptyRun(Apply(u, Return(w)));
      ExecStep(u, Return(w), []);
      ExecStep(t, Pass(w), [Return(w)]);
      ExecStep(s, Take(w), [Pass(w), Return(w)]);
    } else {
      EmptyRun(Apply(t, Return(w)));
      ExecStep(t, Return(w), []);
      ExecStep(s, Take(w), [Return(w)]);
    }
  }

  /** From `s` to `t` some events have left the queue, each counted by its outcome, in order. */
  ghost predicate Handled(s: State, t: State, outcome: UsageEvent -> bool) {
    && |t.queue| <= |s.queue|
    && var gone := s.queue[..|s.queue| - |t.queue|];
       && s.queue == gone + t.queue && t.taken == s.taken + gone
       && t.processed == s.processed + Gather(Answered(outcome, true), gone)
       && t.errored == s.errored + Gather(Answered(outcome, false), gone)
  }

  lemma HandledNone(s: State, outcome: UsageEvent -> bool)
    ensures Handled(s, s, outcome)
  {
    assert s.queue[..0] == [];
  }

  lemma HandledNext(s: State, t: State, u: State, outcome: UsageEvent -> bool)
    requires Handled(s, t, outcome) && t.queue != []
    requires u.queue == t.queue[1..] && u.taken == t.taken + [t.queue[0]]
    requires u.processed == if outcome(t.queue[0]) then t.processed + [t.queue[0]] else t.processed
    requires u.errored == if outcome(t.queue[0]) then t.errored else t.errored + [t.queue[0]]
    ensures Handled(s, u, outcome)
  {
    hide Gather;
    var gone := s.queue[..|s.queue| - |t.queue|];
    assert s.queue[..|s.queue| - |u.queue|] == gone + [t.queue[0]];
    GatherPush(Answered(outcome, true), gone, t.queue[0]);
    GatherPush(Answered(outcome, false), gone, t.queue[0]);
  }

  /** Two stretches of work that together empty the queue. */
  lemma HandledAll(s: State, t: State, u: State, v: State, outcome: UsageEvent -> bool)
    requires Handled(s, t, outcome) && Handled(u, v, outcome) && v.queue == []
    requires u.queue == t.queue && u.taken == t.taken && u.processed == t.processed && u.errored == t.errored
    ensures v.taken == s.taken + s.queue
    ensures v.processed == s.processed + Gather(Answered(outcome, true), s.queue)
    ensures v.errored == s.errored + Gather(Answered(outcome, false), s.queue)
  {
    hide Gather;
    var gone := s.queue[..|s.queue| - |t.queue|];
    assert u.queue[..|u.queue| - |v.queue|] == t.queue;
    GatherJoin(Answered(outcome, true), gone, t.queue);
    GatherJoin(Answered(outcome, false), gone, t.queue);
  }

  lemma OneMoreStep(s: State, events: seq<Event>, e: Event)
    requires Legal(s, events) && Enabled(Exec(s, events), e)
    ensures Legal(s, events + [e]) && Exec(s, events + [e]) == Apply(Exec(s, events), e)
  {
    var t := Exec(s, events);
    EmptyRun(Apply(t, e));
    ExecStep(t, e, []);
    ExecJoin(s, events, [e]);
  }

  class Pool {
    const capacity: nat
    var usageEvents: seq<UsageEvent>
    var workers: seq<Worker>
    var cancelled: bool
    var processedCount: nat
    var errorCount: nat
    ghost var processed: seq<UsageEvent>
    ghost var errored: seq<UsageEvent>
    ghost var accepted: seq<UsageEvent>
    ghost var taken: seq<UsageEvent>
    ghost var late: seq<UsageEvent>

    ghost function View(): State
      reads this
    {
      State(capacity, usageEvents, workers, cancelled, processed, errored, accepted, taken, late)
    }

    /** The counters count. */
    ghost predicate Valid()
      reads this
    {
      processedCount == |processed| && errorCount == |errored|
    }

    constructor (workers: nat, capacity: nat)
      ensures Valid() && View() == Init(workers, capacity)
    {
      this.capacity := capacity;
      usageEvents, cancelled, processedCount, errorCount := [], false, 0, 0;
      this.workers := seq(workers, _ => Ready);
      processed, errored, accepted, taken, late := [], [], [], [], [];
    }

    /** Never blocks: a full queue refuses the event. */
    method Submit(event: UsageEvent) returns (ok: bool)
      requires Valid()
      modifies this
      ensures Valid() && View() == Apply(old(View()), Event.Submit(event))
      ensures ok == (|old(usageEvents)| < capacity)
      ensures usageEvents == if ok then old(usageEvents) + [event] else old(usageEvents)
    {
      if |usageEvents| < capacity {
        usageEvents := usageEvents + [event];
        accepted, late := accepted + [event], if AllExited(View()) then late + [event] else late;
        return true;
      }
      return false;
    }

    /** A worker receives an event and runs ProcessUsage on it. */
    method ProcessEvent(w: nat, ok: bool)
      requires Valid() && Enabled(View(), Take(w))
      modifies this
      ensures Valid() && Legal(old(View()), OneEvent(w, ok)) && View() == Exec(old(View()), OneEvent(w, ok))
      ensures cancelled == old(cancelled) && workers == old(workers) && taken == old(taken) + [old(usageEvents)[0]]
      ensures usageEvents == old(usageEvents)[1..]
      ensures processed == if ok then old(processed) + [old(usageEvents)[0]] else old(processed)
      ensures errored == if ok then old(errored) else old(errored) + [old(usageEvents)[0]]
    {
      OneEventIsLegal(View(), w, ok);
      var event := usageEvents[0];
      usageEvents := usageEvents[1..];
      taken := taken + [event];
      if ok {
        processedCount, processed := processedCount + 1, processed + [event];
      } else {
        errorCount, errored := errorCount + 1, errored + [event];
      }
    }

    /** Receives and processes until the queue is empty or the select turns away from it. */
    method Serve(w: nat, outcome: UsageEvent -> bool, more: nat -> bool) returns (ghost events: seq<Event>)
      requires Valid() && w < |workers| && (workers[w].Ready? || workers[w].Draining?)
      modifies this
      ensures Valid() && Legal(old(View()), events) && View() == Exec(old(View()), events)
      ensures cancelled == old(cancelled) && workers == old(workers)
      ensures Handled(old(View()), View(), outcome)
      ensures usageEvents == [] || !more(|usageEvents|)
    {
      hide Legal, Exec, Handled, OneEvent;
      ghost var before := View();
      events := [];
      EmptyRun(before);
      HandledNone(before, outcome);
      while usageEvents != [] && more(|usageEvents|)
        invariant Valid() && Legal(before, events) && View() == Exec(before, events)
        invariant cancelled == before.cancelled && workers == before.workers && Handled(before, View(), outcome)
        decreases |usageEvents|
      {
        ghost var now := View();
        ghost var steps := OneEvent(w, outcome(usageEvents[0]));
        ProcessEvent(w, outcome(usageEvents[0]));
        HandledNext(before, now, View(), outcome);
        ExecJoin(before, events, steps);
        events := events + steps;
      }
    }

    /**
      A worker's loop after the cancellation, with nobody else at work: its select may
      still prefer the queue, then it sees the cancelled context and drains.  Everything
      queued is processed, in order, before it exits.
    */
    method UsageWorker(w: nat, outcome: UsageEvent -> bool, prefersQueue: nat -> bool)
      returns (ghost events: seq<Event>)
      requires Valid() && cancelled && w < |workers| && workers[w].Ready?
      modifies this
      ensures Valid() && Legal(old(View()), events) && View() == Exec(old(View()), events)
      ensures usageEvents == [] && workers == old(workers)[w := Exited] && taken == old(taken) + old(usageEvents)
      ensures processed == old(processed) + Gather(Answered(outcome, true), old(usageEvents))
      ensures errored == old(errored) + Gather(Answered(outcome, false), old(usageEvents))
    {
      hide Legal, Exec, Gather;
      ghost var before := View();
      events := Serve(w, outcome, prefersQueue);
      ghost var served := View();
      workers := workers[w := Draining];
      OneMoreStep(before, events, SeeCancel(w));
      events := events + [SeeCancel(w)];
      ghost var draining := View();
      ghost var more := Serve(w, outcome, _ => true);
      ExecJoin(before, events, more);
      events := events + more;
      HandledAll(before, served, draining, View(), outcome);
      workers := workers[w := Exited];
      OneMoreStep(before, events, Quit(w));
      events := events + [Quit(w)];
    }

    method Stats() returns (processed: nat, errors: nat)
      requires Valid()
      ensures processed == |this.processed| && errors == |errored|
    {
      return processedCount, errorCount;
    }
  }
}
