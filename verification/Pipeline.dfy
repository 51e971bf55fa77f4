/**
  The usage service from the HTTP handler to the settled batch, with main's
  shutdown: cancel the pool, wait for its workers, stop the batch manager, wait for
  it, and only then cancel the manager's context.
*/
module Pipeline {
  import opened Gathering
  import P = WorkerPool
  import B = BatchProtocol
  import Conservation = BatchConservation
  import Drain = BatchDrain

  datatype Phase = Serving | PoolCancelled | PoolStopped | ManagerStopping | ManagerStopped | Finished

  /** `launching` maps a worker inside Add to the flush it has taken out but not yet started. */
  datatype State = State(pool: P.State, mgr: B.State, launching: map<nat, nat>, phase: Phase)

  datatype Event =
    | Handle(event: P.UsageEvent)     // a decoded POST to the usage handler
    | Pool(p: P.Event)                // a worker's own step
    | Track(w: nat, now: int)         // TrackUsage up to the manager's unlock
    | Start(w: nat)                   // Add starts the goroutine of a full batch
    | Manager(m: B.Event)
    | Main                            // main's next shutdown action

  function Init(workers: nat, capacity: nat, size: int): State {
    State(P.Init(workers, capacity), B.Init(size), map[], Serving)
  }

  datatype Validation = Accepted | Rejected(reason: string)

  function ValidateUsageEvent(event: P.UsageEvent): Validation {
    if event.customerId == "" then Rejected("customer_id required")
    else if event.subscriptionItemId == "" then Rejected("subscription_item_id required")
    else if event.quantity <= 0 then Rejected("quantity must be positive")
    else Accepted
  }

  /** An event is rejected for the first thing that is wrong with it. */
  lemma RejectedForTheFirst(event: P.UsageEvent)
    ensures ValidateUsageEvent(event) == Rejected("customer_id required") <==> event.customerId == ""
    ensures ValidateUsageEvent(event) == Rejected("subscription_item_id required")
      <==> event.customerId != "" && event.subscriptionItemId == ""
    ensures ValidateUsageEvent(event) == Rejected("quantity must be positive")
      <==> event.customerId != "" && event.subscriptionItemId != "" && event.quantity <= 0
    ensures ValidateUsageEvent(event).Accepted?
      <==> event.customerId != "" && event.subscriptionItemId != "" && event.quantity > 0
  {
    assert "customer_id required"[0] == 'c' && "subscription_item_id required"[0] == 's';
    assert "quantity must be positive"[0] == 'q';
  }

  /** A usage request is queued at the end exactly if it names both IDs, has a positive quantity, and there is room. */
  lemma HandledExactly(s: State, event: P.UsageEvent)
    ensures var t := Apply(s, Handle(event));
      var queued := event.customerId != "" && event.subscriptionItemId != "" && event.quantity > 0
                    && |s.pool.queue| < s.pool.capacity;
      && t.pool.queue == (if queued then s.pool.queue + [event] else s.pool.queue)
      && t.pool.accepted == (if queued then s.pool.accepted + [event] else s.pool.accepted)
      && t.pool.workers == s.pool.workers && t.mgr == s.mgr && t.launching == s.launching && t.phase == s.phase
  {
  }

  /** A worker hands a valid event on as one metric of its item, with its quantity, dated at the call. */
  lemma TrackedExactly(s: State, w: nat, now: int)
    requires Enabled(s, Track(w, now))
    ensures var event, t := s.pool.workers[w].event, Apply(s, Track(w, now));
      && t.pool.queue == s.pool.queue
      && (event.subscriptionItemId != "" && event.quantity > 0 && !s.mgr.cancelled ==>
            && t.mgr.accepted == s.mgr.accepted
                 + [B.Entry(event.subscriptionItemId, B.Metric(event.quantity, now, "increment"))]
            && t.pool.errored == s.pool.errored)
      && (event.subscriptionItemId == "" || event.quantity <= 0 || s.mgr.cancelled ==>
            t.mgr == s.mgr && t.pool.errored == s.pool.errored + [event])
  {
  }

  /** TrackUsage's own checks. */
  predicate Trackable(event: P.UsageEvent) {
    event.subscriptionItemId != "" && event.quantity > 0
  }

  predicate MainReady(s: State) {
    match s.phase
    case PoolCancelled => P.AllExited(s.pool)
    case ManagerStopping => Drain.Quiet(s.mgr)
    case Finished => false
    case _ => true
  }

  predicate Inside(s: State, w: nat) {
    w < |s.pool.workers| && s.pool.workers[w].Busy? && w !in s.launching
  }

  predicate Enabled(s: State, e: Event) {
    match e
    case Handle(_) => true
    case Pool(p) =>
      && P.Enabled(s.pool, p)
      && match p {
           case Take(_) => true
           case SeeCancel(_) => true
           case Quit(_) => true
           case Return(w) => Inside(s, w) && s.pool.workers[w].passed
           case _ => false
         }
    case Track(w, _) => Inside(s, w) && !s.pool.workers[w].passed
    case Start(w) => w in s.launching && B.Enabled(s.mgr, B.Launch(s.launching[w]))
    case Manager(m) => B.Enabled(s.mgr, m) && !(m.Add? || m.Launch? || m.Cancel? || m.CloseDone?)
    case Main => MainReady(s)
  }

  function Apply(s: State, e: Event): State
    requires Enabled(s, e)
  {
    match e
    case Handle(event) =>
      if ValidateUsageEvent(event).Accepted? then s.(pool := P.Apply(s.pool, P.Submit(event))) else s
    case Pool(p) => s.(pool := P.Apply(s.pool, p))
    case Track(w, now) => ApplyTrack(s, w, now)
    case Start(w) => s.(mgr := B.Apply(s.mgr, B.Launch(s.launching[w])), launching := s.launching - {w})
    case Manager(m) => s.(mgr := B.Apply(s.mgr, m))
    case Main => ApplyMain(s)
  }

  /** A worker's TrackUsage call: an error from the checks or from Add, or the metric in the manager. */
  function ApplyTrack(s: State, w: nat, now: int): State
    requires Enabled(s, Track(w, now))
  {
    var event := s.pool.workers[w].event;
    if !Trackable(event) || s.mgr.cancelled then
      s.(pool := P.Apply(s.pool, P.Return(w)))
    else
      var mgr := B.ApplyAdd(s.mgr, event.subscriptionItemId, B.Metric(event.quantity, now, "increment"));
      s.(pool := P.Apply(s.pool, P.Pass(w)), mgr := mgr,
         launching := if |mgr.agents| > |s.mgr.agents| then s.launching[w := |s.mgr.agents|] else s.launching)
  }

  function ApplyMain(s: State): State
    requires MainReady(s)
  {
    match s.phase
    case Serving => s.(pool := s.pool.(cancelled := true), phase := PoolCancelled)
    case PoolCancelled => s.(phase := PoolStopped)
    case PoolStopped => s.(mgr := s.mgr.(stopped := true), phase := ManagerStopping)
    case ManagerStopping => s.(phase := ManagerStopped)
    case ManagerStopped => s.(mgr := s.mgr.(cancelled := true), phase := Finished)
    case Finished => s
  }

  predicate Legal(s: State, events: seq<Event>)
    decreases |events|
  {
    events == [] || (Enabled(s, events[0]) && Legal(Apply(s, events[0]), events[1..]))
  }

  function Exec(s: State, events: seq<Event>): State
    requires Legal(s, events)
    decreases |events|
  {
    if events == [] then s else Exec(Apply(s, events[0]), events[1..])
  }

  // ----- shutdown order

  predicate WorkersGone(phase: Phase) {
    !phase.Serving? && !phase.PoolCancelled?
  }

  predicate StopSignalled(phase: Phase) {
    phase.ManagerStopping? || phase.ManagerStopped? || phase.Finished?
  }

  predicate ManagerDone(phase: Phase) {
    phase.ManagerStopped? || phase.Finished?
  }

  /** A worker inside Add owns the full batch it took out, and nobody else does. */
  ghost predicate Owned(s: State) {
    InsideAdd(s.pool.workers, s.launching) && Matched(s.launching, s.mgr.agents)
  }

  ghost predicate InsideAdd(workers: seq<P.Worker>, launching: map<nat, nat>) {
    forall w :: w in launching ==> w < |workers| && workers[w].Busy? && workers[w].passed
  }

  ghost predicate Matched(launching: map<nat, nat>, agents: seq<B.Task>) {
    && (forall w :: w in launching ==> launching[w] < |agents| && agents[launching[w]].Handoff?)
    && (forall v, w :: v in launching && w in launching && v != w ==> launching[v] != launching[w])
    && (forall g :: 0 <= g < |agents| && agents[g].Handoff? ==> HasOwner(launching, g))
  }

  ghost predicate HasOwner(launching: map<nat, nat>, g: nat) {
    exists w :: w in launching && launching[w] == g
  }

  ghost predicate Ordered(s: State) {
    && (s.pool.cancelled <==> !s.phase.Serving?)
    && (WorkersGone(s.phase) ==> P.AllExited(s.pool))
    && (s.mgr.stopped <==> StopSignalled(s.phase))
    && (s.mgr.cancelled <==> s.phase.Finished?)
    && (Drain.Final(s.mgr) ==> StopSignalled(s.phase) && Drain.Covered(s.mgr, 1))
    && (ManagerDone(s.phase) ==> Drain.AllEnded(s.mgr))
  }

  ghost predicate Valid(event: P.UsageEvent) {
    ValidateUsageEvent(event).Accepted?
  }

  /** Only validated events are in the pool, so TrackUsage never refuses one. */
  ghost predicate Clean(s: State) {
    && (forall e :: e in s.pool.queue ==> Valid(e))
    && (forall w :: 0 <= w < |s.pool.workers| && s.pool.workers[w].Busy? ==> Valid(s.pool.workers[w].event))
    && s.pool.errored == []
  }

  // ----- units: what customers are billed for

  function EventUnits(x: B.Id): P.UsageEvent -> seq<int> {
    (e: P.UsageEvent) => if e.subscriptionItemId == x then [e.quantity] else []
  }

  function EntryUnits(x: B.Id): B.Entry -> seq<int> {
    (e: B.Entry) => if e.id == x then [e.metric.quantity] else []
  }

  function MetricUnits(): B.Metric -> seq<int> {
    (m: B.Metric) => [m.quantity]
  }

  /** The units of `x` whose worker has handed them on but not yet returned. */
  function PassedUnits(x: B.Id): P.Worker -> seq<int> {
    (w: P.Worker) => if w.Busy? && w.passed && w.event.subscriptionItemId == x then [w.event.quantity] else []
  }

  /** The manager has accepted exactly the events that workers have handed on. */
  ghost predicate Charged(s: State, x: B.Id, q: int) {
    Times(Gather(EntryUnits(x), s.mgr.accepted), q) ==
      Times(Gather(EventUnits(x), s.pool.processed), q) + Times(Gather(PassedUnits(x), s.pool.workers), q)
  }

  ghost predicate Inv(s: State) {
    && P.Inv(s.pool) && s.pool.workers != []
    && Drain.Rooted(s.mgr) && (forall x :: Conservation.Conserved(s.mgr, x))
    && Owned(s) && Ordered(s) && Clean(s)
    && (forall x, q :: Charged(s, x, q))
  }

  // ----- every step keeps the invariant

  /** The manager step contained in a pipeline step. */
  predicate MovesManager(s: State, e: Event)
    requires Enabled(s, e)
  {
    match e
    case Track(w, _) => Trackable(s.pool.workers[w].event) && !s.mgr.cancelled
    case Start(_) => true
    case Manager(_) => true
    case Main => (s.phase.PoolStopped? && !s.mgr.stopped) || (s.phase.ManagerStopped? && !s.mgr.cancelled)
    case _ => false
  }

  function ManagerEvent(s: State, e: Event): B.Event
    requires Enabled(s, e) && MovesManager(s, e)
  {
    match e
    case Track(w, now) =>
      var event := s.pool.workers[w].event;
      B.Add(event.subscriptionItemId, B.Metric(event.quantity, now, "increment"))
    case Start(w) => B.Launch(s.launching[w])
    case Manager(m) => m
    case Main => if s.phase.PoolStopped? then B.CloseDone else B.Cancel
  }

  lemma ManagerStep(s: State, e: Event)
    requires Enabled(s, e) && Ordered(s)
    ensures if MovesManager(s, e)
            then B.Enabled(s.mgr, ManagerEvent(s, e)) && Apply(s, e).mgr == B.Apply(s.mgr, ManagerEvent(s, e))
            else Apply(s, e).mgr == s.mgr
  {
  }

  /** The pool step contained in a pipeline step. */
  predicate MovesPool(s: State, e: Event)
    requires Enabled(s, e)
  {
    match e
    case Handle(event) => ValidateUsageEvent(event).Accepted?
    case Pool(_) => true
    case Track(_, _) => true
    case Main => s.phase.Serving? && !s.pool.cancelled
    case _ => false
  }

  function PoolEvent(s: State, e: Event): P.Event
    requires Enabled(s, e) && MovesPool(s, e)
  {
    match e
    case Handle(event) => P.Submit(event)
    case Pool(p) => p
    case Track(w, _) => if !Trackable(s.pool.workers[w].event) || s.mgr.cancelled then P.Return(w) else P.Pass(w)
    case Main => P.Cancel
  }

  lemma PoolStep(s: State, e: Event)
    requires Enabled(s, e) && Ordered(s)
    ensures if MovesPool(s, e)
            then P.Enabled(s.pool, PoolEvent(s, e)) && Apply(s, e).pool == P.Apply(s.pool, PoolEvent(s, e))
            else Apply(s, e).pool == s.pool
  {
  }

  lemma MatchedPush(launching: map<nat, nat>, agents: seq<B.Task>, w: nat, task: B.Task)
    requires Matched(launching, agents) && w !in launching && task.Handoff?
    ensures Matched(launching[w := |agents|], agents + [task])
  {
    var after := launching[w := |agents|];
    assert w in after && after[w] == |agents|;
    forall g | 0 <= g < |agents| && agents[g].Handoff? ensures HasOwner(after, g) {
      assert HasOwner(launching, g);
      var v :| v in launching && launching[v] == g;
      assert v in after && after[v] == g;
    }
  }

  lemma MatchedLaunch(launching: map<nat, nat>, agents: seq<B.Task>, w: nat, task: B.Task)
    requires Matched(launching, agents) && w in launching && !task.Handoff?
    ensures Matched(launching - {w}, agents[launching[w] := task])
  {
    var after := launching - {w};
    forall g | 0 <= g < |agents| && g != launching[w] && agents[g].Handoff? ensures HasOwner(after, g) {
      assert HasOwner(launching, g);
      var v :| v in launching && launching[v] == g;
      assert v in after && after[v] == g;
    }
  }

  /** A manager step that is neither Add nor Launch touches no handoff and makes none. */
  lemma ManagerKeepsMatched(launching: map<nat, nat>, s: B.State, m: B.Event)
    requires B.Enabled(s, m) && !m.Add? && !m.Launch? && Matched(launching, s.agents)
    ensures Matched(launching, B.Apply(s, m).agents)
  {
    hide HasOwner;
    var t := B.Apply(s, m);
    assert |t.agents| >= |s.agents|;
    assert forall g :: 0 <= g < |s.agents| && s.agents[g].Handoff? ==> t.agents[g] == s.agents[g];
    forall g | 0 <= g < |t.agents| && t.agents[g].Handoff? ensures g < |s.agents| && s.agents[g].Handoff? {
    }
  }

  lemma TrackKeepsOwned(s: State, w: nat, now: int)
    requires Enabled(s, Track(w, now)) && Owned(s)
    ensures Owned(ApplyTrack(s, w, now))
  {
    hide Matched;
    var t := ApplyTrack(s, w, now);
    if |t.mgr.agents| > |s.mgr.agents| {
      MatchedPush(s.launching, s.mgr.agents, w, t.mgr.agents[|s.mgr.agents|]);
    }
  }

  lemma StepKeepsOwned(s: State, e: Event)
    requires Enabled(s, e) && Owned(s)
    ensures Owned(Apply(s, e))
  {
    hide Matched;
    match e
    case Track(w, now) => TrackKeepsOwned(s, w, now);
    case Manager(m) => ManagerKeepsMatched(s.launching, s.mgr, m);
    case Start(w) => MatchedLaunch(s.launching, s.mgr.agents, w, Apply(s, e).mgr.agents[s.launching[w]]);
    case _ =>
  }

  /** Once the workers are gone, nothing is inside Add. */
  lemma NobodyInAdd(s: State)
    requires Owned(s) && P.AllExited(s.pool)
    ensures s.launching == map[]
    ensures forall g :: 0 <= g < |s.mgr.agents| ==> !s.mgr.agents[g].Handoff?
  {
    assert forall w :: w !in s.launching;
  }

  /** The manager's final flush comes after the last Add, so it leaves no buffer without a retry. */
  lemma StepKeepsFlushed(s: State, e: Event)
    requires Enabled(s, e) && Ordered(s) && Owned(s) && s.mgr.agents != []
    ensures Drain.Final(Apply(s, e).mgr) ==> StopSignalled(Apply(s, e).phase) && Drain.Covered(Apply(s, e).mgr, 1)
    ensures ManagerDone(Apply(s, e).phase) ==> Drain.AllEnded(Apply(s, e).mgr)
  {
    hide Owned;
    ManagerStep(s, e);
    var t := Apply(s, e);
    if MovesManager(s, e) && Drain.Final(s.mgr) {
      assert P.AllExited(s.pool);
      Drain.StepKeepsCovered(s.mgr, ManagerEvent(s, e), 1);
    }
    if ManagerDone(t.phase) {
      NobodyInAdd(s);
    }
  }

  lemma StepKeepsOrdered(s: State, e: Event)
    requires Enabled(s, e) && Ordered(s) && Owned(s) && s.mgr.agents != []
    ensures Ordered(Apply(s, e))
  {
    hide Owned, Drain.Covered, Drain.AllEnded;
    var t := Apply(s, e);
    StepKeepsFlushed(s, e);
    if WorkersGone(t.phase) && WorkersGone(s.phase) {
      forall w | 0 <= w < |t.pool.workers| ensures t.pool.workers[w].Exited? {
        assert s.pool.workers[w].Exited?;
      }
    }
  }

  lemma StepKeepsClean(s: State, e: Event)
    requires Enabled(s, e) && Clean(s) && Ordered(s)
    ensures Clean(Apply(s, e))
  {
    hide Drain.Covered, Drain.AllEnded;
    var t := Apply(s, e);
    if e.Track? {
      assert Valid(s.pool.workers[e.w].event);
      assert !P.AllExited(s.pool);
    }
  }

  lemma TrackKeepsCharged(s: State, w: nat, now: int, x: B.Id, q: int)
    requires Enabled(s, Track(w, now)) && Charged(s, x, q) && Clean(s) && Ordered(s)
    ensures Charged(ApplyTrack(s, w, now), x, q)
  {
    hide Gather, Times, Drain.Covered, Drain.AllEnded;
    var t := ApplyTrack(s, w, now);
    var event := s.pool.workers[w].event;
    assert Valid(event) && !P.AllExited(s.pool);
    TimesNone(q);
    GatherReplace(PassedUnits(x), s.pool.workers, w, t.pool.workers[w], q);
    GatherPushTimes(EntryUnits(x), s.mgr.accepted,
      B.Entry(event.subscriptionItemId, B.Metric(event.quantity, now, "increment")), q);
  }

  lemma PoolKeepsCharged(s: State, p: P.Event, x: B.Id, q: int)
    requires Enabled(s, Pool(p)) && Charged(s, x, q)
    ensures Charged(Apply(s, Pool(p)), x, q)
  {
    hide Gather, Times;
    var t := Apply(s, Pool(p));
    TimesNone(q);
    GatherReplace(PassedUnits(x), s.pool.workers, p.w, t.pool.workers[p.w], q);
    if p.Return? {
      GatherPushTimes(EventUnits(x), s.pool.processed, s.pool.workers[p.w].event, q);
    }
  }

  lemma StepKeepsCharged(s: State, e: Event, x: B.Id, q: int)
    requires Enabled(s, e) && Charged(s, x, q) && Clean(s) && Ordered(s)
    ensures Charged(Apply(s, e), x, q)
  {
    hide Gather, Times, Clean, Ordered;
    match e
    case Track(w, now) => TrackKeepsCharged(s, w, now, x, q);
    case Pool(p) => PoolKeepsCharged(s, p, x, q);
    case Manager(m) => ManagerAcceptsNothing(s.mgr, m);
    case _ =>
  }

  lemma ManagerAcceptsNothing(s: B.State, m: B.Event)
    requires B.Enabled(s, m) && !m.Add?
    ensures B.Apply(s, m).accepted == s.accepted
  {
  }

  lemma StepKeepsParts(s: State, e: Event)
    requires Enabled(s, e) && Ordered(s)
    requires P.Inv(s.pool) && s.pool.workers != []
    requires Drain.Rooted(s.mgr) && (forall x :: Conservation.Conserved(s.mgr, x))
    ensures var t := Apply(s, e);
      && P.Inv(t.pool) && t.pool.workers != []
      && Drain.Rooted(t.mgr) && (forall x :: Conservation.Conserved(t.mgr, x))
  {
    hide Apply, Enabled, Ordered, MovesPool, MovesManager, PoolEvent, ManagerEvent;
    hide P.Inv, Drain.Rooted, Conservation.Balanced, P.Enabled, B.Enabled, B.Apply;
    PoolStep(s, e);
    ManagerStep(s, e);
    if MovesPool(s, e) {
      P.StepKeepsInv(s.pool, PoolEvent(s, e));
    }
    if MovesManager(s, e) {
      Drain.StepKeepsRooted(s.mgr, ManagerEvent(s, e));
      forall x, m ensures Conservation.Balanced(Apply(s, e).mgr, x, m) {
        assert Conservation.Conserved(s.mgr, x);
        Conservation.StepBalances(s.mgr, ManagerEvent(s, e), x, m);
      }
    }
  }

  lemma StepKeepsInv(s: State, e: Event)
    requires Enabled(s, e) && Inv(s)
    ensures Inv(Apply(s, e))
  {
    assert s.mgr.agents != [];
    hide Apply, Enabled, P.Inv, Drain.Rooted, Conservation.Conserved, Owned, Ordered, Clean, Charged;
    StepKeepsParts(s, e);
    StepKeepsOwned(s, e);
    StepKeepsOrdered(s, e);
    StepKeepsClean(s, e);
    forall x, q ensures Charged(Apply(s, e), x, q) {
      StepKeepsCharged(s, e, x, q);
    }
  }

  lemma {:induction false} RunKeepsInv(s: State, events: seq<Event>)
    requires Legal(s, events) && Inv(s)
    ensures Inv(Exec(s, events))
    decreases |events|
  {
    hide Inv;
    if events != [] {
      StepKeepsInv(s, events[0]);
      RunKeepsInv(Apply(s, events[0]), events[1..]);
    }
  }

  lemma InitInv(workers: nat, capacity: nat, size: int)
    requires workers > 0
    ensures Inv(Init(workers, capacity, size))
  {
    var s := Init(workers, capacity, size);
    P.InitInv(workers, capacity);
    assert s.pool.workers[0].Ready?;
    forall x, m ensures Conservation.Balanced(s.mgr, x, m) {
      GatherNone(B.HeldPart(x), s.mgr.agents);
    }
    forall x, q ensures Charged(s, x, q) {
      GatherNone(PassedUnits(x), s.pool.workers);
    }
  }

  // ----- after the shutdown

  /** The units of `x` in the given events. */
  function UnitsOf(events: seq<P.UsageEvent>, x: B.Id): seq<int> { Gather(EventUnits(x), events) }

  function OutcomeUnits(x: B.Id, delivered: bool): B.Settled -> seq<int> {
    (b: B.Settled) => if b.id == x && b.delivered == delivered then Gather(MetricUnits(), b.metrics) else []
  }

  /** The units of `x` in acknowledged batches, or in dead-lettered ones. */
  function SettledUnits(s: State, x: B.Id, delivered: bool): seq<int> {
    Gather(OutcomeUnits(x, delivered), s.mgr.settled)
  }

  function BatchUnits(x: B.Id): B.Settled -> seq<int> {
    (b: B.Settled) => Gather(MetricUnits(), B.SettledPart(x)(b))
  }

  /** When Stop has returned, the manager's metrics are all settled. */
  lemma ManagerIsEmpty(s: State, x: B.Id)
    requires Inv(s) && ManagerDone(s.phase)
    ensures B.BufferOf(s.mgr, x) == [] && multiset(B.AddsOf(s.mgr, x)) == multiset(B.SettledOf(s.mgr, x))
  {
    hide Gather, P.Inv, Clean, Owned, Drain.Rooted, Charged, Conservation.Balanced;
    assert Conservation.Conserved(s.mgr, x);
    assert !Drain.HasRetry(s.mgr, x);
    assert |B.BufferOf(s.mgr, x)| < 1;
    GatherNone(B.HeldPart(x), s.mgr.agents);
    Conservation.ConservedAsMultisets(s.mgr, x);
  }

  /** The manager accepted exactly the units of the processed events. */
  lemma ChargesMatch(s: State, x: B.Id)
    requires Inv(s) && WorkersGone(s.phase)
    ensures multiset(Gather(EntryUnits(x), s.mgr.accepted)) == multiset(UnitsOf(s.pool.processed, x))
  {
    hide Gather, P.Inv, Clean, Owned, Drain.Rooted, Conservation.Conserved;
    GatherNone(PassedUnits(x), s.pool.workers);
    forall q ensures multiset(Gather(EntryUnits(x), s.mgr.accepted))[q] == multiset(UnitsOf(s.pool.processed, x))[q] {
      assert Charged(s, x, q);
    }
  }

  lemma AcceptedUnits(s: State, x: B.Id)
    requires Inv(s) && WorkersGone(s.phase)
    ensures s.pool.queue == s.pool.late
    ensures multiset(UnitsOf(s.pool.accepted, x)) ==
      multiset(UnitsOf(s.pool.processed, x)) + multiset(UnitsOf(s.pool.late, x))
  {
    assert s.pool.errored == [] && P.AllExited(s.pool);
    hide Gather, Clean, Owned, Drain.Rooted, Conservation.Conserved, Charged;
    P.CountedAsMultisets(s.pool);
    GatherNone(P.BusyPart(), s.pool.workers);
    assert multiset(s.pool.accepted) == multiset(s.pool.processed + s.pool.late);
    GatherOfSameElements(EventUnits(x), s.pool.accepted, s.pool.processed + s.pool.late);
    GatherJoin(EventUnits(x), s.pool.processed, s.pool.late);
  }

  /** Settled metrics in units, split by outcome. */
  lemma SettledSplits(s: State, x: B.Id)
    ensures multiset(Gather(MetricUnits(), B.SettledOf(s.mgr, x))) ==
      multiset(SettledUnits(s, x, true)) + multiset(SettledUnits(s, x, false))
  {
    hide Gather;
    GatherOfGathered(MetricUnits(), B.SettledPart(x), BatchUnits(x), s.mgr.settled);
    assert Gather(MetricUnits(), []) == [] by { GatherNone(MetricUnits(), []); }
    forall q ensures
      multiset(Gather(MetricUnits(), B.SettledOf(s.mgr, x)))[q] ==
      (multiset(SettledUnits(s, x, true)) + multiset(SettledUnits(s, x, false)))[q]
    {
      GatherSplits(BatchUnits(x), OutcomeUnits(x, true), OutcomeUnits(x, false), s.mgr.settled, q);
    }
  }

  lemma AddedUnits(s: State, x: B.Id)
    ensures Gather(MetricUnits(), B.AddsOf(s.mgr, x)) == Gather(EntryUnits(x), s.mgr.accepted)
  {
    forall e: B.Entry ensures EntryUnits(x)(e) == Gather(MetricUnits(), B.AddedPart(x)(e)) {
      GatherPush(MetricUnits(), [], e.metric);
      assert [] + [e.metric] == [e.metric];
    }
    GatherOfGathered(MetricUnits(), B.AddedPart(x), EntryUnits(x), s.mgr.accepted);
  }

  lemma ShutdownSettled(s: State, x: B.Id)
    requires Inv(s) && ManagerDone(s.phase)
    ensures s.pool.queue == s.pool.late && B.BufferOf(s.mgr, x) == []
    ensures multiset(UnitsOf(s.pool.accepted, x)) ==
      multiset(SettledUnits(s, x, true)) + multiset(SettledUnits(s, x, false)) + multiset(UnitsOf(s.pool.late, x))
  {
    hide Gather, Inv;
    ManagerIsEmpty(s, x);
    ChargesMatch(s, x);
    AcceptedUnits(s, x);
    AddedUnits(s, x);
    GatherOfSameElements(MetricUnits(), B.AddsOf(s.mgr, x), B.SettledOf(s.mgr, x));
    SettledSplits(s, x);
  }

  /**
    After the shutdown, for every subscription item: the queue holds only what was
    submitted after the last worker had exited, buffers are empty, and every other
    accepted unit is in exactly one acknowledged or dead-lettered batch.
  */
  lemma ShutdownSettlesEverything(workers: nat, capacity: nat, size: int, events: seq<Event>, x: B.Id)
    requires workers > 0 && Legal(Init(workers, capacity, size), events)
    requires ManagerDone(Exec(Init(workers, capacity, size), events).phase)
    ensures var s := Exec(Init(workers, capacity, size), events);
      && s.pool.queue == s.pool.late
      && B.BufferOf(s.mgr, x) == []
      && multiset(UnitsOf(s.pool.accepted, x)) ==
           multiset(SettledUnits(s, x, true)) + multiset(SettledUnits(s, x, false)) + multiset(UnitsOf(s.pool.late, x))
  {
    hide Inv;
    InitInv(workers, capacity, size);
    RunKeepsInv(Init(workers, capacity, size), events);
    ShutdownSettled(Exec(Init(workers, capacity, size), events), x);
  }

  /** The sum of the given units. */
  function Total(units: seq<int>): int { Sum(Identity(), units) }

  lemma SettledTotals(s: State, x: B.Id)
    requires Inv(s) && ManagerDone(s.phase)
    ensures Total(UnitsOf(s.pool.accepted, x)) ==
      Total(SettledUnits(s, x, true)) + Total(SettledUnits(s, x, false)) + Total(UnitsOf(s.pool.late, x))
  {
    hide Gather, Sum, Inv;
    ShutdownSettled(s, x);
    var delivered, dead, late := SettledUnits(s, x, true), SettledUnits(s, x, false), UnitsOf(s.pool.late, x);
    SumOfSameElements(Identity(), UnitsOf(s.pool.accepted, x), delivered + dead + late);
    SumJoin(Identity(), delivered + dead, late);
    SumJoin(Identity(), delivered, dead);
  }

  /** The same in totals: accepted = acknowledged + dead-lettered + late. */
  lemma ShutdownBalancesTotals(workers: nat, capacity: nat, size: int, events: seq<Event>, x: B.Id)
    requires workers > 0 && Legal(Init(workers, capacity, size), events)
    requires ManagerDone(Exec(Init(workers, capacity, size), events).phase)
    ensures var s := Exec(Init(workers, capacity, size), events);
      Total(UnitsOf(s.pool.accepted, x)) ==
        Total(SettledUnits(s, x, true)) + Total(SettledUnits(s, x, false)) + Total(UnitsOf(s.pool.late, x))
  {
    hide Inv;
    InitInv(workers, capacity, size);
    RunKeepsInv(Init(workers, capacity, size), events);
    SettledTotals(Exec(Init(workers, capacity, size), events), x);
  }

  /** No usage request is handled once main has cancelled the pool. */
  predicate NoneHandledAfterCancel(s: State, events: seq<Event>)
    requires Legal(s, events)
    decreases |events|
  {
    events == [] ||
    ((!s.phase.Serving? ==> !events[0].Handle?) && NoneHandledAfterCancel(Apply(s, events[0]), events[1..]))
  }

  lemma StepAddsNothingLate(s: State, e: Event)
    requires Inv(s) && Enabled(s, e) && (!s.phase.Serving? ==> !e.Handle?) && s.pool.late == []
    ensures Apply(s, e).pool.late == []
  {
    hide Owned, Clean, Charged, Drain.Rooted, Conservation.Conserved;
    if P.AllExited(s.pool) {
      assert P.LeftSelect(s.pool.workers[0]);
    }
  }

  lemma {:induction false} NothingLate(s: State, events: seq<Event>)
    requires Legal(s, events) && Inv(s) && NoneHandledAfterCancel(s, events) && s.pool.late == []
    ensures Exec(s, events).pool.late == []
    decreases |events|
  {
    if events != [] {
      hide Inv, Apply, Enabled;
      StepKeepsInv(s, events[0]);
      StepAddsNothingLate(s, events[0]);
      NothingLate(Apply(s, events[0]), events[1..]);
    }
  }

  /** If requests stop before the cancellation, the shutdown leaves nothing behind anywhere. */
  lemma CleanShutdown(workers: nat, capacity: nat, size: int, events: seq<Event>, x: B.Id)
    requires workers > 0 && Legal(Init(workers, capacity, size), events)
    requires ManagerDone(Exec(Init(workers, capacity, size), events).phase)
    requires NoneHandledAfterCancel(Init(workers, capacity, size), events)
    ensures var s := Exec(Init(workers, capacity, size), events);
      && s.pool.queue == []
      && B.BufferOf(s.mgr, x) == []
      && multiset(UnitsOf(s.pool.accepted, x)) ==
           multiset(SettledUnits(s, x, true)) + multiset(SettledUnits(s, x, false))
  {
    InitInv(workers, capacity, size);
    NothingLate(Init(workers, capacity, size), events);
    ShutdownSettlesEverything(workers, capacity, size, events, x);
    assert UnitsOf([], x) == [];
  }
}
