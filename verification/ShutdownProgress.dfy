/**
  The shutdown can always be completed: from every reachable state of the usage service
  there is a way for main to return, without a further request.
*/
module ShutdownProgress {
  import opened Gathering
  import opened Pipeline
  import P = WorkerPool
  import B = BatchProtocol
  import Drain = BatchDrain
  import Stop = BatchStop

  lemma EmptyRun(s: State)
    ensures Legal(s, []) && Exec(s, []) == s
  {
  }

  lemma ExecStep(s: State, e: Event, rest: seq<Event>)
    requires Enabled(s, e) && Legal(Apply(s, e), rest)
    ensures Legal(s, [e] + rest) && Exec(s, [e] + rest) == Exec(Apply(s, e), rest)
  {
    assert ([e] + rest)[1..] == rest;
  }

  predicate NoRequests(events: seq<Event>) {
    forall i :: 0 <= i < |events| ==> !events[i].Handle?
  }

  /** `events` lead from `s` to `t` without a request, and `t` is as good as any reachable state. */
  ghost predicate Leads(s: State, events: seq<Event>, t: State) {
    Legal(s, events) && t == Exec(s, events) && Inv(t) && NoRequests(events)
  }

  lemma LeadsNowhere(s: State)
    requires Inv(s)
    ensures Leads(s, [], s)
  {
  }

  lemma StepLeads(s: State, e: Event, rest: seq<Event>, t: State)
    requires Enabled(s, e) && !e.Handle? && Leads(Apply(s, e), rest, t)
    ensures Leads(s, [e] + rest, t)
  {
    ExecStep(s, e, rest);
  }

  lemma {:induction false} JoinLeads(s: State, a: seq<Event>, t: State, b: seq<Event>, u: State)
    requires Leads(s, a, t) && Leads(t, b, u)
    ensures Leads(s, a + b, u)
    decreases |a|
  {
    hide Apply, Enabled, Inv;
    if a == [] {
      assert a + b == b;
    } else {
      assert Leads(Apply(s, a[0]), a[1..], t) by {
        assert forall i :: 0 <= i < |a[1..]| ==> a[1..][i] == a[i + 1];
      }
      JoinLeads(Apply(s, a[0]), a[1..], t, b, u);
      StepLeads(s, a[0], a[1..] + b, u);
      assert a + b == [a[0]] + (a[1..] + b);
    }
  }

  // ----- the workers

  lemma EffortLeft(s: P.State)
    ensures 0 <= P.Measure(s)
  {
    SumNonNegative(P.Effort(), s.workers);
  }

  /** The next step of a worker that has not exited, once the context is cancelled. */
  function WorkerStep(s: State, w: nat): Event
    requires w < |s.pool.workers| && !s.pool.workers[w].Exited?
  {
    match s.pool.workers[w]
    case Ready => Pool(P.SeeCancel(w))
    case Draining => if s.pool.queue == [] then Pool(P.Quit(w)) else Pool(P.Take(w))
    case Busy(_, _, passed) =>
      if w in s.launching then Start(w) else if passed then Pool(P.Return(w)) else Track(w, 0)
  }

  lemma WorkerAdvances(s: State, w: nat)
    requires Owned(s) && s.pool.cancelled && w < |s.pool.workers| && !s.pool.workers[w].Exited?
    ensures var e := WorkerStep(s, w);
      && Enabled(s, e) && !e.Handle?
      && Apply(s, e).phase == s.phase && Apply(s, e).pool.cancelled
      && (if e.Start? then Apply(s, e).pool == s.pool && |Apply(s, e).launching| < |s.launching|
          else P.Measure(Apply(s, e).pool) < P.Measure(s.pool))
  {
    hide P.Measure, P.Apply;
    match WorkerStep(s, w)
    case Start(_) => StartAdvances(s, w);
    case Pool(p) => P.StepDrains(s.pool, p);
    case Track(_, _) => TrackAdvances(s, w);
  }

  lemma StartAdvances(s: State, w: nat)
    requires Owned(s) && w in s.launching
    ensures Enabled(s, Start(w)) && |Apply(s, Start(w)).launching| < |s.launching|
  {
    Drain.OneLess(s.launching, w);
  }

  lemma TrackAdvances(s: State, w: nat)
    requires Enabled(s, Track(w, 0)) && s.pool.cancelled
    ensures P.Measure(Apply(s, Track(w, 0)).pool) < P.Measure(s.pool) && Apply(s, Track(w, 0)).pool.cancelled
  {
    hide P.Measure;
    P.StepDrains(s.pool, P.Pass(w));
    P.StepDrains(s.pool, P.Return(w));
  }

  lemma {:induction false} WorkersFinish(s: State) returns (events: seq<Event>, t: State)
    requires Inv(s) && s.pool.cancelled
    ensures Leads(s, events, t) && t.phase == s.phase && P.AllExited(t.pool)
    decreases P.Measure(s.pool), |s.launching|
  {
    assert Owned(s);
    hide Inv, P.Measure, Owned, Enabled, Apply, WorkerStep, Leads;
    LeadsNowhere(s);
    events, t := [], s;
    if w: nat :| w < |s.pool.workers| && !s.pool.workers[w].Exited? {
      var e := WorkerStep(s, w);
      WorkerAdvances(s, w);
      StepKeepsInv(s, e);
      EffortLeft(Apply(s, e).pool);
      var rest;
      rest, t := WorkersFinish(Apply(s, e));
      StepLeads(s, e, rest, t);
      events := [e] + rest;
    }
  }

  // ----- the manager

  /** A step that finishes the flush the loop is in. */
  lemma FlushGoesOn(m: B.State) returns (e: B.Event)
    requires Drain.Rooted(m) && !Drain.Final(m) && !(m.loop.Waiting? && B.LoopFree(m))
    ensures B.Enabled(m, e) && !(e.Add? || e.Launch? || e.Cancel? || e.CloseDone? || e.Tick?)
    ensures !Drain.Final(B.Apply(m, e))
  {
    if !m.agents[0].Ended? {
      e := Drain.NextEvent(m.agents[0], 0);
    } else if id :| id in m.loop.todo {
      e := B.TakeNext(id);
    } else {
      assert m.loop.todo == map[];
      e := B.LoopEnd;
    }
  }

  lemma ManagerRooted(s: State)
    requires Inv(s)
    ensures Drain.Rooted(s.mgr)
  {
  }

  lemma ManagerSteps(s: State, m: B.Event)
    requires Inv(s) && B.Enabled(s.mgr, m) && !(m.Add? || m.Launch? || m.Cancel? || m.CloseDone?)
    ensures Enabled(s, Manager(m)) && Inv(Apply(s, Manager(m)))
    ensures Apply(s, Manager(m)) == s.(mgr := B.Apply(s.mgr, m))
  {
    StepKeepsInv(s, Manager(m));
    hide Inv;
  }

  /** The flush under way comes to its end. */
  lemma {:induction false} FlushFinishes(s: State) returns (events: seq<Event>, t: State)
    requires Inv(s) && !Drain.Final(s.mgr)
    ensures Leads(s, events, t) && t.phase == s.phase && t.mgr.loop.Waiting? && B.LoopFree(t.mgr)
    decreases Drain.Measure(s.mgr)
  {
    hide Inv, Drain.Measure, Drain.Rooted, Enabled, Apply, Leads, B.Apply, B.Enabled, Drain.Final;
    LeadsNowhere(s);
    events, t := [], s;
    if !(s.mgr.loop.Waiting? && B.LoopFree(s.mgr)) {
      ManagerRooted(s);
      var m := FlushGoesOn(s.mgr);
      ManagerSteps(s, m);
      Drain.StepLowers(s.mgr, m);
      Drain.StepKeepsRooted(s.mgr, m);
      Drain.MeasureNonNegative(B.Apply(s.mgr, m));
      var rest;
      rest, t := FlushFinishes(Apply(s, Manager(m)));
      StepLeads(s, Manager(m), rest, t);
      events := [Manager(m)] + rest;
    }
  }

  /** After the final snapshot the wait group comes down to zero. */
  lemma {:induction false} ManagerQuiets(s: State) returns (events: seq<Event>, t: State)
    requires Inv(s) && Drain.Final(s.mgr)
    ensures Leads(s, events, t) && t.phase == s.phase && Drain.Quiet(t.mgr)
    decreases Drain.Measure(s.mgr)
  {
    hide Inv, Drain.Measure, Drain.Rooted, Enabled, Apply, Leads, B.Apply, B.Enabled;
    LeadsNowhere(s);
    events, t := [], s;
    if !Drain.Quiet(s.mgr) {
      ManagerRooted(s);
      var m := Stop.NextQuietly(s.mgr);
      ManagerSteps(s, m);
      Drain.StepDrains(s.mgr, m);
      Drain.StepKeepsRooted(s.mgr, m);
      Drain.MeasureNonNegative(B.Apply(s.mgr, m));
      var rest;
      rest, t := ManagerQuiets(Apply(s, Manager(m)));
      StepLeads(s, Manager(m), rest, t);
      events := [Manager(m)] + rest;
    }
  }

  lemma StoppedWhenStopping(s: State)
    requires Inv(s) && s.phase.ManagerStopping?
    ensures s.mgr.stopped
  {
  }

  lemma ManagerFinishes(s: State) returns (events: seq<Event>, t: State)
    requires Inv(s) && s.phase.ManagerStopping?
    ensures Leads(s, events, t) && t.phase == s.phase && Drain.Quiet(t.mgr)
  {
    hide Inv, Enabled, Apply, Leads, Drain.Quiet;
    if Drain.Final(s.mgr) {
      events, t := ManagerQuiets(s);
    } else {
      var first, u := FlushFinishes(s);
      assert Inv(u) by { EndsWell(s, first, u); }
      StoppedWhenStopping(u);
      ManagerSteps(u, B.Tick(true));
      var rest;
      rest, t := ManagerQuiets(Apply(u, Manager(B.Tick(true))));
      StepLeads(u, Manager(B.Tick(true)), rest, t);
      JoinLeads(s, first, u, [Manager(B.Tick(true))] + rest, t);
      events := first + ([Manager(B.Tick(true))] + rest);
    }
  }

  lemma EndsWell(s: State, events: seq<Event>, t: State)
    requires Leads(s, events, t)
    ensures Inv(t)
  {
  }

  // ----- main

  /** What main is waiting for comes about. */
  lemma MainGetsReady(s: State) returns (events: seq<Event>, t: State)
    requires Inv(s) && !s.phase.Finished?
    ensures Leads(s, events, t) && t.phase == s.phase && MainReady(t)
  {
    assert s.phase.PoolCancelled? ==> s.pool.cancelled;
    hide Inv, Leads;
    LeadsNowhere(s);
    events, t := [], s;
    if s.phase.PoolCancelled? {
      events, t := WorkersFinish(s);
    } else if s.phase.ManagerStopping? {
      events, t := ManagerFinishes(s);
    }
  }

  function Rank(phase: Phase): nat {
    match phase
    case Serving => 5
    case PoolCancelled => 4
    case PoolStopped => 3
    case ManagerStopping => 2
    case ManagerStopped => 1
    case Finished => 0
  }

  lemma {:induction false} MainReturns(s: State) returns (events: seq<Event>, t: State)
    requires Inv(s)
    ensures Leads(s, events, t) && t.phase.Finished?
    decreases Rank(s.phase)
  {
    hide Inv, Leads;
    LeadsNowhere(s);
    events, t := [], s;
    if !s.phase.Finished? {
      var first, u := MainGetsReady(s);
      assert Inv(u) by { EndsWell(s, first, u); }
      StepKeepsInv(u, Main);
      var rest;
      rest, t := MainReturns(Apply(u, Main));
      StepLeads(u, Main, rest, t);
      JoinLeads(s, first, u, [Main] + rest, t);
      events := first + ([Main] + rest);
    }
  }

  /** From every reachable state, whatever is queued, in flight or failing, main can still return. */
  lemma ShutdownCanFinish(workers: nat, capacity: nat, size: int, events: seq<Event>) returns (more: seq<Event>)
    requires workers > 0 && Legal(Init(workers, capacity, size), events)
    ensures var s := Exec(Init(workers, capacity, size), events);
      Legal(s, more) && NoRequests(more) && Exec(s, more).phase.Finished?
  {
    hide Inv;
    InitInv(workers, capacity, size);
    RunKeepsInv(Init(workers, capacity, size), events);
    var t;
    more, t := MainReturns(Exec(Init(workers, capacity, size), events));
  }
}
