/** No metric is lost, duplicated or, without overlapping batches, reordered. */
module BatchConservation {
  import opened Gathering
  import opened BatchProtocol

  /** Every accepted occurrence of `m` is settled, carried, in the loop's snapshot or buffered, exactly once. */
  ghost predicate Balanced(s: State, x: Id, m: Metric) {
    Times(AddsOf(s, x), m) ==
      Times(SettledOf(s, x), m) + Times(HeldOf(s, x), m) + Times(TodoOf(s, x), m) + Times(BufferOf(s, x), m)
  }

  ghost predicate Conserved(s: State, x: Id) {
    forall m :: Balanced(s, x, m)
  }

  lemma AddBalances(s: State, id: Id, metric: Metric, x: Id, m: Metric)
    requires Balanced(s, x, m)
    ensures Balanced(ApplyAdd(s, id, metric), x, m)
  {
    hide Gather, Times;
    if !s.cancelled {
      TimesNone(m);
      TimesJoin(BufferOf(s, id), [metric], m);
      GatherPushTimes(AddedPart(x), s.accepted, Entry(id, metric), m);
      GatherPushTimes(HeldPart(x), s.agents, Handoff(id, BufferOf(s, id) + [metric]), m);
    }
  }

  lemma ReturnBalances(s: State, g: nat, ok: bool, x: Id, m: Metric)
    requires g < |s.agents| && s.agents[g].Processing? && Balanced(s, x, m)
    ensures Balanced(ApplyReturn(s, g, ok), x, m)
  {
    hide Gather, Times;
    var job := s.agents[g].job;
    TimesNone(m);
    if ok || job.attempt >= MAX_BATCH_ATTEMPTS || s.cancelled {
      GatherReplace(HeldPart(x), s.agents, g, Ended, m);
      GatherPushTimes(SettledPart(x), s.settled, Settled(job.id, job.metrics, ok, g), m);
    } else {
      GatherReplace(HeldPart(x), s.agents, g, Requeueing(job), m);
    }
  }

  lemma RequeueBalances(s: State, g: nat, x: Id, m: Metric)
    requires Enabled(s, Requeue(g)) && Balanced(s, x, m)
    ensures Balanced(Apply(s, Requeue(g)), x, m)
  {
    hide Gather, Times;
    var job := s.agents[g].job;
    TimesNone(m);
    TimesJoin(job.metrics, BufferOf(s, job.id), m);
    GatherReplace(HeldPart(x), s.agents, g, Spawning(job.id, job.attempt, job.root), m);
  }

  lemma SpawnBalances(s: State, g: nat, x: Id, m: Metric)
    requires Enabled(s, Spawn(g)) && Balanced(s, x, m)
    ensures Balanced(Apply(s, Spawn(g)), x, m)
  {
    hide Gather, Times;
    var t := s.agents[g];
    TimesNone(m);
    GatherReplace(HeldPart(x), s.agents, g, Ended, m);
    GatherPushTimes(HeldPart(x), s.agents[g := Ended], Sleeping(t.id, t.attempt + 1, t.root), m);
  }

  lemma WakeBalances(s: State, g: nat, x: Id, m: Metric)
    requires Enabled(s, Wake(g)) && Balanced(s, x, m)
    ensures Balanced(ApplyWake(s, g), x, m)
  {
    hide Gather, Times;
    TimesNone(m);
    GatherReplace(HeldPart(x), s.agents, g, ApplyWake(s, g).agents[g], m);
  }

  lemma StepBalances(s: State, e: Event, x: Id, m: Metric)
    requires Enabled(s, e) && Balanced(s, x, m)
    ensures Balanced(Apply(s, e), x, m)
  {
    hide Gather, Times;
    TimesNone(m);
    match e
    case Add(id, metric) => AddBalances(s, id, metric, x, m);
    case Launch(g) => GatherReplace(HeldPart(x), s.agents, g, Apply(s, e).agents[g], m);
    case Tick(final) =>
    case TakeNext(id) => GatherReplace(HeldPart(x), s.agents, 0, Apply(s, e).agents[0], m);
    case LoopEnd =>
    case Return(g, ok) => ReturnBalances(s, g, ok, x, m);
    case Requeue(g) => RequeueBalances(s, g, x, m);
    case Spawn(g) => SpawnBalances(s, g, x, m);
    case Wake(g) => WakeBalances(s, g, x, m);
    case Cancel =>
    case CloseDone =>
  }

  lemma {:induction false} RunBalances(s: State, events: seq<Event>, x: Id, m: Metric)
    requires Legal(s, events) && Balanced(s, x, m)
    ensures Balanced(Exec(s, events), x, m)
    decreases |events|
  {
    if events != [] {
      StepBalances(s, events[0], x, m);
      RunBalances(Apply(s, events[0]), events[1..], x, m);
    }
  }

  /**
    In every reachable state and for every ID, nothing accepted is lost and
    nothing is in two places at once.
  */
  lemma NothingLost(size: int, events: seq<Event>, x: Id)
    requires Legal(Init(size), events)
    ensures var s := Exec(Init(size), events);
      multiset(AddsOf(s, x)) ==
        multiset(SettledOf(s, x)) + multiset(HeldOf(s, x)) + multiset(TodoOf(s, x)) + multiset(BufferOf(s, x))
  {
    var s := Exec(Init(size), events);
    forall m ensures Balanced(s, x, m) {
      RunBalances(Init(size), events, x, m);
    }
    ConservedAsMultisets(s, x);
  }

  lemma ConservedAsMultisets(s: State, x: Id)
    requires Conserved(s, x)
    ensures multiset(AddsOf(s, x)) ==
      multiset(SettledOf(s, x)) + multiset(HeldOf(s, x)) + multiset(TodoOf(s, x)) + multiset(BufferOf(s, x))
  {
    var places :=
      multiset(SettledOf(s, x)) + multiset(HeldOf(s, x)) + multiset(TodoOf(s, x)) + multiset(BufferOf(s, x));
    forall m ensures multiset(AddsOf(s, x))[m] == places[m] {
      assert Balanced(s, x, m);
    }
  }

  // ----- order

  ghost predicate Carries(t: Task, x: Id) { HeldPart(x)(t) != [] }

  /** At most one batch of `x` is out of the buffer and unsettled. */
  ghost predicate OneInFlight(s: State, x: Id) {
    && (forall g, h :: 0 <= g < h < |s.agents| ==> !(Carries(s.agents[g], x) && Carries(s.agents[h], x)))
    && (TodoOf(s, x) != [] ==> forall g :: 0 <= g < |s.agents| ==> !Carries(s.agents[g], x))
  }

  ghost predicate NeverOverlaps(s: State, events: seq<Event>, x: Id)
    requires Legal(s, events)
    decreases |events|
  {
    OneInFlight(s, x) && (events == [] || NeverOverlaps(Apply(s, events[0]), events[1..], x))
  }

  /** Settled batches, then the batch in flight, then the buffer spell out the Add calls. */
  ghost predicate InOrder(s: State, x: Id) {
    AddsOf(s, x) == SettledOf(s, x) + HeldOf(s, x) + TodoOf(s, x) + BufferOf(s, x)
  }

  /** With one batch in flight, the carried metrics are those of any goroutine that carries some. */
  lemma HeldByOne(s: State, x: Id, g: nat)
    requires g < |s.agents| && Carries(s.agents[g], x) && OneInFlight(s, x)
    ensures HeldOf(s, x) == HeldPart(x)(s.agents[g]) && TodoOf(s, x) == []
    ensures forall h :: 0 <= h < |s.agents| && h != g ==> HeldPart(x)(s.agents[h]) == []
  {
    forall h | 0 <= h < |s.agents| && h != g
      ensures HeldPart(x)(s.agents[h]) == []
    {
      assert Carries(s.agents[h], x) <==> HeldPart(x)(s.agents[h]) != [];
    }
    GatherOne(HeldPart(x), s.agents, g);
  }

  /** Replacing a goroutine's task by one that carries the same metrics of `x` changes nothing for `x`. */
  lemma SameLoad(s: seq<Task>, g: nat, t: Task, x: Id)
    requires g < |s| && HeldPart(x)(s[g]) == HeldPart(x)(t)
    ensures Gather(HeldPart(x), s[g := t]) == Gather(HeldPart(x), s)
  {
    var u := s[g := t];
    assert u[..g] == s[..g] && u[g + 1..] == s[g + 1..];
    GatherAround(HeldPart(x), s, g);
    GatherAround(HeldPart(x), u, g);
  }

  /** The only carrier puts its metrics down. */
  lemma Unload(s: State, g: nat, t: Task, x: Id)
    requires g < |s.agents| && Carries(s.agents[g], x) && !Carries(t, x) && OneInFlight(s, x)
    ensures Gather(HeldPart(x), s.agents[g := t]) == []
  {
    HeldByOne(s, x, g);
    GatherOne(HeldPart(x), s.agents[g := t], g);
  }

  /** A goroutine picks up metrics of `x`; seen from the state after the step, it is the only carrier. */
  lemma Load(s: State, t: State, g: nat, x: Id)
    requires g < |s.agents| <= |t.agents| && t.agents == s.agents[g := t.agents[g]]
    requires !Carries(s.agents[g], x) && Carries(t.agents[g], x) && OneInFlight(t, x)
    ensures HeldOf(s, x) == []
  {
    HeldByOne(t, x, g);
    forall h | 0 <= h < |s.agents|
      ensures HeldPart(x)(s.agents[h]) == []
    {
      if h != g {
        assert t.agents[h] == s.agents[h];
      }
    }
    GatherNone(HeldPart(x), s.agents);
  }

  lemma RegroupMoved<T>(a: seq<T>, b: seq<T>, c: seq<T>)
    ensures a + b + [] + c == a + [] + [] + (b + c) == (a + b) + [] + [] + c
  {
  }

  lemma RegroupAdded<T>(a: seq<T>, b: seq<T>, c: seq<T>, d: seq<T>, m: T)
    ensures a + b + c + (d + [m]) == a + b + c + d + [m]
    ensures a + (d + [m]) + [] + [] == a + [] + [] + d + [m]
  {
  }

  lemma BufferedInOrder(s: State, id: Id, metric: Metric, x: Id)
    requires InOrder(s, x) && !s.cancelled && |BufferOf(s, id)| + 1 < s.size
    ensures InOrder(ApplyAdd(s, id, metric), x)
  {
    hide Gather;
    GatherPush(AddedPart(x), s.accepted, Entry(id, metric));
    RegroupAdded(SettledOf(s, x), HeldOf(s, x), TodoOf(s, x), BufferOf(s, x), metric);
  }

  /** A full buffer leaves as the only batch of its ID. */
  lemma TakenOutInOrder(s: State, id: Id, metric: Metric, x: Id)
    requires InOrder(s, x) && !s.cancelled && |BufferOf(s, id)| + 1 >= s.size
    requires OneInFlight(ApplyAdd(s, id, metric), x)
    ensures InOrder(ApplyAdd(s, id, metric), x)
  {
    hide Gather;
    var t := ApplyAdd(s, id, metric);
    GatherPush(AddedPart(x), s.accepted, Entry(id, metric));
    GatherPush(HeldPart(x), s.agents, Handoff(id, BufferOf(s, id) + [metric]));
    if x == id {
      assert Carries(t.agents[|s.agents|], x);
      HeldByOne(t, x, |s.agents|);
      HeldByNone(s, t, x);
      hide OneInFlight;
      assert TodoOf(t, x) == TodoOf(s, x) == [];
      RegroupAdded(SettledOf(s, x), HeldOf(s, x), TodoOf(s, x), BufferOf(s, x), metric);
    }
  }

  lemma AddInOrder(s: State, id: Id, metric: Metric, x: Id)
    requires InOrder(s, x) && OneInFlight(ApplyAdd(s, id, metric), x)
    ensures InOrder(ApplyAdd(s, id, metric), x)
  {
    hide InOrder, OneInFlight;
    if !s.cancelled {
      if |BufferOf(s, id)| + 1 < s.size {
        BufferedInOrder(s, id, metric, x);
      } else {
        TakenOutInOrder(s, id, metric, x);
      }
    }
  }

  /** Goroutines that carry nothing after a step that leaves them alone carried nothing before. */
  lemma HeldByNone(s: State, t: State, x: Id)
    requires |s.agents| < |t.agents| && s.agents == t.agents[..|s.agents|]
    requires forall h :: 0 <= h < |s.agents| ==> HeldPart(x)(t.agents[h]) == []
    ensures HeldOf(s, x) == []
  {
    forall h | 0 <= h < |s.agents| ensures HeldPart(x)(s.agents[h]) == [] {
      assert t.agents[h] == s.agents[h];
    }
    GatherNone(HeldPart(x), s.agents);
  }

  lemma SettleInOrder(s: State, g: nat, ok: bool, x: Id)
    requires g < |s.agents| && s.agents[g].Processing? && InOrder(s, x) && OneInFlight(s, x)
    ensures var job := s.agents[g].job;
      InOrder(s.(agents := s.agents[g := Ended], settled := s.settled + [Settled(job.id, job.metrics, ok, g)]), x)
  {
    hide Gather;
    var job := s.agents[g].job;
    GatherPush(SettledPart(x), s.settled, Settled(job.id, job.metrics, ok, g));
    if Carries(s.agents[g], x) {
      HeldByOne(s, x, g);
      Unload(s, g, Ended, x);
      RegroupMoved(SettledOf(s, x), job.metrics, BufferOf(s, x));
    } else {
      SameLoad(s.agents, g, Ended, x);
    }
  }

  lemma ReturnInOrder(s: State, g: nat, ok: bool, x: Id)
    requires g < |s.agents| && s.agents[g].Processing? && InOrder(s, x) && OneInFlight(s, x)
    ensures InOrder(ApplyReturn(s, g, ok), x)
  {
    hide Gather;
    SettleInOrder(s, g, ok, x);
    SameLoad(s.agents, g, Requeueing(s.agents[g].job), x);
  }

  /** The one batch in flight goes back in front of the buffer. */
  lemma PutBackInOrder(s: State, g: nat, x: Id)
    requires g < |s.agents| && s.agents[g].Requeueing? && InOrder(s, x) && OneInFlight(s, x)
    requires s.agents[g].job.id == x && s.agents[g].job.metrics != []
    ensures InOrder(Apply(s, Requeue(g)), x)
  {
    hide Gather;
    var job := s.agents[g].job;
    assert Carries(s.agents[g], x);
    HeldByOne(s, x, g);
    Unload(s, g, Spawning(job.id, job.attempt, job.root), x);
    hide OneInFlight, Carries;
    RegroupMoved(SettledOf(s, x), job.metrics, BufferOf(s, x));
  }

  lemma RequeueInOrder(s: State, g: nat, x: Id)
    requires g < |s.agents| && s.agents[g].Requeueing? && InOrder(s, x) && OneInFlight(s, x)
    ensures InOrder(Apply(s, Requeue(g)), x)
  {
    hide Gather, OneInFlight;
    var job := s.agents[g].job;
    if job.id == x && job.metrics != [] {
      PutBackInOrder(s, g, x);
    } else {
      SameLoad(s.agents, g, Spawning(job.id, job.attempt, job.root), x);
      assert job.id == x ==> job.metrics + BufferOf(s, x) == BufferOf(s, x);
    }
  }

  lemma WakeInOrder(s: State, g: nat, x: Id)
    requires Enabled(s, Wake(g)) && InOrder(s, x) && OneInFlight(ApplyWake(s, g), x)
    ensures InOrder(ApplyWake(s, g), x)
  {
    hide Gather;
    var t := ApplyWake(s, g);
    if Carries(t.agents[g], x) {
      Load(s, t, g, x);
      HeldByOne(t, x, g);
    } else {
      SameLoad(s.agents, g, t.agents[g], x);
    }
  }

  lemma TakeNextInOrder(s: State, id: Id, x: Id)
    requires Enabled(s, TakeNext(id)) && InOrder(s, x) && OneInFlight(Apply(s, TakeNext(id)), x)
    ensures InOrder(Apply(s, TakeNext(id)), x)
  {
    hide Gather;
    var t := Apply(s, TakeNext(id));
    if Carries(t.agents[0], x) {
      Load(s, t, 0, x);
      HeldByOne(t, x, 0);
    } else {
      SameLoad(s.agents, 0, t.agents[0], x);
    }
  }

  lemma LaunchInOrder(s: State, g: nat, x: Id)
    requires Enabled(s, Launch(g)) && InOrder(s, x)
    ensures InOrder(Apply(s, Launch(g)), x)
  {
    hide Gather;
    SameLoad(s.agents, g, Apply(s, Launch(g)).agents[g], x);
  }

  lemma SpawnInOrder(s: State, g: nat, x: Id)
    requires Enabled(s, Spawn(g)) && InOrder(s, x)
    ensures InOrder(Apply(s, Spawn(g)), x)
  {
    hide Gather;
    var t := s.agents[g];
    SameLoad(s.agents, g, Ended, x);
    GatherPush(HeldPart(x), s.agents[g := Ended], Sleeping(t.id, t.attempt + 1, t.root));
  }

  lemma TickInOrder(s: State, final: bool, x: Id)
    requires Enabled(s, Tick(final)) && InOrder(s, x)
    ensures InOrder(Apply(s, Tick(final)), x)
  {
    hide Gather;
  }

  lemma OtherInOrder(s: State, e: Event, x: Id)
    requires Enabled(s, e) && InOrder(s, x) && (e.LoopEnd? || e.Cancel? || e.CloseDone?)
    ensures InOrder(Apply(s, e), x)
  {
    hide Gather;
  }

  lemma StepInOrder(s: State, e: Event, x: Id)
    requires Enabled(s, e) && InOrder(s, x) && OneInFlight(s, x) && OneInFlight(Apply(s, e), x)
    ensures InOrder(Apply(s, e), x)
  {
    hide InOrder, OneInFlight;
    match e
    case Add(id, metric) => AddInOrder(s, id, metric, x);
    case Launch(g) => LaunchInOrder(s, g, x);
    case Tick(final) => TickInOrder(s, final, x);
    case TakeNext(id) => TakeNextInOrder(s, id, x);
    case Return(g, ok) => ReturnInOrder(s, g, ok, x);
    case Requeue(g) => RequeueInOrder(s, g, x);
    case Spawn(g) => SpawnInOrder(s, g, x);
    case Wake(g) => WakeInOrder(s, g, x);
    case _ => OtherInOrder(s, e, x);
  }

  lemma {:induction false} RunInOrder(s: State, events: seq<Event>, x: Id)
    requires Legal(s, events) && InOrder(s, x) && NeverOverlaps(s, events, x)
    ensures InOrder(Exec(s, events), x)
    decreases |events|
  {
    if events != [] {
      var t := Apply(s, events[0]);
      assert OneInFlight(t, x);
      StepInOrder(s, events[0], x);
      RunInOrder(t, events[1..], x);
    }
  }

  /** As long as no two batches of `x` overlap, retries never let a later metric overtake an earlier one. */
  lemma OrderPreserved(size: int, events: seq<Event>, x: Id)
    requires Legal(Init(size), events) && NeverOverlaps(Init(size), events, x)
    ensures InOrder(Exec(Init(size), events), x)
  {
    RunInOrder(Init(size), events, x);
  }

  /** Two full batches of `x` are started one after the other. */
  lemma TwoInFlight(x: Id, a: Metric, b: Metric) returns (s: State)
    ensures var events := [Add(x, a), Launch(1), Add(x, b), Launch(2)];
      Legal(Init(1), events) && s == Exec(Init(1), events)
    ensures s.agents == [Ended, Processing(Job(x, [a], 1, 0)), Processing(Job(x, [b], 1, 1))]
    ensures s.accepted == [Entry(x, a), Entry(x, b)] && s.settled == []
  {
    hide Legal, Exec;
    var s1 := Apply(Init(1), Add(x, a));
    assert [] + [a] == [a] && [] + [b] == [b];
    assert s1.agents == [Ended, Handoff(x, [a])];
    var s2 := Apply(s1, Launch(1));
    var s3 := Apply(s2, Add(x, b));
    assert s3.agents == [Ended, Processing(Job(x, [a], 1, 0)), Handoff(x, [b])];
    s := Apply(s3, Launch(2));
    assert s.agents == [Ended, Processing(Job(x, [a], 1, 0)), Processing(Job(x, [b], 1, 1))];
    assert s.accepted == [Entry(x, a), Entry(x, b)];
    EmptyRun(s);
    ExecStep(s3, Launch(2), []);
    assert [Launch(2)] + [] == [Launch(2)];
    ExecStep(s2, Add(x, b), [Launch(2)]);
    assert [Add(x, b)] + [Launch(2)] == [Add(x, b), Launch(2)];
    ExecStep(s1, Launch(1), [Add(x, b), Launch(2)]);
    assert [Launch(1)] + [Add(x, b), Launch(2)] == [Launch(1), Add(x, b), Launch(2)];
    ExecStep(Init(1), Add(x, a), [Launch(1), Add(x, b), Launch(2)]);
    assert [Add(x, a)] + [Launch(1), Add(x, b), Launch(2)] == [Add(x, a), Launch(1), Add(x, b), Launch(2)];
  }

  /** With two batches of `x` in flight, a later metric can settle before an earlier one. */
  lemma OverlapCanReorder(x: Id, a: Metric, b: Metric)
    requires a != b
    ensures var events := [Add(x, a), Launch(1), Add(x, b), Launch(2)] + [Return(2, true), Return(1, true)];
      && Legal(Init(1), events)
      && AddsOf(Exec(Init(1), events), x) == [a, b]
      && SettledOf(Exec(Init(1), events), x) == [b, a]
      && !InOrder(Exec(Init(1), events), x)
  {
    hide Legal, Exec, Gather;
    var s := TwoInFlight(x, a, b);
    var t := Apply(s, Return(2, true));
    var u := Apply(t, Return(1, true));
    EmptyRun(u);
    ExecStep(t, Return(1, true), []);
    assert [Return(1, true)] + [] == [Return(1, true)];
    ExecStep(s, Return(2, true), [Return(1, true)]);
    assert [Return(2, true)] + [Return(1, true)] == [Return(2, true), Return(1, true)];
    ExecJoin(Init(1), [Add(x, a), Launch(1), Add(x, b), Launch(2)], [Return(2, true), Return(1, true)]);
    GatherPair(SettledPart(x), Settled(x, [b], true, 2), Settled(x, [a], true, 1));
    GatherPair(AddedPart(x), Entry(x, a), Entry(x, b));
    assert u.settled == [Settled(x, [b], true, 2), Settled(x, [a], true, 1)] && u.accepted == s.accepted;
    assert SettledOf(u, x) == [b] + [a] && AddsOf(u, x) == [a] + [b];
    assert (SettledOf(u, x) + HeldOf(u, x) + TodoOf(u, x) + BufferOf(u, x))[0] == b;
  }
}
