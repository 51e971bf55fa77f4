/** Retry bounds, batch sizes, and the end of every shutdown. */
module BatchDrain {
  import opened Gathering
  import opened BatchProtocol
  import opened BatchConservation

  // ----- large or stranded buffers always have a retry goroutine

  predicate Retries(t: Task, id: Id) {
    (t.Sleeping? || t.Spawning?) && t.id == id
  }

  ghost predicate HasRetry(s: State, id: Id) {
    exists g :: 0 <= g < |s.agents| && Retries(s.agents[g], id)
  }

  /** Every buffer of at least `limit` metrics is about to be flushed by a live retry goroutine. */
  ghost predicate Covered(s: State, limit: int) {
    forall id :: |BufferOf(s, id)| >= limit ==> HasRetry(s, id)
  }

  /** A retry goroutine survives every step but its own flush. */
  lemma RetrySurvives(s: State, e: Event, id: Id)
    requires Enabled(s, e) && HasRetry(s, id)
    requires e.Wake? ==> s.agents[e.g].id != id
    ensures HasRetry(Apply(s, e), id)
  {
    var t := Apply(s, e);
    var g :| 0 <= g < |s.agents| && Retries(s.agents[g], id);
    if e == Spawn(g) {
      assert Retries(t.agents[|s.agents|], id);
    } else {
      assert t.agents[g] == s.agents[g];
      assert Retries(t.agents[g], id);
    }
  }

  lemma StepKeepsCovered(s: State, e: Event, limit: int)
    requires Enabled(s, e) && Covered(s, limit) && 1 <= limit
    requires e.Add? ==> s.size <= limit
    ensures Covered(Apply(s, e), limit)
  {
    var t := Apply(s, e);
    forall id | |BufferOf(t, id)| >= limit ensures HasRetry(t, id) {
      if e.Requeue? && s.agents[e.g].job.id == id {
        assert Retries(t.agents[e.g], id);
      } else {
        assert BufferOf(t, id) == BufferOf(s, id);
        RetrySurvives(s, e, id);
      }
    }
  }

  lemma {:induction false} RunKeepsCovered(s: State, events: seq<Event>, limit: int)
    requires Legal(s, events) && Covered(s, limit) && 1 <= limit
    requires s.size <= limit || forall i :: 0 <= i < |events| ==> !events[i].Add?
    ensures Covered(Exec(s, events), limit)
    decreases |events|
  {
    if events != [] {
      assert Apply(s, events[0]).size == s.size;
      StepKeepsCovered(s, events[0], limit);
      assert forall i :: 0 <= i < |events[1..]| ==> events[1..][i] == events[i + 1];
      RunKeepsCovered(Apply(s, events[0]), events[1..], limit);
    }
  }

  /** A buffer that has reached the batch size is never left without a retry goroutine. */
  lemma FullBuffersAreRetried(size: int, events: seq<Event>, id: Id)
    requires Legal(Init(size), events)
    ensures var s := Exec(Init(size), events);
      BufferOf(s, id) != [] && |BufferOf(s, id)| >= size ==> HasRetry(s, id)
  {
    RunKeepsCovered(Init(size), events, FullSize(size));
  }

  // ----- batch sizes while nothing fails

  /** How many metrics make a buffer full; a configured size below one acts like one. */
  function FullSize(size: int): nat {
    if size < 1 then 1 else size
  }

  predicate NoFailure(events: seq<Event>) {
    forall i :: 0 <= i < |events| ==> !(events[i].Return? && !events[i].ok)
  }

  /** A batch of the flush loop is smaller than `size`; a batch triggered by Add has exactly `size` metrics. */
  predicate SizedFor(agent: nat, n: int, size: int) {
    if agent == 0 then n < size else n == size
  }

  ghost predicate Sized(s: State) {
    && s.agents != []
    && (forall id :: id in s.buffer ==> |s.buffer[id]| < FullSize(s.size))
    && (s.loop.Flushing? ==> forall id :: id in s.loop.todo ==> |s.loop.todo[id]| < FullSize(s.size))
    && (forall g :: 0 <= g < |s.agents| ==> SizedTask(s.agents[g], g, FullSize(s.size)))
    && (forall i :: 0 <= i < |s.settled| ==> SizedFor(s.settled[i].agent, |s.settled[i].metrics|, FullSize(s.size)))
  }

  predicate SizedTask(t: Task, g: nat, size: int) {
    match t
    case Ended => true
    case Handoff(_, metrics) => g > 0 && |metrics| == size
    case Processing(job) => SizedFor(g, |job.metrics|, size)
    case _ => false
  }

  lemma StepKeepsSized(s: State, e: Event)
    requires Enabled(s, e) && Sized(s) && !(e.Return? && !e.ok)
    ensures Sized(Apply(s, e))
  {
    var t := Apply(s, e);
    if e.Launch? || e.Return? || e.Requeue? || e.Spawn? || e.Wake? {
      assert SizedTask(s.agents[e.g], e.g, FullSize(s.size));
    }
    forall g | 0 <= g < |t.agents| ensures SizedTask(t.agents[g], g, FullSize(s.size)) {
      if g < |s.agents| && t.agents[g] == s.agents[g] {
        assert SizedTask(s.agents[g], g, FullSize(s.size));
      }
    }
  }

  lemma {:induction false} RunKeepsSized(s: State, events: seq<Event>)
    requires Legal(s, events) && Sized(s) && NoFailure(events)
    ensures Sized(Exec(s, events))
    decreases |events|
  {
    if events != [] {
      StepKeepsSized(s, events[0]);
      assert forall i :: 0 <= i < |events[1..]| ==> events[1..][i] == events[i + 1];
      RunKeepsSized(Apply(s, events[0]), events[1..]);
    }
  }

  /**
    While no ProcessBatch call fails, buffers stay below the batch size, every batch
    flushed by Add has exactly that size and every batch of the flush loop is smaller.
  */
  lemma BatchSizesWithoutFailures(size: int, events: seq<Event>)
    requires Legal(Init(size), events) && NoFailure(events)
    ensures var s := Exec(Init(size), events);
      && (forall id :: |BufferOf(s, id)| < FullSize(size))
      && (forall i :: 0 <= i < |s.settled| ==>
            if s.settled[i].agent == 0 then |s.settled[i].metrics| < FullSize(size)
            else |s.settled[i].metrics| == FullSize(size))
  {
    RunKeepsSized(Init(size), events);
    var s := Exec(Init(size), events);
    RunKeepsSize(Init(size), events);
    assert forall i :: 0 <= i < |s.settled| ==> SizedFor(s.settled[i].agent, |s.settled[i].metrics|, FullSize(s.size));
  }

  lemma {:induction false} RunKeepsSize(s: State, events: seq<Event>)
    requires Legal(s, events)
    ensures Exec(s, events).size == s.size
    decreases |events|
  {
    if events != [] {
      RunKeepsSize(Apply(s, events[0]), events[1..]);
    }
  }

  // ----- at most five ProcessBatch calls per fresh flush

  predicate Live(t: Task) {
    t.Processing? || t.Requeueing? || t.Spawning? || t.Sleeping?
  }

  function RootOf(t: Task): nat
    requires Live(t)
  {
    if t.Processing? || t.Requeueing? then t.job.root else t.root
  }

  /** The attempt number of a live task is the number of calls its flush has caused, or is about to cause. */
  predicate Numbered(t: Task, calls: seq<nat>) {
    match t
    case Handoff(_, metrics) => metrics != []
    case Processing(job) =>
      job.root < |calls| && calls[job.root] == job.attempt && 1 <= job.attempt <= MAX_BATCH_ATTEMPTS
    case Requeueing(job) =>
      job.root < |calls| && calls[job.root] == job.attempt && 1 <= job.attempt < MAX_BATCH_ATTEMPTS
    case Spawning(_, attempt, root) =>
      root < |calls| && calls[root] == attempt && 1 <= attempt < MAX_BATCH_ATTEMPTS
    case Sleeping(_, attempt, root) =>
      root < |calls| && calls[root] == attempt - 1 && 2 <= attempt <= MAX_BATCH_ATTEMPTS
    case Ended => true
  }

  ghost predicate Rooted(s: State) {
    s.agents != [] && !s.agents[0].Handoff? && RootedTasks(s.agents, s.calls)
  }

  ghost predicate RootedTasks(agents: seq<Task>, calls: seq<nat>) {
    && (forall g :: 0 <= g < |agents| ==> Numbered(agents[g], calls))
    && (forall g, h :: 0 <= g < |agents| && 0 <= h < |agents| && g != h && Live(agents[g]) && Live(agents[h]) ==>
          RootOf(agents[g]) != RootOf(agents[h]))
    && (forall r :: 0 <= r < |calls| ==> calls[r] <= MAX_BATCH_ATTEMPTS)
  }

  /** A goroutine starts the first call of a fresh flush. */
  lemma FreshRoot(agents: seq<Task>, calls: seq<nat>, g: nat, job: Job)
    requires RootedTasks(agents, calls) && g < |agents| && !Live(agents[g])
    requires job.root == |calls| && job.attempt == 1
    ensures RootedTasks(agents[g := Processing(job)], calls + [1])
  {
    forall h | 0 <= h < |agents| && h != g ensures Numbered(agents[h], calls + [1]) {
      assert Numbered(agents[h], calls);
    }
    forall h | 0 <= h < |agents| && h != g && Live(agents[h]) ensures RootOf(agents[h]) < |calls| {
      assert Numbered(agents[h], calls);
    }
  }

  /** A goroutine moves on within the flush it works for; only that flush's count may change. */
  lemma SameRoot(agents: seq<Task>, calls: seq<nat>, g: nat, task: Task, count: nat)
    requires RootedTasks(agents, calls) && g < |agents| && Live(agents[g]) && RootOf(agents[g]) < |calls|
    requires Live(task) ==> RootOf(task) == RootOf(agents[g])
    requires Numbered(task, calls[RootOf(agents[g]) := count]) && count <= MAX_BATCH_ATTEMPTS
    ensures RootedTasks(agents[g := task], calls[RootOf(agents[g]) := count])
  {
    var after := calls[RootOf(agents[g]) := count];
    forall h | 0 <= h < |agents| && h != g ensures Numbered(agents[h], after) {
      assert Numbered(agents[h], calls);
    }
  }

  lemma SpawnKeepsRooted(s: State, g: nat)
    requires Enabled(s, Spawn(g)) && Rooted(s)
    ensures Rooted(Apply(s, Spawn(g)))
  {
    var t := s.agents[g];
    assert Numbered(t, s.calls);
    SameRoot(s.agents, s.calls, g, Ended, s.calls[t.root]);
    assert s.calls[t.root := s.calls[t.root]] == s.calls;
    var rest := s.agents[g := Ended];
    forall h | 0 <= h < |rest| && Live(rest[h]) ensures RootOf(rest[h]) != t.root {
      assert rest[h] == s.agents[h];
    }
  }

  lemma StepKeepsRooted(s: State, e: Event)
    requires Enabled(s, e) && Rooted(s)
    ensures Rooted(Apply(s, e))
  {
    var t := Apply(s, e);
    match e
    case Launch(g) => FreshRoot(s.agents, s.calls, g, t.agents[g].job);
    case TakeNext(id) => FreshRoot(s.agents, s.calls, 0, t.agents[0].job);
    case Return(g, ok) => MoveKeepsRooted(s, e, g);
    case Requeue(g) => MoveKeepsRooted(s, e, g);
    case Wake(g) => MoveKeepsRooted(s, e, g);
    case Spawn(g) => SpawnKeepsRooted(s, g);
    case _ =>
  }

  lemma MoveKeepsRooted(s: State, e: Event, g: nat)
    requires Enabled(s, e) && Rooted(s) && (e.Return? || e.Requeue? || e.Wake?) && e.g == g
    ensures Rooted(Apply(s, e))
  {
    var t := Apply(s, e);
    assert Numbered(s.agents[g], s.calls);
    var root := RootOf(s.agents[g]);
    assert t.calls == s.calls[root := t.calls[root]];
    SameRoot(s.agents, s.calls, g, t.agents[g], t.calls[root]);
  }

  lemma {:induction false} RunKeepsRooted(s: State, events: seq<Event>)
    requires Legal(s, events) && Rooted(s)
    ensures Rooted(Exec(s, events))
    decreases |events|
  {
    if events != [] {
      StepKeepsRooted(s, events[0]);
      RunKeepsRooted(Apply(s, events[0]), events[1..]);
    }
  }

  /** A fresh flush and all the retries descending from it call ProcessBatch at most five times. */
  lemma AtMostFiveCallsPerFlush(size: int, events: seq<Event>, root: nat)
    requires Legal(Init(size), events) && root < |Exec(Init(size), events).calls|
    ensures Exec(Init(size), events).calls[root] <= 5
  {
    RunKeepsRooted(Init(size), events);
  }

  // ----- draining after the final flush

  /** The flush loop has taken, or is past, the snapshot after which it returns. */
  predicate Final(s: State) {
    s.loop.Exited? || (s.loop.Flushing? && s.loop.final)
  }

  predicate WithoutAdds(events: seq<Event>) {
    forall i :: 0 <= i < |events| ==> !events[i].Add?
  }

  function CallWeight(attempt: nat): nat {
    if attempt <= MAX_BATCH_ATTEMPTS then 4 * (MAX_BATCH_ATTEMPTS - attempt) + 1 else 1
  }

  /** The steps a goroutine and its retries can still take. */
  function TaskWeight(t: Task): int {
    match t
    case Handoff(_, _) => CallWeight(1) + 1
    case Processing(job) => CallWeight(job.attempt)
    case Requeueing(job) => CallWeight(job.attempt) - 1
    case Spawning(_, attempt, _) => CallWeight(attempt) - 2
    case Sleeping(_, attempt, _) => CallWeight(attempt) + 1
    case Ended => 0
  }

  function Weigher(): Task -> int { (t: Task) => TaskWeight(t) }

  function LoopWeight(loop: Loop): int {
    if loop.Flushing? then 1 + (CallWeight(1) + 1) * |loop.todo| else 0
  }

  function Measure(s: State): int {
    Sum(Weigher(), s.agents) + LoopWeight(s.loop) + (if s.cancelled then 0 else 1) + (if s.stopped then 0 else 1)
  }

  lemma MeasureNonNegative(s: State)
    requires Rooted(s)
    ensures 0 <= Measure(s)
  {
    forall g | 0 <= g < |s.agents| ensures 0 <= Weigher()(s.agents[g]) {
      assert Numbered(s.agents[g], s.calls);
    }
    SumNonNegative(Weigher(), s.agents);
  }

  lemma TaskDrains(s: State, e: Event)
    requires Enabled(s, e) && (e.Launch? || e.Return? || e.Requeue? || e.Wake?)
    requires Numbered(s.agents[e.g], s.calls)
    ensures Sum(Weigher(), Apply(s, e).agents) < Sum(Weigher(), s.agents)
  {
    hide Sum;
    var t := Apply(s, e);
    SumReplace(Weigher(), s.agents, e.g, t.agents[e.g]);
    assert TaskWeight(t.agents[e.g]) < TaskWeight(s.agents[e.g]);
  }

  lemma SpawnDrains(s: State, g: nat)
    requires Enabled(s, Spawn(g)) && Numbered(s.agents[g], s.calls)
    ensures Sum(Weigher(), Apply(s, Spawn(g)).agents) < Sum(Weigher(), s.agents)
  {
    hide Sum;
    var t := s.agents[g];
    SumReplace(Weigher(), s.agents, g, Ended);
    SumPush(Weigher(), s.agents[g := Ended], Sleeping(t.id, t.attempt + 1, t.root));
  }

  lemma OneLess<K, V>(m: map<K, V>, k: K)
    requires k in m
    ensures |m - {k}| == |m| - 1
  {
    assert m.Keys == (m - {k}).Keys + {k};
    assert |m| == |m.Keys| && |m - {k}| == |(m - {k}).Keys|;
  }

  lemma TakeNextDrains(s: State, id: Id)
    requires Enabled(s, TakeNext(id))
    ensures Measure(Apply(s, TakeNext(id))) < Measure(s)
  {
    hide Sum;
    SumReplace(Weigher(), s.agents, 0, Apply(s, TakeNext(id)).agents[0]);
    OneLess(s.loop.todo, id);
  }

  /** Every step but an Add and the start of a flush of the loop lowers the measure. */
  lemma StepLowers(s: State, e: Event)
    requires Enabled(s, e) && Rooted(s) && !e.Add? && !e.Tick?
    ensures Measure(Apply(s, e)) < Measure(s)
  {
    hide Sum, TaskWeight, Numbered;
    match e
    case TakeNext(id) => TakeNextDrains(s, id);
    case Spawn(g) => SpawnDrains(s, g);
    case Launch(_) => TaskDrains(s, e);
    case Return(_, _) => TaskDrains(s, e);
    case Requeue(_) => TaskDrains(s, e);
    case Wake(_) => TaskDrains(s, e);
    case _ =>
  }

  lemma StepDrains(s: State, e: Event)
    requires Enabled(s, e) && Rooted(s) && Final(s) && !e.Add?
    ensures Final(Apply(s, e)) && Measure(Apply(s, e)) < Measure(s)
  {
    hide Measure, Rooted;
    StepLowers(s, e);
  }

  lemma {:induction false} RunDrains(s: State, events: seq<Event>)
    requires Legal(s, events) && Rooted(s) && Final(s) && WithoutAdds(events)
    ensures Final(Exec(s, events)) && |events| + Measure(Exec(s, events)) <= Measure(s)
    decreases |events|
  {
    if events != [] {
      StepDrains(s, events[0]);
      StepKeepsRooted(s, events[0]);
      assert forall i :: 0 <= i < |events[1..]| ==> events[1..][i] == events[i + 1];
      RunDrains(Apply(s, events[0]), events[1..]);
    }
  }

  /** The wait group is at zero.  A flush that Add has not yet handed to its goroutine is not counted. */
  predicate Quiet(s: State) {
    s.loop.Exited? && forall g :: 0 <= g < |s.agents| ==> s.agents[g].Ended? || s.agents[g].Handoff?
  }

  predicate AllEnded(s: State) {
    s.loop.Exited? && forall g :: 0 <= g < |s.agents| ==> s.agents[g].Ended?
  }

  function NextEvent(t: Task, g: nat): Event
    requires !t.Ended?
  {
    match t
    case Handoff(_, _) => Launch(g)
    case Processing(_) => Return(g, true)
    case Requeueing(_) => Requeue(g)
    case Spawning(_, _, _) => Spawn(g)
    case Sleeping(_, _, _) => Wake(g)
  }

  /** Shutdown cannot get stuck: while anything is unfinished, some step other than Add is enabled. */
  lemma SomeStepLeft(s: State) returns (e: Event)
    requires s.agents != [] && Final(s) && !AllEnded(s)
    ensures Enabled(s, e) && !e.Add?
  {
    if g :| 0 <= g < |s.agents| && !s.agents[g].Ended? {
      e := NextEvent(s.agents[g], g);
    } else if id :| id in s.loop.todo {
      e := TakeNext(id);
    } else {
      assert s.loop.todo == map[];
      e := LoopEnd;
    }
  }

  /** When the wait group is at zero, no buffer is waiting for a retry, so none holds anything. */
  lemma QuietIsEmpty(s: State)
    requires Quiet(s) && Covered(s, 1)
    ensures forall id :: BufferOf(s, id) == []
  {
    forall id ensures BufferOf(s, id) == [] {
      assert !HasRetry(s, id);
    }
  }

  lemma DrainsFrom(s: State, after: seq<Event>)
    requires Legal(s, after) && WithoutAdds(after) && Rooted(s) && Final(s) && Covered(s, 1)
    ensures var t := Exec(s, after);
      && |after| <= Measure(s)
      && (!AllEnded(t) ==> exists e :: Enabled(t, e) && !e.Add?)
      && (Quiet(t) ==> forall id :: BufferOf(t, id) == [])
  {
    hide Legal, Exec, RootedTasks, Measure, Covered, Enabled, BufferOf;
    var t := Exec(s, after);
    RunDrains(s, after);
    RunKeepsRooted(s, after);
    MeasureNonNegative(t);
    RunKeepsCovered(s, after, 1);
    if !AllEnded(t) {
      var e := SomeStepLeft(t);
    }
    if Quiet(t) {
      QuietIsEmpty(t);
    }
  }

  /**
    Once the loop has taken its final snapshot and no Add follows: every continuation is
    bounded by the measure, none gets stuck before all goroutines have ended, and by the
    time the wait group is at zero all buffers are empty.
  */
  lemma StopDrains(size: int, before: seq<Event>, after: seq<Event>)
    requires Legal(Init(size), before) && Enabled(Exec(Init(size), before), Tick(true))
    requires Legal(Apply(Exec(Init(size), before), Tick(true)), after) && WithoutAdds(after)
    ensures var s := Apply(Exec(Init(size), before), Tick(true)); var t := Exec(s, after);
      && |after| <= Measure(s)
      && (!AllEnded(t) ==> exists e :: Enabled(t, e) && !e.Add?)
      && (Quiet(t) ==> forall id :: BufferOf(t, id) == [])
  {
    var s := Apply(Exec(Init(size), before), Tick(true));
    assert Final(s) && Covered(s, 1);
    RunKeepsRooted(Init(size), before);
    hide Apply, RootedTasks, Covered;
    StepKeepsRooted(Exec(Init(size), before), Tick(true));
    DrainsFrom(s, after);
  }
}
