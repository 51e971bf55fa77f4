/**
  The batch manager as a step system.

  Every step is one critical section of the manager's mutex, one return of the
  external ProcessBatch call, or one goroutine start.  Events carry the choices
  of the scheduler and of the outside world, so a run is a list of events, and a
  claim about all interleavings is a claim about all legal lists.
*/
module BatchProtocol {
  import opened Gathering

  type Id = string

  /** How often a batch is processed before it is dead-lettered. */
  const MAX_BATCH_ATTEMPTS: nat := 5

  datatype Metric = Metric(quantity: int, timestamp: int, action: string)

  /** One call of processBatchWithRetry; `root` names the fresh flush its retries descend from. */
  datatype Job = Job(id: Id, metrics: seq<Metric>, attempt: nat, root: nat)

  /** What a goroutine is about to do next. */
  datatype Task =
    | Handoff(id: Id, metrics: seq<Metric>)           // Add has released the lock with a full batch
    | Processing(job: Job)                            // inside ProcessBatch
    | Requeueing(job: Job)                            // ProcessBatch failed; the lock is still to be taken
    | Spawning(id: Id, attempt: nat, root: nat)       // data is back in the buffer; retry goroutine not started
    | Sleeping(id: Id, attempt: nat, root: nat)       // retry goroutine waiting to call flushOne
    | Ended

  /** The flush loop: selecting, inside FlushAll with the unprocessed rest of its snapshot, or returned. */
  datatype Loop =
    | Waiting
    | Flushing(todo: map<Id, seq<Metric>>, final: bool)
    | Exited

  datatype Entry = Entry(id: Id, metric: Metric)

  /** A batch that left the manager for good; goroutine `agent` settled it. */
  datatype Settled = Settled(id: Id, metrics: seq<Metric>, delivered: bool, agent: nat)

  /**
    `agents[0]` is the flush loop's current call, the other entries are goroutines
    in order of creation.  The last three fields are history.
  */
  datatype State = State(
    size: int,
    buffer: map<Id, seq<Metric>>,
    loop: Loop,
    agents: seq<Task>,
    cancelled: bool,
    stopped: bool,
    accepted: seq<Entry>,
    settled: seq<Settled>,
    calls: seq<nat>)

  datatype Event =
    | Add(id: Id, metric: Metric)
    | Launch(g: nat)
    | Tick(final: bool)
    | TakeNext(next: Id)
    | LoopEnd
    | Return(g: nat, ok: bool)
    | Requeue(g: nat)
    | Spawn(g: nat)
    | Wake(g: nat)
    | Cancel
    | CloseDone

  function Init(size: int): State {
    State(size, map[], Waiting, [Ended], false, false, [], [], [])
  }

  function BufferOf(s: State, id: Id): seq<Metric> {
    if id in s.buffer then s.buffer[id] else []
  }

  function TodoOf(s: State, id: Id): seq<Metric> {
    if s.loop.Flushing? && id in s.loop.todo then s.loop.todo[id] else []
  }

  predicate LoopFree(s: State) {
    s.agents != [] && s.agents[0].Ended?
  }

  predicate Enabled(s: State, e: Event) {
    match e
    case Add(_, _) => true
    case Launch(g) => g < |s.agents| && s.agents[g].Handoff?
    case Tick(final) => s.loop.Waiting? && LoopFree(s) && (final ==> s.stopped || s.cancelled)
    case TakeNext(id) => s.loop.Flushing? && LoopFree(s) && id in s.loop.todo
    case LoopEnd => s.loop.Flushing? && LoopFree(s) && s.loop.todo == map[]
    case Return(g, _) => g < |s.agents| && s.agents[g].Processing?
    case Requeue(g) => g < |s.agents| && s.agents[g].Requeueing?
    case Spawn(g) => g < |s.agents| && s.agents[g].Spawning?
    case Wake(g) => g < |s.agents| && s.agents[g].Sleeping?
    case Cancel => !s.cancelled
    case CloseDone => !s.stopped
  }

  function Apply(s: State, e: Event): State
    requires Enabled(s, e)
  {
    match e
    case Add(id, metric) => ApplyAdd(s, id, metric)
    case Launch(g) =>
      var job := Job(s.agents[g].id, s.agents[g].metrics, 1, |s.calls|);
      s.(agents := s.agents[g := Processing(job)], calls := s.calls + [1])
    case Tick(final) =>
      s.(buffer := map[], loop := Flushing(map id | id in s.buffer && s.buffer[id] != [] :: s.buffer[id], final))
    case TakeNext(id) =>
      var job := Job(id, s.loop.todo[id], 1, |s.calls|);
      s.(loop := s.loop.(todo := s.loop.todo - {id}), agents := s.agents[0 := Processing(job)], calls := s.calls + [1])
    case LoopEnd => s.(loop := if s.loop.final then Exited else Waiting)
    case Return(g, ok) => ApplyReturn(s, g, ok)
    case Requeue(g) =>
      var job := s.agents[g].job;
      s.(buffer := s.buffer[job.id := job.metrics + BufferOf(s, job.id)],
         agents := s.agents[g := Spawning(job.id, job.attempt, job.root)])
    case Spawn(g) =>
      var t := s.agents[g];
      s.(agents := s.agents[g := Ended] + [Sleeping(t.id, t.attempt + 1, t.root)])
    case Wake(g) => ApplyWake(s, g)
    case Cancel => s.(cancelled := true)
    case CloseDone => s.(stopped := true)
  }

  /** Add: refused once the context is done; a full buffer is taken out for an asynchronous flush. */
  function ApplyAdd(s: State, id: Id, metric: Metric): State {
    var pending := BufferOf(s, id) + [metric];
    if s.cancelled then s
    else if |pending| >= s.size then
      s.(buffer := s.buffer - {id}, agents := s.agents + [Handoff(id, pending)],
         accepted := s.accepted + [Entry(id, metric)])
    else
      s.(buffer := s.buffer[id := pending], accepted := s.accepted + [Entry(id, metric)])
  }

  /** ProcessBatch has returned: acknowledged, dead-lettered, or on its way back to the buffer. */
  function ApplyReturn(s: State, g: nat, ok: bool): State
    requires g < |s.agents| && s.agents[g].Processing?
  {
    var job := s.agents[g].job;
    if ok || job.attempt >= MAX_BATCH_ATTEMPTS || s.cancelled then
      s.(agents := s.agents[g := Ended], settled := s.settled + [Settled(job.id, job.metrics, ok, g)])
    else
      s.(agents := s.agents[g := Requeueing(job)])
  }

  /** The critical section of flushOne. */
  function ApplyWake(s: State, g: nat): State
    requires Enabled(s, Wake(g))
  {
    var t := s.agents[g];
    var pending := BufferOf(s, t.id);
    if pending == [] then s.(agents := s.agents[g := Ended])
    else s.(buffer := s.buffer - {t.id},
            agents := s.agents[g := Processing(Job(t.id, pending, t.attempt, t.root))],
            calls := Counted(s.calls, t.root))
  }

  /** One more ProcessBatch call descends from flush `root`. */
  function Counted(calls: seq<nat>, root: nat): seq<nat> {
    if root < |calls| then calls[root := calls[root] + 1] else calls
  }

  predicate Legal(s: State, events: seq<Event>)
    decreases |events|
  {
    events == [] || (Enabled(s, events[0]) && Legal(Apply(s, events[0]), events[1..]))
  }

  function Exec(s: State, events: seq<Event>): State
    requires Legal(s, events)
    decreases |events|
  {
    if events == [] then s else Exec(Apply(s, events[0]), events[1..])
  }

  lemma {:induction false} ExecJoin(s: State, a: seq<Event>, b: seq<Event>)
    requires Legal(s, a) && Legal(Exec(s, a), b)
    ensures Legal(s, a + b) && Exec(s, a + b) == Exec(Exec(s, a), b)
    decreases |a|
  {
    if a == [] {
      assert a + b == b;
    } else {
      ExecJoin(Apply(s, a[0]), a[1..], b);
      assert (a + b)[0] == a[0] && (a + b)[1..] == a[1..] + b;
    }
  }

  lemma EmptyRun(s: State)
    ensures Legal(s, []) && Exec(s, []) == s
  {
  }

  lemma ExecStep(s: State, e: Event, rest: seq<Event>)
    requires Enabled(s, e) && Legal(Apply(s, e), rest)
    ensures Legal(s, [e] + rest) && Exec(s, [e] + rest) == Exec(Apply(s, e), rest)
  {
    assert ([e] + rest)[1..] == rest;
  }

  // ----- where the metrics of one ID are

  function AddedPart(id: Id): Entry -> seq<Metric> {
    (e: Entry) => if e.id == id then [e.metric] else []
  }

  function SettledPart(id: Id): Settled -> seq<Metric> {
    (b: Settled) => if b.id == id then b.metrics else []
  }

  function HeldPart(id: Id): Task -> seq<Metric> {
    (t: Task) =>
      match t
      case Handoff(i, metrics) => if i == id then metrics else []
      case Processing(job) => if job.id == id then job.metrics else []
      case Requeueing(job) => if job.id == id then job.metrics else []
      case _ => []
  }

  /** The metrics accepted for `id`, in the order of the Add calls. */
  function AddsOf(s: State, id: Id): seq<Metric> { Gather(AddedPart(id), s.accepted) }

  /** The metrics of `id` in settled batches, in settling order. */
  function SettledOf(s: State, id: Id): seq<Metric> { Gather(SettledPart(id), s.settled) }

  /** The metrics of `id` that some goroutine is carrying. */
  function HeldOf(s: State, id: Id): seq<Metric> { Gather(HeldPart(id), s.agents) }
}
