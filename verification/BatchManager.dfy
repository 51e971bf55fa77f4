/**
  The manager as an object.  A call that runs without interference is a legal
  run of the step system, so everything proved about runs holds for it.
*/
module BatchManager {
  import opened BatchProtocol
  import opened BatchDrain

  /** The steps of processBatchWithRetry by goroutine `g`, once ProcessBatch has answered. */
  function CallEvents(s: State, g: nat, delivered: bool): seq<Event>
    requires g < |s.agents| && s.agents[g].Processing?
  {
    if delivered || s.agents[g].job.attempt >= MAX_BATCH_ATTEMPTS || s.cancelled then [Return(g, delivered)]
    else [Return(g, false), Requeue(g), Spawn(g)]
  }

  lemma CallIsLegal(s: State, g: nat, delivered: bool)
    requires g < |s.agents| && s.agents[g].Processing?
    ensures Legal(s, CallEvents(s, g, delivered))
    ensures CallEvents(s, g, delivered) == [Return(g, delivered)] ==>
      Exec(s, CallEvents(s, g, delivered)) == Apply(s, Return(g, delivered))
    ensures CallEvents(s, g, delivered) != [Return(g, delivered)] ==>
      var t := Apply(s, Return(g, false));
      && Enabled(t, Requeue(g)) && Enabled(Apply(t, Requeue(g)), Spawn(g))
      && Exec(s, CallEvents(s, g, delivered)) == Apply(Apply(t, Requeue(g)), Spawn(g))
  {
    hide Legal, Exec;
    var t := Apply(s, Return(g, delivered));
    if CallEvents(s, g, delivered) == [Return(g, delivered)] {
      EmptyRun(t);
      ExecStep(s, Return(g, delivered), []);
      assert [Return(g, delivered)] + [] == [Return(g, delivered)];
    } else {
      var u := Apply(t, Requeue(g));
      EmptyRun(Apply(u, Spawn(g)));
      ExecStep(u, Spawn(g), []);
      assert [Spawn(g)] + [] == [Spawn(g)];
      ExecStep(t, Requeue(g), [Spawn(g)]);
      assert [Requeue(g)] + [Spawn(g)] == [Requeue(g), Spawn(g)];
      ExecStep(s, Return(g, false), [Requeue(g), Spawn(g)]);
      assert [Return(g, false)] + [Requeue(g), Spawn(g)] == [Return(g, false), Requeue(g), Spawn(g)];
    }
  }

  /** The steps of an Add call: the append, and the launch of the flush it may trigger. */
  function AddEvents(s: State, id: Id, metric: Metric): seq<Event> {
    if !s.cancelled && |BufferOf(s, id)| + 1 >= s.size then [Add(id, metric), Launch(|s.agents|)] else [Add(id, metric)]
  }

  lemma AddIsLegal(s: State, id: Id, metric: Metric)
    ensures Legal(s, AddEvents(s, id, metric))
    ensures var t := ApplyAdd(s, id, metric);
      Exec(s, AddEvents(s, id, metric)) ==
        if |AddEvents(s, id, metric)| == 1 then t else Apply(t, Launch(|s.agents|))
  {
    hide Legal, Exec;
    var t := ApplyAdd(s, id, metric);
    if |AddEvents(s, id, metric)| == 1 {
      EmptyRun(t);
      ExecStep(s, Add(id, metric), []);
      assert [Add(id, metric)] + [] == [Add(id, metric)];
    } else {
      var g := |s.agents|;
      EmptyRun(Apply(t, Launch(g)));
      ExecStep(t, Launch(g), []);
      assert [Launch(g)] + [] == [Launch(g)];
      ExecStep(s, Add(id, metric), [Launch(g)]);
      assert [Add(id, metric)] + [Launch(g)] == [Add(id, metric), Launch(g)];
    }
  }

  /** What an accepted Add does to the state. */
  lemma AddDoes(s: State, id: Id, metric: Metric)
    requires !s.cancelled && Legal(s, AddEvents(s, id, metric))
    ensures var t, pending := Exec(s, AddEvents(s, id, metric)), BufferOf(s, id) + [metric];
      && t.accepted == s.accepted + [Entry(id, metric)]
      && (forall x :: x != id ==> BufferOf(t, x) == BufferOf(s, x))
      && (if |pending| < s.size then BufferOf(t, id) == pending && t.agents == s.agents
          else
            && BufferOf(t, id) == [] && |t.agents| == |s.agents| + 1
            && t.agents[|s.agents|] == Processing(Job(id, pending, 1, |s.calls|)))
  {
    hide Legal, Exec;
    AddIsLegal(s, id, metric);
  }

  /** The steps by which FlushAll deals with one ID of its snapshot. */
  function NextEvents(s: State, id: Id, delivered: bool): seq<Event>
    requires Enabled(s, TakeNext(id))
  {
    [TakeNext(id)] + CallEvents(Apply(s, TakeNext(id)), 0, delivered)
  }

  /** Of a snapshot worked through down to the current rest, exactly the failed parts are buffered again. */
  ghost predicate Restored(s: State, snapshot: map<Id, seq<Metric>>, delivered: Id -> bool) {
    && s.loop.Flushing?
    && (forall x :: x in s.loop.todo ==> x in snapshot && s.loop.todo[x] == snapshot[x])
    && (forall x :: (
          BufferOf(s, x) ==
            if x in snapshot && x !in s.loop.todo && !delivered(x) && !s.cancelled then snapshot[x] else []))
  }

  lemma RestoredStep(s: State, t: State, id: Id, snapshot: map<Id, seq<Metric>>, delivered: Id -> bool)
    requires Restored(s, snapshot, delivered) && id in s.loop.todo
    requires t.loop == s.loop.(todo := s.loop.todo - {id}) && t.cancelled == s.cancelled
    requires forall x :: (
      BufferOf(t, x) ==
        if x == id && !delivered(id) && !s.cancelled then s.loop.todo[id] + BufferOf(s, x) else BufferOf(s, x))
    ensures Restored(t, snapshot, delivered)
  {
    assert BufferOf(s, id) == [] && s.loop.todo[id] + [] == snapshot[id];
  }

  lemma RestoredStart(s: State, delivered: Id -> bool)
    requires s.loop.Flushing? && s.buffer == map[]
    ensures Restored(s, s.loop.todo, delivered)
  {
  }

  lemma RestoredEnd(s: State, first: State, delivered: Id -> bool)
    requires first.loop.Flushing? && Restored(s, first.loop.todo, delivered) && s.loop.todo == map[]
    ensures forall x :: BufferOf(s, x) == if delivered(x) || s.cancelled then [] else TodoOf(first, x)
  {
  }

  class Manager {
    const size: int
    var buffer: map<Id, seq<Metric>>
    var cancelled: bool
    var stopped: bool
    var loop: Loop
    var goroutines: seq<Task>
    var calls: seq<nat>  // numbers the fresh flushes
    ghost var accepted: seq<Entry>
    ghost var settled: seq<Settled>

    ghost function View(): State
      reads this
    {
      State(size, buffer, loop, goroutines, cancelled, stopped, accepted, settled, calls)
    }

    constructor (size: int)
      ensures View() == Init(size)
    {
      this.size := size;
      buffer, cancelled, stopped := map[], false, false;
      loop, goroutines := Waiting, [Ended];
      accepted, settled, calls := [], [], [];
    }

    /** Buffers the metric, or hands a full buffer to a fresh goroutine. */
    method Add(id: Id, metric: Metric) returns (ok: bool)
      modifies this
      ensures ok == !old(cancelled)
      ensures !ok ==> View() == old(View())
      ensures ok ==>
        var pending := BufferOf(old(View()), id) + [metric];
        && accepted == old(accepted) + [Entry(id, metric)]
        && (forall x :: x != id ==> BufferOf(View(), x) == BufferOf(old(View()), x))
        && (if |pending| < size then BufferOf(View(), id) == pending && goroutines == old(goroutines)
            else
              && BufferOf(View(), id) == [] && |goroutines| == |old(goroutines)| + 1
              && goroutines[|goroutines| - 1] == Processing(Job(id, pending, 1, |old(calls)|)))
      ensures Legal(old(View()), AddEvents(old(View()), id, metric))
      ensures View() == Exec(old(View()), AddEvents(old(View()), id, metric))
    {
      hide Legal, Exec, Apply;
      ghost var before := View();
      AddIsLegal(before, id, metric);
      if cancelled {
        return false;
      }
      AddDoes(before, id, metric);
      var full := Append(id, metric);
      if full {
        Start(|goroutines| - 1);
      }
      return true;
    }

    /** Add's critical section; a full buffer becomes a handoff. */
    method Append(id: Id, metric: Metric) returns (full: bool)
      requires !cancelled
      modifies this`buffer, this`goroutines, this`accepted
      ensures View() == ApplyAdd(old(View()), id, metric)
      ensures full == (|BufferOf(old(View()), id)| + 1 >= size)
    {
      ghost var before := View();
      buffer := buffer[id := (if id in buffer then buffer[id] else []) + [metric]];
      accepted := accepted + [Entry(id, metric)];
      full := |buffer[id]| >= size;
      if full {
        var metricsToFlush := buffer[id];
        buffer := buffer - {id};
        goroutines := goroutines + [Handoff(id, metricsToFlush)];
        assert before.buffer[id := metricsToFlush] - {id} == before.buffer - {id};
      }
    }

    /** The goroutine of a size flush enters ProcessBatch. */
    method Start(g: nat)
      requires g < |goroutines| && goroutines[g].Handoff?
      modifies this`goroutines, this`calls
      ensures View() == Apply(old(View()), Launch(g))
      ensures var t := old(goroutines)[g];
        goroutines == old(goroutines)[g := Processing(Job(t.id, t.metrics, 1, |old(calls)|))]
    {
      goroutines := goroutines[g := Processing(Job(goroutines[g].id, goroutines[g].metrics, 1, |calls|))];
      calls := calls + [1];
    }

    /** The batch leaves the manager, acknowledged or dead-lettered. */
    method Settle(g: nat, delivered: bool)
      requires g < |goroutines| && goroutines[g].Processing?
      requires delivered || goroutines[g].job.attempt >= MAX_BATCH_ATTEMPTS || cancelled
      modifies this`goroutines, this`settled
      ensures View() == Apply(old(View()), Return(g, delivered)) && goroutines == old(goroutines)[g := Ended]
    {
      var job := goroutines[g].job;
      settled := settled + [Settled(job.id, job.metrics, delivered, g)];
      goroutines := goroutines[g := Ended];
    }

    /** The batch goes back in front of its buffer and a retry goroutine is started. */
    method PutBack(g: nat)
      requires g < |goroutines| && goroutines[g].Processing?
      requires goroutines[g].job.attempt < MAX_BATCH_ATTEMPTS && !cancelled
      modifies this`buffer, this`goroutines
      ensures View() == Apply(Apply(Apply(old(View()), Return(g, false)), Requeue(g)), Spawn(g))
      ensures |goroutines| > |old(goroutines)| && goroutines[g].Ended?
      ensures buffer == old(buffer)[
        old(goroutines)[g].job.id := old(goroutines)[g].job.metrics + BufferOf(old(View()), old(goroutines)[g].job.id)]
    {
      var job := goroutines[g].job;
      ghost var before := goroutines;
      buffer := buffer[job.id := job.metrics + (if job.id in buffer then buffer[job.id] else [])];
      goroutines := goroutines[g := Ended] + [Sleeping(job.id, job.attempt + 1, job.root)];
      assert before[g := Requeueing(job)][g := Spawning(job.id, job.attempt, job.root)][g := Ended]
          == before[g := Ended];
    }

    /** What processBatchWithRetry does with ProcessBatch's answer. */
    method ProcessBatchWithRetry(g: nat, delivered: bool) returns (failed: bool)
      requires g < |goroutines| && goroutines[g].Processing?
      modifies this`buffer, this`goroutines, this`settled
      ensures Legal(old(View()), CallEvents(old(View()), g, delivered))
      ensures View() == Exec(old(View()), CallEvents(old(View()), g, delivered))
      ensures failed == (!delivered && (old(goroutines[g]).job.attempt >= MAX_BATCH_ATTEMPTS || cancelled))
      ensures |goroutines| >= |old(goroutines)| && goroutines[g].Ended?
      ensures forall x :: (
        BufferOf(View(), x) ==
          if x == old(goroutines[g]).job.id && !delivered && !failed
          then old(goroutines[g]).job.metrics + BufferOf(old(View()), x) else BufferOf(old(View()), x))
    {
      hide Legal, Exec, Apply;
      CallIsLegal(View(), g, delivered);
      if delivered || goroutines[g].job.attempt >= MAX_BATCH_ATTEMPTS || cancelled {
        Settle(g, delivered);
        return !delivered;
      }
      PutBack(g);
      return false;
    }

    /** A retry goroutine flushes whatever its ID has buffered by now. */
    method FlushOne(g: nat, delivered: bool)
      requires g < |goroutines| && goroutines[g].Sleeping?
      modifies this`buffer, this`goroutines, this`settled, this`calls
      ensures var woken := Apply(old(View()), Wake(g));
        var events := if woken.agents[g].Ended? then [] else CallEvents(woken, g, delivered);
        Legal(old(View()), [Wake(g)] + events) && View() == Exec(old(View()), [Wake(g)] + events)
      ensures g < |goroutines| && goroutines[g].Ended?
    {
      ghost var before := View();
      var task := goroutines[g];
      var metrics := if task.id in buffer then buffer[task.id] else [];
      if |metrics| == 0 {
        goroutines := goroutines[g := Ended];
        EmptyRun(View());
        ExecStep(before, Wake(g), []);
        return;
      }
      buffer := buffer - {task.id};
      goroutines := goroutines[g := Processing(Job(task.id, metrics, task.attempt, task.root))];
      calls := Counted(calls, task.root);
      ghost var woken := View();
      var failed := ProcessBatchWithRetry(g, delivered);
      ExecStep(before, Wake(g), CallEvents(woken, g, delivered));
    }

    /** FlushAll's lock section: the whole buffer becomes the snapshot to work through. */
    method TakeSnapshot(final: bool)
      requires loop.Waiting? && goroutines != [] && goroutines[0].Ended? && (final ==> stopped || cancelled)
      modifies this`buffer, this`loop
      ensures Legal(old(View()), [Tick(final)]) && View() == Exec(old(View()), [Tick(final)])
      ensures loop.Flushing? && loop.final == final && buffer == map[]
      ensures forall x :: TodoOf(View(), x) == BufferOf(old(View()), x)
    {
      ghost var before := View();
      loop := Flushing(map id | id in buffer && buffer[id] != [] :: buffer[id], final);
      buffer := map[];
      EmptyRun(View());
      ExecStep(before, Tick(final), []);
      assert [Tick(final)] + [] == [Tick(final)];
    }

    /** One iteration of FlushAll. */
    method FlushNext(id: Id, delivered: bool)
      requires loop.Flushing? && id in loop.todo && goroutines != [] && goroutines[0].Ended?
      modifies this`buffer, this`loop, this`goroutines, this`settled, this`calls
      ensures Legal(old(View()), NextEvents(old(View()), id, delivered))
      ensures View() == Exec(old(View()), NextEvents(old(View()), id, delivered))
      ensures loop == old(loop).(todo := old(loop).todo - {id}) && goroutines != [] && goroutines[0].Ended?
      ensures |loop.todo| < |old(loop).todo|
      ensures forall x :: (
        BufferOf(View(), x) ==
          if x == id && !delivered && !cancelled then old(loop).todo[id] + BufferOf(old(View()), x)
          else BufferOf(old(View()), x))
    {
      ghost var before := View();
      goroutines := goroutines[0 := Processing(Job(id, loop.todo[id], 1, |calls|))];
      loop := loop.(todo := loop.todo - {id});
      calls := calls + [1];
      OneLess(old(loop).todo, id);
      ghost var taken := View();
      var failed := ProcessBatchWithRetry(0, delivered);
      ExecStep(before, TakeNext(id), CallEvents(taken, 0, delivered));
    }

    /** FlushAll ends; after the final flush so does the loop. */
    method FinishFlush()
      requires loop.Flushing? && loop.todo == map[] && goroutines != [] && goroutines[0].Ended?
      modifies this`loop
      ensures Legal(old(View()), [LoopEnd]) && View() == Exec(old(View()), [LoopEnd])
      ensures loop == if old(loop).final then Exited else Waiting
    {
      ghost var before := View();
      loop := if loop.final then Exited else Waiting;
      EmptyRun(View());
      ExecStep(before, LoopEnd, []);
      assert [LoopEnd] + [] == [LoopEnd];
    }

    /** FlushAll's loop body for some ID of the rest; `events` is the run so far. */
    method FlushSome(
        delivered: Id -> bool, ghost before: State, ghost events: seq<Event>, ghost snapshot: map<Id, seq<Metric>>)
      returns (ghost longer: seq<Event>)
      requires loop.Flushing? && loop.todo != map[] && goroutines != [] && goroutines[0].Ended?
      requires Legal(before, events) && View() == Exec(before, events) && Restored(View(), snapshot, delivered)
      modifies this`buffer, this`loop, this`goroutines, this`settled, this`calls
      ensures loop.Flushing? && loop.final == old(loop).final && |loop.todo| < |old(loop).todo|
      ensures goroutines != [] && goroutines[0].Ended?
      ensures Legal(before, longer) && View() == Exec(before, longer) && Restored(View(), snapshot, delivered)
    {
      hide Legal, Exec, Apply, NextEvents, Restored;
      var id :| id in loop.todo;
      ghost var pre := View();
      FlushNext(id, delivered(id));
      RestoredStep(pre, View(), id, snapshot, delivered);
      ExecJoin(before, events, NextEvents(pre, id, delivered(id)));
      longer := events + NextEvents(pre, id, delivered(id));
    }

    /**
      Takes the whole buffer and processes it ID by ID in an arbitrary order.
      Afterwards exactly the metrics whose processing failed are buffered again.
    */
    method FlushAll(final: bool, delivered: Id -> bool) returns (ghost events: seq<Event>)
      requires loop.Waiting? && goroutines != [] && goroutines[0].Ended? && (final ==> stopped || cancelled)
      modifies this`buffer, this`loop, this`goroutines, this`settled, this`calls
      ensures Legal(old(View()), events) && View() == Exec(old(View()), events)
      ensures loop == (if final then Exited else Waiting) && goroutines != [] && goroutines[0].Ended?
      ensures forall x :: (
        BufferOf(View(), x) == if delivered(x) || cancelled then [] else BufferOf(old(View()), x))
    {
      hide Legal, Exec, Apply, NextEvents, Restored, TodoOf;
      ghost var before := View();
      TakeSnapshot(final);
      events := [Tick(final)];
      ghost var first := View();
      RestoredStart(first, delivered);
      while loop.todo != map[]
        invariant loop.Flushing? && loop.final == final && goroutines != [] && goroutines[0].Ended?
        invariant Legal(before, events) && View() == Exec(before, events)
        invariant Restored(View(), first.loop.todo, delivered)
        decreases |loop.todo|
      {
        events := FlushSome(delivered, before, events, first.loop.todo);
      }
      RestoredEnd(View(), first, delivered);
      FinishFlush();
      ExecJoin(before, events, [LoopEnd]);
      events := events + [LoopEnd];
    }

    /** Signals shutdown; a second call changes nothing. */
    method SignalStop()
      modifies this`stopped
      ensures View() == (if Enabled(old(View()), CloseDone) then Apply(old(View()), CloseDone) else old(View()))
    {
      stopped := true;
    }
  }
}
