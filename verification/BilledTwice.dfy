/** A run in which a lost answer and a retried batch bill the same metric twice. */
module BilledTwice {
  import opened Gathering
  import B = BatchProtocol
  import L = UsageLedger
  import opened MeteredBilling
  import opened BilledTotal

  lemma OneQuantity(m: Metric)
    ensures Quantity([m]) == m.quantity
  {
    SumPush(QuantityOf(), [], m);
    assert [] + [m] == [m];
  }

  /** A full batch of one metric enters ProcessBatch. */
  lemma OneBatchStarts(x: B.Id, m: Metric, initial: int) returns (events: seq<Event>, s: State)
    requires m.quantity > 0
    ensures Legal(Init(x, 1, initial), events) && s == Exec(Init(x, 1, initial), events)
    ensures s == State(x,
      B.State(1, map[], B.Waiting, [B.Ended, B.Processing(B.Job(x, [m], 1, 0))], false, false,
              [B.Entry(x, m)], [], [1]),
      L.State(initial, initial, initial, map[], [L.Idle, L.Executing("1", m.quantity, L.Fresh, false)], [], {"1"}), 0)
  {
    hide Legal, Exec, Sum;
    var s0 := Init(x, 1, initial);
    OneQuantity(m);
    EmptyRun(s0);
    events, s := [], s0;
    OneMoreStep(s0, events, Manager(B.Add(x, m), "1"));
    events, s := events + [Manager(B.Add(x, m), "1")], Apply(s, Manager(B.Add(x, m), "1"));
    assert [] + [m] == [m] && s.mgr.agents == [B.Ended, B.Handoff(x, [m])] && s.item.slots == [L.Idle, L.Idle];
    OneMoreStep(s0, events, Manager(B.Launch(1), "1"));
    events, s := events + [Manager(B.Launch(1), "1")], Apply(s, Manager(B.Launch(1), "1"));
    assert s.item.slots == [L.Idle, L.Executing("1", m.quantity, L.Fresh, false)];
    assert s.mgr.agents == [B.Ended, B.Processing(B.Job(x, [m], 1, 0))] && s.mgr.accepted == [B.Entry(x, m)];
  }

  /** Its update lands, the answer is lost, and the retries give up. */
  lemma LandsAndGivesUp(x: B.Id, m: Metric, initial: int) returns (events: seq<Event>, s: State)
    requires m.quantity > 0
    ensures Legal(Init(x, 1, initial), events) && s == Exec(Init(x, 1, initial), events)
    ensures s == State(x,
      B.State(1, map[], B.Waiting, [B.Ended, B.Processing(B.Job(x, [m], 1, 0))], false, false,
              [B.Entry(x, m)], [], [1]),
      L.State(initial, L.Int64(initial + m.quantity), initial + m.quantity, map["1" := true],
              [L.Idle, L.Executing("1", m.quantity, L.Replied(false), true)], [L.Applied("1", m.quantity)], {"1"}), 0)
  {
    hide Legal, Exec, L.Int64;
    var s0 := Init(x, 1, initial);
    events, s := OneBatchStarts(x, m, initial);
    OneMoreStep(s0, events, Request(L.Retrieve(1)));
    events, s := events + [Request(L.Retrieve(1))], Apply(s, Request(L.Retrieve(1)));
    OneMoreStep(s0, events, Request(L.Update(1, true, true, true)));
    events, s := events + [Request(L.Update(1, true, true, true))], Apply(s, Request(L.Update(1, true, true, true)));
    OneMoreStep(s0, events, Request(L.GiveUp(1)));
    events, s := events + [Request(L.GiveUp(1))], Apply(s, Request(L.GiveUp(1)));
    assert s.item.slots == [L.Idle, L.Executing("1", m.quantity, L.Replied(false), true)];
  }

  /** ProcessBatch reports the failure, and the quantity becomes ambiguous. */
  lemma ReportsFailure(x: B.Id, m: Metric, initial: int) returns (events: seq<Event>, s: State)
    requires m.quantity > 0
    ensures Legal(Init(x, 1, initial), events) && s == Exec(Init(x, 1, initial), events)
    ensures s == State(x,
      B.State(1, map[], B.Waiting, [B.Ended, B.Requeueing(B.Job(x, [m], 1, 0))], false, false,
              [B.Entry(x, m)], [], [1]),
      L.State(initial, L.Int64(initial + m.quantity), initial + m.quantity, map["1" := true],
              [L.Idle, L.Idle], [L.Applied("1", m.quantity)], {"1"}), m.quantity)
  {
    hide Legal, Exec, L.Int64, Sum;
    var s0 := Init(x, 1, initial);
    events, s := LandsAndGivesUp(x, m, initial);
    OneMoreStep(s0, events, Manager(B.Return(1, false), "2"));
    events, s := events + [Manager(B.Return(1, false), "2")], Apply(s, Manager(B.Return(1, false), "2"));
    assert s.item.slots == [L.Idle, L.Idle] && s.mgr.agents == [B.Ended, B.Requeueing(B.Job(x, [m], 1, 0))];
  }

  /** The failed batch goes back to the buffer and its retry goroutine starts. */
  lemma GoesBack(x: B.Id, m: Metric, initial: int) returns (events: seq<Event>, s: State)
    requires m.quantity > 0
    ensures Legal(Init(x, 1, initial), events) && s == Exec(Init(x, 1, initial), events)
    ensures s == State(x,
      B.State(1, map[x := [m]], B.Waiting, [B.Ended, B.Ended, B.Sleeping(x, 2, 0)], false, false,
              [B.Entry(x, m)], [], [1]),
      L.State(initial, L.Int64(initial + m.quantity), initial + m.quantity, map["1" := true],
              [L.Idle, L.Idle, L.Idle], [L.Applied("1", m.quantity)], {"1"}), m.quantity)
  {
    hide Legal, Exec, L.Int64, Sum;
    var s0 := Init(x, 1, initial);
    events, s := ReportsFailure(x, m, initial);
    OneMoreStep(s0, events, Manager(B.Requeue(1), "2"));
    events, s := events + [Manager(B.Requeue(1), "2")], Apply(s, Manager(B.Requeue(1), "2"));
    assert [m] + [] == [m] && s.mgr.agents == [B.Ended, B.Spawning(x, 1, 0)];
    OneMoreStep(s0, events, Manager(B.Spawn(1), "2"));
    events, s := events + [Manager(B.Spawn(1), "2")], Apply(s, Manager(B.Spawn(1), "2"));
    assert s.mgr.agents == [B.Ended, B.Ended, B.Sleeping(x, 2, 0)] && s.item.slots == [L.Idle, L.Idle, L.Idle];
  }

  /** The retry flushes the batch again, under a new key. */
  lemma StartsAgain(x: B.Id, m: Metric, initial: int) returns (events: seq<Event>, s: State)
    requires m.quantity > 0
    ensures Legal(Init(x, 1, initial), events) && s == Exec(Init(x, 1, initial), events)
    ensures s == State(x,
      B.State(1, map[], B.Waiting, [B.Ended, B.Ended, B.Processing(B.Job(x, [m], 2, 0))], false, false,
              [B.Entry(x, m)], [], [2]),
      L.State(initial, L.Int64(initial + m.quantity), initial + m.quantity, map["1" := true],
              [L.Idle, L.Idle, L.Executing("2", m.quantity, L.Fresh, false)],
              [L.Applied("1", m.quantity)], {"1", "2"}), m.quantity)
  {
    hide Legal, Exec, L.Int64, Sum;
    var s0 := Init(x, 1, initial);
    events, s := GoesBack(x, m, initial);
    OneQuantity(m);
    OneMoreStep(s0, events, Manager(B.Wake(2), "2"));
    events, s := events + [Manager(B.Wake(2), "2")], Apply(s, Manager(B.Wake(2), "2"));
    assert s.mgr.agents == [B.Ended, B.Ended, B.Processing(B.Job(x, [m], 2, 0))];
    assert s.mgr.calls == [2] && s.mgr.buffer == map[];
    assert s.item.slots == [L.Idle, L.Idle, L.Executing("2", m.quantity, L.Fresh, false)];
  }

  lemma LandsAgain(x: B.Id, m: Metric, initial: int) returns (events: seq<Event>, s: State)
    requires m.quantity > 0
    ensures Legal(Init(x, 1, initial), events) && s == Exec(Init(x, 1, initial), events)
    ensures s.x == x && s.mgr.agents == [B.Ended, B.Ended, B.Ended] && s.mgr.accepted == [B.Entry(x, m)]
    ensures s.mgr.settled == [B.Settled(x, [m], true, 2)]
    ensures s.ambiguous == m.quantity && s.item.exact == initial + 2 * m.quantity
  {
    hide Legal, Exec, L.Int64;
    var s0 := Init(x, 1, initial);
    events, s := StartsAgain(x, m, initial);
    OneMoreStep(s0, events, Request(L.Retrieve(2)));
    events, s := events + [Request(L.Retrieve(2))], Apply(s, Request(L.Retrieve(2)));
    OneMoreStep(s0, events, Request(L.Update(2, true, true, false)));
    events, s := events + [Request(L.Update(2, true, true, false))], Apply(s, Request(L.Update(2, true, true, false)));
    assert s.item.slots == [L.Idle, L.Idle, L.Executing("2", m.quantity, L.Replied(true), true)];
    OneMoreStep(s0, events, Manager(B.Return(2, true), "2"));
    events, s := events + [Manager(B.Return(2, true), "2")], Apply(s, Manager(B.Return(2, true), "2"));
  }

  /** One metric is accepted and delivered once, and billed twice. */
  lemma BillsTwice(x: B.Id, m: Metric, initial: int) returns (events: seq<Event>)
    requires m.quantity > 0
    ensures Legal(Init(x, 1, initial), events)
    ensures var s := Exec(Init(x, 1, initial), events);
      && (forall g :: 0 <= g < |s.mgr.agents| ==> s.mgr.agents[g].Ended?)
      && Accepted(s) == m.quantity && Delivered(s) == m.quantity && s.ambiguous == m.quantity
      && s.item.exact == initial + 2 * m.quantity
  {
    hide Legal, Exec;
    var s;
    events, s := LandsAgain(x, m, initial);
    OneQuantity(m);
    SumPush(DeliveredPart(x), [], B.Settled(x, [m], true, 2));
    assert [] + [B.Settled(x, [m], true, 2)] == s.mgr.settled;
    GatherPush(B.AddedPart(x), [], B.Entry(x, m));
    assert [] + [B.Entry(x, m)] == s.mgr.accepted && [] + [m] == [m];
  }
}
