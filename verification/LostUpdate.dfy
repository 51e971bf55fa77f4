/** A run in which two overlapping batches of one item lose an update. */
module LostUpdate {
  import opened Gathering
  import B = BatchProtocol
  import L = UsageLedger
  import opened MeteredBilling
  import opened BilledTotal
  import opened BilledTwice

  /** Both batches are inside ProcessBatch, and the item is as `item` says. */
  function BothCalling(x: B.Id, a: Metric, b: Metric, item: L.State): State {
    State(x,
      B.State(1, map[], B.Waiting,
              [B.Ended, B.Processing(B.Job(x, [a], 1, 0)), B.Processing(B.Job(x, [b], 1, 1))], false, false,
              [B.Entry(x, a), B.Entry(x, b)], [], [1, 1]),
      item, 0)
  }

  lemma SecondStarts(x: B.Id, a: Metric, b: Metric, initial: int) returns (events: seq<Event>, s: State)
    requires a.quantity > 0 && b.quantity > 0
    ensures Legal(Init(x, 1, initial), events) && s == Exec(Init(x, 1, initial), events)
    ensures s == BothCalling(x, a, b, L.State(initial, initial, initial, map[],
      [L.Idle, L.Executing("1", a.quantity, L.Fresh, false), L.Executing("2", b.quantity, L.Fresh, false)], [],
      {"1", "2"}))
  {
    hide Legal, Exec, Sum;
    var s0 := Init(x, 1, initial);
    events, s := OneBatchStarts(x, a, initial);
    OneQuantity(b);
    OneMoreStep(s0, events, Manager(B.Add(x, b), "2"));
    events, s := events + [Manager(B.Add(x, b), "2")], Apply(s, Manager(B.Add(x, b), "2"));
    assert [] + [b] == [b];
    assert s.mgr.agents == [B.Ended, B.Processing(B.Job(x, [a], 1, 0)), B.Handoff(x, [b])];
    assert s.item.slots == [L.Idle, L.Executing("1", a.quantity, L.Fresh, false), L.Idle];
    OneMoreStep(s0, events, Manager(B.Launch(2), "2"));
    events, s := events + [Manager(B.Launch(2), "2")], Apply(s, Manager(B.Launch(2), "2"));
    assert s.item.slots ==
      [L.Idle, L.Executing("1", a.quantity, L.Fresh, false), L.Executing("2", b.quantity, L.Fresh, false)];
    assert s.mgr.agents ==
      [B.Ended, B.Processing(B.Job(x, [a], 1, 0)), B.Processing(B.Job(x, [b], 1, 1))];
  }

  /** Both executions read the same total. */
  lemma BothRead(x: B.Id, a: Metric, b: Metric, initial: int) returns (events: seq<Event>, s: State)
    requires a.quantity > 0 && b.quantity > 0
    ensures Legal(Init(x, 1, initial), events) && s == Exec(Init(x, 1, initial), events)
    ensures var read := L.HasRead(initial, initial, 0);
      s == BothCalling(x, a, b, L.State(initial, initial, initial, map[],
        [L.Idle, L.Executing("1", a.quantity, read, false), L.Executing("2", b.quantity, read, false)], [], {"1", "2"}))
  {
    hide Legal, Exec;
    var s0 := Init(x, 1, initial);
    events, s := SecondStarts(x, a, b, initial);
    OneMoreStep(s0, events, Request(L.Retrieve(1)));
    events, s := events + [Request(L.Retrieve(1))], Apply(s, Request(L.Retrieve(1)));
    OneMoreStep(s0, events, Request(L.Retrieve(2)));
    events, s := events + [Request(L.Retrieve(2))], Apply(s, Request(L.Retrieve(2)));
    var read := L.HasRead(initial, initial, 0);
    assert s.item.slots ==
      [L.Idle, L.Executing("1", a.quantity, read, false), L.Executing("2", b.quantity, read, false)];
  }

  /** Both updates are performed; the second overtakes what the first has added. */
  lemma BothWrite(x: B.Id, a: Metric, b: Metric, initial: int) returns (events: seq<Event>, s: State)
    requires a.quantity > 0 && b.quantity > 0
    ensures Legal(Init(x, 1, initial), events) && s == Exec(Init(x, 1, initial), events)
    ensures s.mgr == BothCalling(x, a, b, s.item).mgr && s.x == x && s.ambiguous == 0
    ensures s.item.exact == initial + b.quantity
    ensures s.item.slots ==
      [L.Idle, L.Executing("1", a.quantity, L.Replied(true), true), L.Executing("2", b.quantity, L.Replied(true), true)]
  {
    hide Legal, Exec, L.Int64;
    var s0 := Init(x, 1, initial);
    events, s := BothRead(x, a, b, initial);
    OneMoreStep(s0, events, Request(L.Update(1, true, true, false)));
    events, s := events + [Request(L.Update(1, true, true, false))], Apply(s, Request(L.Update(1, true, true, false)));
    OneMoreStep(s0, events, Request(L.Update(2, true, true, false)));
    events, s := events + [Request(L.Update(2, true, true, false))], Apply(s, Request(L.Update(2, true, true, false)));
  }

  lemma BothReturn(x: B.Id, a: Metric, b: Metric, initial: int) returns (events: seq<Event>, s: State)
    requires a.quantity > 0 && b.quantity > 0
    ensures Legal(Init(x, 1, initial), events) && s == Exec(Init(x, 1, initial), events)
    ensures s.x == x && s.ambiguous == 0 && s.item.exact == initial + b.quantity
    ensures s.mgr.agents == [B.Ended, B.Ended, B.Ended] && s.mgr.accepted == [B.Entry(x, a), B.Entry(x, b)]
    ensures s.mgr.settled == [B.Settled(x, [a], true, 1), B.Settled(x, [b], true, 2)]
  {
    hide Legal, Exec;
    var s0 := Init(x, 1, initial);
    events, s := BothWrite(x, a, b, initial);
    OneMoreStep(s0, events, Manager(B.Return(1, true), "3"));
    events, s := events + [Manager(B.Return(1, true), "3")], Apply(s, Manager(B.Return(1, true), "3"));
    assert s.item.slots == [L.Idle, L.Idle, L.Executing("2", b.quantity, L.Replied(true), true)];
    OneMoreStep(s0, events, Manager(B.Return(2, true), "3"));
    events, s := events + [Manager(B.Return(2, true), "3")], Apply(s, Manager(B.Return(2, true), "3"));
  }

  /** Two metrics are accepted, delivered and acknowledged, and only the second is in the total. */
  lemma LosesAnUpdate(x: B.Id, a: Metric, b: Metric, initial: int) returns (events: seq<Event>)
    requires a.quantity > 0 && b.quantity > 0
    ensures Legal(Init(x, 1, initial), events)
    ensures var s := Exec(Init(x, 1, initial), events);
      && (forall g :: 0 <= g < |s.mgr.agents| ==> s.mgr.agents[g].Ended?)
      && Accepted(s) == a.quantity + b.quantity && Delivered(s) == a.quantity + b.quantity && s.ambiguous == 0
      && s.item.exact == initial + b.quantity
  {
    hide Legal, Exec, Sum, Gather;
    var s;
    events, s := BothReturn(x, a, b, initial);
    OneQuantity(a);
    OneQuantity(b);
    SumPair(DeliveredPart(x), B.Settled(x, [a], true, 1), B.Settled(x, [b], true, 2));
    SumPair(QuantityOf(), a, b);
    GatherPair(B.AddedPart(x), B.Entry(x, a), B.Entry(x, b));
    assert [a] + [b] == [a, b];
  }
}
