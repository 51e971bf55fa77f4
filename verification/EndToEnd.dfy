/**
  From the accepted usage events to the billed total: the usage service with its
  shutdown, and the billing API's view of one subscription item.
*/
module EndToEnd {
  import opened Gathering
  import P = Pipeline
  import B = BatchProtocol
  import Drain = BatchDrain
  import L = UsageLedger
  import M = MeteredBilling
  import T = BilledTotal

  /** Two views of one manager: `service` sees it from the worker pool, `bill` from the item. */
  datatype State = State(service: P.State, bill: T.State)

  datatype Event =
    | Service(e: P.Event, key: L.Key)
    | Request(r: L.Event)

  function Init(workers: nat, capacity: nat, size: int, x: B.Id, initial: int): State {
    State(P.Init(workers, capacity, size), T.Init(x, size, initial))
  }

  /** The step concerns the item: a request, or a step of the service that moves its manager. */
  predicate Bills(s: State, e: Event) {
    e.Request? || (P.Enabled(s.service, e.e) && P.MovesManager(s.service, e.e))
  }

  function BillEvent(s: State, e: Event): T.Event
    requires Bills(s, e)
  {
    match e
    case Service(e, key) => T.Manager(P.ManagerEvent(s.service, e), key)
    case Request(r) => T.Request(r)
  }

  predicate Enabled(s: State, e: Event) {
    && (e.Service? ==> P.Enabled(s.service, e.e))
    && (Bills(s, e) ==> T.Enabled(s.bill, BillEvent(s, e)))
  }

  function Apply(s: State, e: Event): State
    requires Enabled(s, e)
  {
    State(if e.Service? then P.Apply(s.service, e.e) else s.service,
          if Bills(s, e) then T.Apply(s.bill, BillEvent(s, e)) else s.bill)
  }

  predicate Legal(s: State, events: seq<Event>)
    decreases |events|
  {
    events == [] || (Enabled(s, events[0]) && Legal(Apply(s, events[0]), events[1..]))
  }

  function Exec(s: State, events: seq<Event>): State
    requires Legal(s, events)
    decreases |events|
  {
    if events == [] then s else Exec(Apply(s, events[0]), events[1..])
  }

  /** The steps of the run that concern the item. */
  function BillRun(s: State, events: seq<Event>): seq<T.Event>
    requires Legal(s, events)
    decreases |events|
  {
    if events == [] then []
    else (if Bills(s, events[0]) then [BillEvent(s, events[0])] else []) + BillRun(Apply(s, events[0]), events[1..])
  }

  ghost predicate Inv(s: State) {
    P.Inv(s.service) && s.bill.mgr == s.service.mgr
  }

  lemma StepKeepsInv(s: State, e: Event)
    requires Enabled(s, e) && Inv(s)
    ensures Inv(Apply(s, e))
  {
    assert P.Ordered(s.service);
    hide P.Inv;
    if e.Service? {
      P.StepKeepsInv(s.service, e.e);
      P.ManagerStep(s.service, e.e);
    }
  }

  /** A run keeps the two views together, and its bill is a run of manager and item. */
  lemma {:induction false} RunProjects(s: State, events: seq<Event>)
    requires Legal(s, events) && Inv(s)
    ensures Inv(Exec(s, events))
    ensures T.Legal(s.bill, BillRun(s, events)) && T.Exec(s.bill, BillRun(s, events)) == Exec(s, events).bill
    decreases |events|
  {
    hide Inv, T.Apply, T.Enabled, P.Apply, P.Enabled, P.MovesManager, BillEvent;
    if events == [] {
      T.EmptyRun(s.bill);
    } else {
      var e, t := events[0], Apply(s, events[0]);
      StepKeepsInv(s, e);
      RunProjects(t, events[1..]);
      if Bills(s, e) {
        T.ExecStep(s.bill, BillEvent(s, e), BillRun(t, events[1..]));
      } else {
        assert BillRun(s, events) == BillRun(t, events[1..]);
      }
    }
  }

  /** Delivered quantity and acknowledged units are the same thing. */
  lemma DeliveredUnits(s: State)
    requires Inv(s)
    ensures T.Delivered(s.bill) == P.Total(P.SettledUnits(s.service, s.bill.x, true))
  {
    hide Gather, Sum, P.Inv;
    forall b: B.Settled
      ensures T.DeliveredPart(s.bill.x)(b) == Sum(Identity(), P.OutcomeUnits(s.bill.x, true)(b))
    {
      forall m: B.Metric ensures M.QuantityOf()(m) == Sum(Identity(), P.MetricUnits()(m)) {
        SumOne(m.quantity);
      }
      SumOfGathered(Identity(), P.MetricUnits(), M.QuantityOf(), b.metrics);
      SumNone();
    }
    SumOfGathered(Identity(), P.OutcomeUnits(s.bill.x, true), T.DeliveredPart(s.bill.x), s.service.mgr.settled);
  }

  lemma SumOne(q: int)
    ensures Sum(Identity(), [q]) == q
  {
    SumPush(Identity(), [], q);
    assert [] + [q] == [q];
  }

  lemma SumNone()
    ensures Sum(Identity(), []) == 0
  {
  }

  /**
    From accepted events to the bill.  After the shutdown every accepted unit is
    acknowledged, dead-lettered or late, and the total is its initial value plus the
    acknowledged units plus the ambiguous ones, less what overtaken updates have lost;
    it is exactly that if and only if none was overtaken, and the ambiguous part is zero
    if and only if no execution gave up after its update had landed.
  */
  lemma BilledAfterShutdown(workers: nat, capacity: nat, size: int, x: B.Id, initial: int, events: seq<Event>)
    requires workers > 0 && Legal(Init(workers, capacity, size, x, initial), events)
    requires L.MIN_INT64 <= initial <= L.MAX_INT64
    requires P.ManagerDone(Exec(Init(workers, capacity, size, x, initial), events).service.phase)
    ensures var s0 := Init(workers, capacity, size, x, initial);
      var s := Exec(s0, events);
      var acknowledged, dead := P.SettledUnits(s.service, x, true), P.SettledUnits(s.service, x, false);
      var accepted, late := P.UnitsOf(s.service.pool.accepted, x), P.UnitsOf(s.service.pool.late, x);
      && P.Total(accepted) == P.Total(acknowledged) + P.Total(dead) + P.Total(late)
      && s.bill.item.total == L.Int64(s.bill.item.exact)
      && T.Legal(s0.bill, BillRun(s0, events))
      && s.bill.item.exact <= initial + P.Total(acknowledged) + s.bill.ambiguous
      && (T.NoneOvertaken(s0.bill, BillRun(s0, events)) <==>
            s.bill.item.exact == initial + P.Total(acknowledged) + s.bill.ambiguous)
      && (s.bill.ambiguous == 0 <==> T.NoneGivenUp(s0.bill, BillRun(s0, events)))
  {
    hide L.Int64, P.Inv, P.SettledUnits, P.UnitsOf, P.Total, T.Delivered;
    var s0 := Init(workers, capacity, size, x, initial);
    var s := Exec(s0, events);
    P.InitInv(workers, capacity, size);
    RunProjects(s0, events);
    P.SettledTotals(s.service, x);
    DeliveredUnits(s);
    assert s.bill.x == x by {
      T.InitBooks(x, size, initial);
      T.RunKeepsBooks(s0.bill, BillRun(s0, events));
    }
    assert Drain.AllEnded(s.service.mgr) by { DoneMeansEnded(s.service); }
    T.TotalAtRest(x, size, initial, BillRun(s0, events));
    T.NoOverbilling(x, size, initial, BillRun(s0, events));
  }

  lemma DoneMeansEnded(s: P.State)
    requires P.Inv(s) && P.ManagerDone(s.phase)
    ensures Drain.AllEnded(s.mgr)
  {
  }
}
