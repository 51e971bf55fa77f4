/**
  The manager and the billing API together, seen from one subscription item `x`.

  Whenever a goroutine enters ProcessBatch with a batch of `x`, an execution with a
  fresh idempotency key begins in the slot of the same index, and the goroutine
  leaves ProcessBatch with the execution's result.
*/
module BilledTotal {
  import opened Gathering
  import B = BatchProtocol
  import Conservation = BatchConservation
  import Drain = BatchDrain
  import L = UsageLedger
  import opened MeteredBilling

  /** `ambiguous` is history: quantities that landed although their execution reported failure. */
  datatype State = State(x: B.Id, mgr: B.State, item: L.State, ambiguous: int)

  datatype Event =
    | Manager(e: B.Event, key: L.Key)
    | Request(r: L.Event)

  function Init(x: B.Id, size: int, initial: int): State {
    State(x, B.Init(size), L.Init(initial).(slots := [L.Idle]), 0)
  }

  /** The goroutine is inside ProcessBatch with a batch of `x`. */
  predicate Busy(t: B.Task, x: B.Id) {
    t.Processing? && t.job.id == x
  }

  /** The goroutine that moves in step `e`. */
  function Actor(e: B.Event): nat {
    match e
    case Launch(g) => g
    case Return(g, _) => g
    case Requeue(g) => g
    case Spawn(g) => g
    case Wake(g) => g
    case _ => 0
  }

  predicate Starts(s: State, e: B.Event)
    requires B.Enabled(s.mgr, e)
  {
    (e.Launch? || e.TakeNext? || e.Wake?) && Busy(B.Apply(s.mgr, e).agents[Actor(e)], s.x)
  }

  predicate Ends(s: State, e: B.Event)
    requires B.Enabled(s.mgr, e)
  {
    e.Return? && Busy(s.mgr.agents[e.g], s.x)
  }

  predicate Grows(s: State, e: B.Event)
    requires B.Enabled(s.mgr, e)
  {
    |B.Apply(s.mgr, e).agents| > |s.mgr.agents|
  }

  /** What a manager step means for the item, if anything. */
  function ItemEvent(s: State, e: B.Event, key: L.Key): L.Event
    requires B.Enabled(s.mgr, e) && (Starts(s, e) || Ends(s, e) || Grows(s, e))
  {
    if Starts(s, e) then L.Begin(Actor(e), key, Quantity(B.Apply(s.mgr, e).agents[Actor(e)].job.metrics))
    else if Ends(s, e) then L.Collect(e.g)
    else L.Grow
  }

  predicate Enabled(s: State, e: Event) {
    match e
    case Manager(m, key) =>
      && B.Enabled(s.mgr, m)
      && (m.Add? ==> m.metric.quantity > 0)
      && (Starts(s, m) || Ends(s, m) ==> L.Enabled(s.item, ItemEvent(s, m, key)))
      && (Ends(s, m) ==> s.item.slots[m.g].phase == L.Replied(m.ok))
    case Request(r) => (r.Retrieve? || r.Update? || r.GiveUp?) && L.Enabled(s.item, r)
  }

  function Apply(s: State, e: Event): State
    requires Enabled(s, e)
  {
    match e
    case Manager(m, key) =>
      s.(mgr := B.Apply(s.mgr, m),
         item := if Starts(s, m) || Ends(s, m) || Grows(s, m) then L.Apply(s.item, ItemEvent(s, m, key)) else s.item,
         ambiguous := s.ambiguous +
           if Ends(s, m) && !m.ok && s.item.slots[m.g].landed then s.item.slots[m.g].quantity else 0)
    case Request(r) => s.(item := L.Apply(s.item, r))
  }

  predicate Legal(s: State, events: seq<Event>)
    decreases |events|
  {
    events == [] || (Enabled(s, events[0]) && Legal(Apply(s, events[0]), events[1..]))
  }

  function Exec(s: State, events: seq<Event>): State
    requires Legal(s, events)
    decreases |events|
  {
    if events == [] then s else Exec(Apply(s, events[0]), events[1..])
  }

  // ----- bookkeeping

  function DeliveredPart(x: B.Id): B.Settled -> int {
    (b: B.Settled) => if b.id == x && b.delivered then Quantity(b.metrics) else 0
  }

  /** The quantities of `x` in acknowledged batches. */
  function Delivered(s: State): int { Sum(DeliveredPart(s.x), s.mgr.settled) }

  function LandedPart(): L.Slot -> int {
    (slot: L.Slot) => if slot.Executing? && slot.landed then slot.quantity else 0
  }

  /** The quantities already added by executions that have not been collected yet. */
  function InFlight(s: State): int { Sum(LandedPart(), s.item.slots) }

  /** The quantities accepted for `x`. */
  function Accepted(s: State): int { Quantity(B.AddsOf(s.mgr, s.x)) }

  ghost predicate Paired(t: B.Task, slot: L.Slot, x: B.Id) {
    if Busy(t, x) then slot.Executing? && slot.quantity == Quantity(t.job.metrics) else slot.Idle?
  }

  ghost predicate Aligned(s: State) {
    && |s.item.slots| == |s.mgr.agents|
    && forall g :: 0 <= g < |s.mgr.agents| ==> Paired(s.mgr.agents[g], s.item.slots[g], s.x)
  }

  /** Every accepted quantity in the server's record is delivered, in flight or ambiguous. */
  ghost predicate Balanced(s: State) {
    L.AppliedSum(s.item) == Delivered(s) + InFlight(s) + s.ambiguous
  }

  ghost predicate Positive(s: State) {
    forall a :: a in s.mgr.accepted ==> a.metric.quantity > 0
  }

  ghost predicate Books(s: State) {
    && Aligned(s) && Balanced(s) && L.KeysKept(s.item)
    && Conservation.Conserved(s.mgr, s.x) && Positive(s)
  }

  /** Exactly the goroutine that moves begins or ends an execution, as it enters or leaves ProcessBatch. */
  lemma MoveKeepsAligned(s: State, m: B.Event, key: L.Key)
    requires Enabled(s, Manager(m, key)) && Aligned(s)
    requires m.Launch? || m.TakeNext? || m.Return? || m.Requeue? || m.Wake?
    ensures Aligned(Apply(s, Manager(m, key)))
  {
    hide Sum;
    var t, a := Apply(s, Manager(m, key)), Actor(m);
    assert Paired(s.mgr.agents[a], s.item.slots[a], s.x);
    assert Paired(t.mgr.agents[a], t.item.slots[a], t.x);
    forall g | 0 <= g < |t.mgr.agents| && g != a ensures Paired(t.mgr.agents[g], t.item.slots[g], t.x) {
      assert Paired(s.mgr.agents[g], s.item.slots[g], s.x);
    }
  }

  /** A new goroutine gets an idle slot. */
  lemma GrowthKeepsAligned(s: State, m: B.Event, key: L.Key)
    requires Enabled(s, Manager(m, key)) && Aligned(s) && (m.Add? || m.Spawn?)
    ensures Aligned(Apply(s, Manager(m, key)))
  {
    hide Sum;
    var t := Apply(s, Manager(m, key));
    forall g | 0 <= g < |s.mgr.agents| ensures Paired(t.mgr.agents[g], t.item.slots[g], t.x) {
      assert Paired(s.mgr.agents[g], s.item.slots[g], s.x);
    }
  }

  lemma ManagerKeepsAligned(s: State, m: B.Event, key: L.Key)
    requires Enabled(s, Manager(m, key)) && Aligned(s) && s.mgr.agents != []
    ensures Aligned(Apply(s, Manager(m, key)))
  {
    if m.Add? || m.Spawn? {
      hide Aligned, Apply;
      GrowthKeepsAligned(s, m, key);
    } else if m.Launch? || m.TakeNext? || m.Return? || m.Requeue? || m.Wake? {
      hide Aligned, Apply;
      MoveKeepsAligned(s, m, key);
    }
  }

  lemma RequestKeepsAligned(s: State, r: L.Event)
    requires Enabled(s, Request(r)) && Aligned(s)
    ensures Aligned(Apply(s, Request(r)))
  {
    var t := Apply(s, Request(r));
    forall g | 0 <= g < |t.mgr.agents| ensures Paired(t.mgr.agents[g], t.item.slots[g], t.x) {
      assert Paired(s.mgr.agents[g], s.item.slots[g], s.x);
    }
  }

  lemma RequestKeepsBalanced(s: State, r: L.Event)
    requires Enabled(s, Request(r)) && Balanced(s) && L.KeysKept(s.item)
    ensures Balanced(Apply(s, Request(r)))
  {
    hide Sum;
    var t := Apply(s, Request(r));
    assert L.Keyed(s.item, s.item.slots[r.i]);
    SumReplace(LandedPart(), s.item.slots, r.i, t.item.slots[r.i]);
    SumPush(L.Amount(), s.item.applied, L.Applied(s.item.slots[r.i].key, s.item.slots[r.i].quantity));
  }

  lemma ReturnKeepsBalanced(s: State, g: nat, ok: bool, key: L.Key)
    requires Enabled(s, Manager(B.Return(g, ok), key)) && Balanced(s) && L.KeysKept(s.item) && Aligned(s)
    ensures Balanced(Apply(s, Manager(B.Return(g, ok), key)))
  {
    hide Sum;
    var job := s.mgr.agents[g].job;
    assert Paired(s.mgr.agents[g], s.item.slots[g], s.x);
    assert L.Keyed(s.item, s.item.slots[g]);
    SumReplace(LandedPart(), s.item.slots, g, L.Idle);
    SumPush(DeliveredPart(s.x), s.mgr.settled, B.Settled(job.id, job.metrics, ok, g));
  }

  lemma ManagerKeepsBalanced(s: State, m: B.Event, key: L.Key)
    requires Enabled(s, Manager(m, key)) && Balanced(s) && L.KeysKept(s.item) && Aligned(s)
    ensures Balanced(Apply(s, Manager(m, key)))
  {
    hide Sum;
    var t := Apply(s, Manager(m, key));
    if m.Return? {
      ReturnKeepsBalanced(s, m.g, m.ok, key);
    } else if Starts(s, m) {
      SumReplace(LandedPart(), s.item.slots, Actor(m), t.item.slots[Actor(m)]);
    } else if Grows(s, m) {
      SumPush(LandedPart(), s.item.slots, L.Idle);
    }
  }

  lemma StepKeepsBooks(s: State, e: Event)
    requires Enabled(s, e) && Books(s) && s.mgr.agents != []
    ensures Books(Apply(s, e)) && Apply(s, e).mgr.agents != [] && Apply(s, e).x == s.x
    ensures L.AppliedSum(s.item) <= L.AppliedSum(Apply(s, e).item) && Apply(s, e).item.initial == s.item.initial
  {
    hide Sum, Gather, L.KeysKept, L.Apply, Balanced, Aligned, Conservation.Balanced;
    match e {
      case Manager(m, key) =>
        ManagerKeepsAligned(s, m, key);
        ManagerKeepsBalanced(s, m, key);
        forall v ensures Conservation.Balanced(B.Apply(s.mgr, m), s.x, v) {
          Conservation.StepBalances(s.mgr, m, s.x, v);
        }
        if Starts(s, m) || Ends(s, m) || Grows(s, m) {
          L.StepKeepsKeys(s.item, ItemEvent(s, m, key));
        }
      case Request(r) =>
        RequestKeepsAligned(s, r);
        RequestKeepsBalanced(s, r);
        L.StepKeepsKeys(s.item, r);
    }
  }

  lemma {:induction false} RunKeepsBooks(s: State, events: seq<Event>)
    requires Legal(s, events) && Books(s) && s.mgr.agents != []
    ensures Books(Exec(s, events)) && Exec(s, events).mgr.agents != [] && Exec(s, events).x == s.x
    ensures L.AppliedSum(s.item) <= L.AppliedSum(Exec(s, events).item) && Exec(s, events).item.initial == s.item.initial
    decreases |events|
  {
    hide Books, L.AppliedSum, Apply, Enabled;
    if events != [] {
      StepKeepsBooks(s, events[0]);
      RunKeepsBooks(Apply(s, events[0]), events[1..]);
    }
  }

  // ----- the total against what was accepted

  predicate AllPositive(metrics: seq<Metric>) {
    forall m :: m in metrics ==> m.quantity > 0
  }

  lemma QuantityNonNegative(metrics: seq<Metric>)
    requires AllPositive(metrics)
    ensures 0 <= Quantity(metrics)
  {
    SumNonNegative(QuantityOf(), metrics);
  }

  /** Only positive quantities are accepted, so only positive quantities are anywhere. */
  lemma EverywherePositive(s: State)
    requires Books(s)
    ensures AllPositive(B.SettledOf(s.mgr, s.x)) && AllPositive(B.HeldOf(s.mgr, s.x))
    ensures AllPositive(B.TodoOf(s.mgr, s.x)) && AllPositive(B.BufferOf(s.mgr, s.x))
  {
    forall m | Times(B.AddsOf(s.mgr, s.x), m) > 0 ensures m.quantity > 0 {
      var i := GatherSource(B.AddedPart(s.x), s.mgr.accepted, m);
    }
    forall m
      ensures
        || m in B.SettledOf(s.mgr, s.x) || m in B.HeldOf(s.mgr, s.x)
        || m in B.TodoOf(s.mgr, s.x) || m in B.BufferOf(s.mgr, s.x)
        ==> m.quantity > 0
    {
      assert Conservation.Balanced(s.mgr, s.x, m);
    }
  }

  function HeldQuantity(x: B.Id): B.Task -> int {
    (t: B.Task) => Quantity(B.HeldPart(x)(t))
  }

  function SettledQuantity(x: B.Id): B.Settled -> int {
    (b: B.Settled) => Quantity(B.SettledPart(x)(b))
  }

  lemma InFlightIsHeld(s: State)
    requires Books(s)
    ensures InFlight(s) <= Quantity(B.HeldOf(s.mgr, s.x))
  {
    hide Sum, Gather;
    EverywherePositive(s);
    forall g | 0 <= g < |s.mgr.agents|
      ensures LandedPart()(s.item.slots[g]) <= HeldQuantity(s.x)(s.mgr.agents[g])
    {
      var t := s.mgr.agents[g];
      assert Paired(t, s.item.slots[g], s.x);
      forall m | m in B.HeldPart(s.x)(t) ensures m.quantity > 0 {
        GatherMember(B.HeldPart(s.x), s.mgr.agents, g, m);
      }
      QuantityNonNegative(B.HeldPart(s.x)(t));
    }
    SumBelow(LandedPart(), s.item.slots, HeldQuantity(s.x), s.mgr.agents);
    SumOfGathered(QuantityOf(), B.HeldPart(s.x), HeldQuantity(s.x), s.mgr.agents);
  }

  lemma DeliveredIsSettled(s: State)
    requires Books(s)
    ensures Delivered(s) <= Quantity(B.SettledOf(s.mgr, s.x))
  {
    hide Sum, Gather;
    EverywherePositive(s);
    forall i | 0 <= i < |s.mgr.settled|
      ensures DeliveredPart(s.x)(s.mgr.settled[i]) <= SettledQuantity(s.x)(s.mgr.settled[i])
    {
      var b := s.mgr.settled[i];
      forall m | m in B.SettledPart(s.x)(b) ensures m.quantity > 0 {
        GatherMember(B.SettledPart(s.x), s.mgr.settled, i, m);
      }
      QuantityNonNegative(B.SettledPart(s.x)(b));
    }
    SumBelow(DeliveredPart(s.x), s.mgr.settled, SettledQuantity(s.x), s.mgr.settled);
    SumOfGathered(QuantityOf(), B.SettledPart(s.x), SettledQuantity(s.x), s.mgr.settled);
  }

  /** Conservation in units instead of records. */
  lemma AcceptedSplits(s: State)
    requires Books(s)
    ensures Accepted(s) ==
      Quantity(B.SettledOf(s.mgr, s.x)) + Quantity(B.HeldOf(s.mgr, s.x))
      + Quantity(B.TodoOf(s.mgr, s.x)) + Quantity(B.BufferOf(s.mgr, s.x))
  {
    hide Sum, Gather;
    var settled, held := B.SettledOf(s.mgr, s.x), B.HeldOf(s.mgr, s.x);
    var todo, buffered := B.TodoOf(s.mgr, s.x), B.BufferOf(s.mgr, s.x);
    Conservation.ConservedAsMultisets(s.mgr, s.x);
    SumOfSameElements(QuantityOf(), B.AddsOf(s.mgr, s.x), settled + held + todo + buffered);
    SumJoin(QuantityOf(), settled + held + todo, buffered);
    SumJoin(QuantityOf(), settled + held, todo);
    SumJoin(QuantityOf(), settled, held);
  }

  /** The server's record never holds more than was accepted, apart from ambiguous failures. */
  lemma RecordWithinAccepted(s: State)
    requires Books(s)
    ensures L.AppliedSum(s.item) <= Accepted(s) + s.ambiguous
  {
    hide Sum, Gather;
    EverywherePositive(s);
    InFlightIsHeld(s);
    DeliveredIsSettled(s);
    AcceptedSplits(s);
    QuantityNonNegative(B.TodoOf(s.mgr, s.x));
    QuantityNonNegative(B.BufferOf(s.mgr, s.x));
  }

  predicate NoneOvertaken(s: State, events: seq<Event>)
    requires Legal(s, events)
    decreases |events|
  {
    events == [] ||
    ((events[0].Request? ==> !L.Overtakes(s.item, events[0].r)) && NoneOvertaken(Apply(s, events[0]), events[1..]))
  }

  lemma StepKeepsTotal(s: State, e: Event)
    requires Enabled(s, e) && L.Inv(s.item)
    ensures L.Inv(Apply(s, e).item) && Apply(s, e).item.initial == s.item.initial
    ensures L.Exact(Apply(s, e).item) <==> L.Exact(s.item) && (e.Request? ==> !L.Overtakes(s.item, e.r))
  {
    hide L.Inv, L.Exact;
    match e {
      case Manager(m, key) =>
        if Starts(s, m) || Ends(s, m) || Grows(s, m) {
          L.StepKeepsInv(s.item, ItemEvent(s, m, key));
        }
      case Request(r) => L.StepKeepsInv(s.item, r);
    }
  }

  lemma {:induction false} RunKeepsTotal(s: State, events: seq<Event>)
    requires Legal(s, events) && L.Inv(s.item)
    ensures L.Inv(Exec(s, events).item) && Exec(s, events).item.initial == s.item.initial
    ensures L.Exact(Exec(s, events).item) <==> L.Exact(s.item) && NoneOvertaken(s, events)
    decreases |events|
  {
    hide Apply, Enabled, L.Inv, L.Exact;
    if events != [] {
      StepKeepsTotal(s, events[0]);
      RunKeepsTotal(Apply(s, events[0]), events[1..]);
    }
  }

  lemma InitTotal(initial: int)
    requires L.MIN_INT64 <= initial <= L.MAX_INT64
    ensures var item := L.Init(initial).(slots := [L.Idle]);
      L.Inv(item) && L.Exact(item) && L.AppliedSum(item) == 0
  {
    L.WrapIsInvisible(initial);
    hide L.Int64;
  }

  lemma InitBooks(x: B.Id, size: int, initial: int)
    requires L.MIN_INT64 <= initial <= L.MAX_INT64
    ensures Books(Init(x, size, initial)) && L.Inv(Init(x, size, initial).item) && L.Exact(Init(x, size, initial).item)
  {
    var s := Init(x, size, initial);
    InitTotal(initial);
    assert InFlight(s) == 0 by { SumPush(LandedPart(), [], L.Idle); assert [] + [L.Idle] == s.item.slots; }
    assert Balanced(s);
    hide L.Int64, Balanced, L.Exact;
    assert B.HeldOf(s.mgr, x) == [] by { GatherNone(B.HeldPart(x), s.mgr.agents); }
  }

  /**
    Whatever batches overlap, fail and are retried, the untruncated total never exceeds
    its initial value plus the accepted quantity, except by quantities whose execution
    landed and then reported failure; the stored total is the same number while it fits.
  */
  lemma TotalWithinAccepted(x: B.Id, size: int, initial: int, events: seq<Event>)
    requires Legal(Init(x, size, initial), events) && L.MIN_INT64 <= initial <= L.MAX_INT64
    ensures var s := Exec(Init(x, size, initial), events);
      && s.item.total == L.Int64(s.item.exact)
      && (s.item.total == s.item.exact <==> s.item.exact <= L.MAX_INT64)
      && initial <= s.item.exact <= initial + Accepted(s) + s.ambiguous
  {
    hide L.Int64;
    var s := Exec(Init(x, size, initial), events);
    InitBooks(x, size, initial);
    RunKeepsBooks(Init(x, size, initial), events);
    RecordWithinAccepted(s);
    RunKeepsTotal(Init(x, size, initial), events);
    L.WrapIsInvisible(s.item.exact);
  }

  /**
    Once no goroutine is left, the total is the initial value plus the delivered
    quantity plus the ambiguous one exactly if no accepted update had been overtaken;
    otherwise it is less.
  */
  lemma TotalAtRest(x: B.Id, size: int, initial: int, events: seq<Event>)
    requires Legal(Init(x, size, initial), events) && L.MIN_INT64 <= initial <= L.MAX_INT64
    requires Drain.AllEnded(Exec(Init(x, size, initial), events).mgr)
    ensures var s := Exec(Init(x, size, initial), events);
      && s.item.total == L.Int64(s.item.exact)
      && s.item.exact <= initial + Delivered(s) + s.ambiguous
      && (s.item.exact == initial + Delivered(s) + s.ambiguous <==> NoneOvertaken(Init(x, size, initial), events))
  {
    hide L.Int64;
    var s := Exec(Init(x, size, initial), events);
    InitBooks(x, size, initial);
    RunKeepsBooks(Init(x, size, initial), events);
    RunKeepsTotal(Init(x, size, initial), events);
    NothingInFlight(s);
  }

  lemma NothingInFlight(s: State)
    requires Aligned(s) && Drain.AllEnded(s.mgr)
    ensures InFlight(s) == 0
    ensures forall i :: 0 <= i < |s.item.slots| ==> s.item.slots[i].Idle?
  {
    forall g | 0 <= g < |s.item.slots| ensures s.item.slots[g].Idle? && LandedPart()(s.item.slots[g]) == 0 {
      assert Paired(s.mgr.agents[g], s.item.slots[g], s.x);
    }
    SumZero(LandedPart(), s.item.slots);
  }

  // ----- when a quantity is billed although its execution failed

  /** The retries of an execution end in failure although its update has landed. */
  predicate GivesUpLanded(s: State, e: Event)
    requires Enabled(s, e)
  {
    e.Request? && e.r.GiveUp? && s.item.slots[e.r.i].landed
  }

  predicate NoneGivenUp(s: State, events: seq<Event>)
    requires Legal(s, events)
    decreases |events|
  {
    events == [] || (!GivesUpLanded(s, events[0]) && NoneGivenUp(Apply(s, events[0]), events[1..]))
  }

  predicate Failed(slot: L.Slot) {
    slot.Executing? && slot.landed && slot.phase == L.Replied(false)
  }

  /** Some landed quantity has been, or is about to be, reported as failed. */
  ghost predicate Doubt(s: State) {
    s.ambiguous > 0 || exists i :: 0 <= i < |s.item.slots| && Failed(s.item.slots[i])
  }

  lemma ManagerDoubts(s: State, m: B.Event, key: L.Key)
    requires Enabled(s, Manager(m, key)) && L.KeysKept(s.item) && Aligned(s) && s.ambiguous >= 0
    ensures var t := Apply(s, Manager(m, key));
      t.ambiguous >= 0 && (Doubt(t) <==> Doubt(s))
  {
    var t := Apply(s, Manager(m, key));
    if Ends(s, m) {
      assert L.Keyed(s.item, s.item.slots[m.g]);
    }
    hide L.KeysKept, Aligned;
    forall i | 0 <= i < |s.item.slots| && Failed(s.item.slots[i]) ensures Doubt(t) {
      if t.item.slots[i] == s.item.slots[i] {
        assert Failed(t.item.slots[i]);
      }
    }
    forall i | 0 <= i < |t.item.slots| && Failed(t.item.slots[i]) ensures Doubt(s) {
      assert Failed(s.item.slots[i]);
    }
  }

  lemma RequestDoubts(s: State, r: L.Event)
    requires Enabled(s, Request(r)) && L.KeysKept(s.item) && s.ambiguous >= 0
    ensures var t := Apply(s, Request(r));
      t.ambiguous == s.ambiguous && (Doubt(t) <==> Doubt(s) || GivesUpLanded(s, Request(r)))
  {
    hide L.KeysKept;
    var t := Apply(s, Request(r));
    if GivesUpLanded(s, Request(r)) {
      assert Failed(t.item.slots[r.i]);
    }
    forall i | 0 <= i < |s.item.slots| && Failed(s.item.slots[i]) ensures Failed(t.item.slots[i]) {
    }
    forall i | 0 <= i < |t.item.slots| && Failed(t.item.slots[i]) ensures Doubt(s) || GivesUpLanded(s, Request(r)) {
      if t.item.slots[i] == s.item.slots[i] {
        assert Failed(s.item.slots[i]);
      }
    }
  }

  lemma StepDoubts(s: State, e: Event)
    requires Enabled(s, e) && L.KeysKept(s.item) && Aligned(s) && s.ambiguous >= 0
    ensures Apply(s, e).ambiguous >= 0
    ensures Doubt(Apply(s, e)) <==> Doubt(s) || GivesUpLanded(s, e)
  {
    hide Apply, Doubt, Aligned, L.KeysKept;
    match e
    case Manager(m, key) => ManagerDoubts(s, m, key);
    case Request(r) => RequestDoubts(s, r);
  }

  lemma {:induction false} RunDoubts(s: State, events: seq<Event>)
    requires Legal(s, events) && Books(s) && s.mgr.agents != [] && s.ambiguous >= 0
    ensures Exec(s, events).ambiguous >= 0
    ensures Doubt(Exec(s, events)) <==> Doubt(s) || !NoneGivenUp(s, events)
    decreases |events|
  {
    hide Apply, Enabled, Doubt, GivesUpLanded, Balanced, Conservation.Conserved, L.KeysKept, Aligned, Positive;
    hide L.AppliedSum;
    if events != [] {
      StepDoubts(s, events[0]);
      StepKeepsBooks(s, events[0]);
      RunDoubts(Apply(s, events[0]), events[1..]);
    }
  }

  /**
    Overbilling, exactly.  As long as no execution gives up after its update has landed,
    the total stays within initial plus accepted.  At rest the ambiguous quantity is zero
    exactly then, and with nothing overtaken the total is within initial plus delivered
    exactly then.
  */
  lemma NoOverbilling(x: B.Id, size: int, initial: int, events: seq<Event>)
    requires Legal(Init(x, size, initial), events) && L.MIN_INT64 <= initial <= L.MAX_INT64
    ensures var s, clean := Exec(Init(x, size, initial), events), NoneGivenUp(Init(x, size, initial), events);
      && (clean ==> s.ambiguous == 0 && initial <= s.item.exact <= initial + Accepted(s))
      && (Drain.AllEnded(s.mgr) ==>
            && (s.ambiguous == 0 <==> clean)
            && (clean ==> s.item.exact <= initial + Delivered(s))
            && (NoneOvertaken(Init(x, size, initial), events) ==>
                  (s.item.exact <= initial + Delivered(s) <==> clean)))
  {
    hide L.Int64;
    var s := Exec(Init(x, size, initial), events);
    InitBooks(x, size, initial);
    RunKeepsBooks(Init(x, size, initial), events);
    RunDoubts(Init(x, size, initial), events);
    TotalWithinAccepted(x, size, initial, events);
    if Drain.AllEnded(s.mgr) {
      NothingInFlight(s);
      TotalAtRest(x, size, initial, events);
    }
  }

  /** The answer to an accepted update always arrives. */
  predicate AnswersArrive(events: seq<Event>) {
    forall i :: 0 <= i < |events| && events[i].Request? && events[i].r.Update? && events[i].r.accept ==>
      !events[i].r.lost
  }

  /** What has landed has been answered. */
  predicate Answered(s: State) {
    forall i :: 0 <= i < |s.item.slots| && s.item.slots[i].Executing? && s.item.slots[i].landed ==>
      s.item.slots[i].phase == L.Replied(true)
  }

  /** If answers arrive, an error means that nothing was applied. */
  lemma {:induction false} AnsweredMeansNoneGivenUp(s: State, events: seq<Event>)
    requires Legal(s, events) && Answered(s) && AnswersArrive(events)
    ensures NoneGivenUp(s, events)
    decreases |events|
  {
    if events != [] {
      assert forall i :: 0 <= i < |events[1..]| ==> events[1..][i] == events[i + 1];
      AnsweredMeansNoneGivenUp(Apply(s, events[0]), events[1..]);
    }
  }

  lemma EmptyRun(s: State)
    ensures Legal(s, []) && Exec(s, []) == s
  {
  }

  lemma ExecStep(s: State, e: Event, rest: seq<Event>)
    requires Enabled(s, e) && Legal(Apply(s, e), rest)
    ensures Legal(s, [e] + rest) && Exec(s, [e] + rest) == Exec(Apply(s, e), rest)
  {
    assert ([e] + rest)[1..] == rest;
  }

  lemma {:induction false} ExecJoin(s: State, a: seq<Event>, b: seq<Event>)
    requires Legal(s, a) && Legal(Exec(s, a), b)
    ensures Legal(s, a + b) && Exec(s, a + b) == Exec(Exec(s, a), b)
    decreases |a|
  {
    hide Apply, Enabled;
    if a == [] {
      assert a + b == b;
    } else {
      ExecJoin(Apply(s, a[0]), a[1..], b);
      assert (a + b)[0] == a[0] && (a + b)[1..] == a[1..] + b;
    }
  }

  lemma OneMoreStep(s: State, events: seq<Event>, e: Event)
    requires Legal(s, events) && Enabled(Exec(s, events), e)
    ensures Legal(s, events + [e]) && Exec(s, events + [e]) == Apply(Exec(s, events), e)
  {
    var t := Exec(s, events);
    EmptyRun(Apply(t, e));
    ExecStep(t, e, []);
    assert [e] + [] == [e];
    ExecJoin(s, events, [e]);
  }

  // ----- a fresh key is all a batch needs

  /** Nothing empty is ever buffered or carried. */
  ghost predicate Loaded(m: B.State) {
    && (forall id :: id in m.buffer ==> m.buffer[id] != [])
    && (m.loop.Flushing? ==> forall id :: id in m.loop.todo ==> m.loop.todo[id] != [])
    && (forall g :: 0 <= g < |m.agents| ==>
          match m.agents[g]
          case Handoff(_, metrics) => metrics != []
          case Processing(job) => job.metrics != []
          case Requeueing(job) => job.metrics != []
          case _ => true)
  }

  lemma AddKeepsLoaded(m: B.State, id: B.Id, metric: Metric)
    requires Loaded(m)
    ensures Loaded(B.ApplyAdd(m, id, metric))
  {
  }

  lemma TaskKeepsLoaded(m: B.State, e: B.Event)
    requires B.Enabled(m, e) && Loaded(m) && (e.Launch? || e.Return? || e.Requeue? || e.Spawn? || e.Wake?)
    ensures Loaded(B.Apply(m, e))
  {
    var t := B.Apply(m, e);
    assert t.loop == m.loop;
    assert forall g :: 0 <= g < |m.agents| && g != e.g ==> t.agents[g] == m.agents[g];
  }

  lemma LoopKeepsLoaded(m: B.State, e: B.Event)
    requires B.Enabled(m, e) && Loaded(m) && (e.Tick? || e.TakeNext? || e.LoopEnd? || e.Cancel? || e.CloseDone?)
    ensures Loaded(B.Apply(m, e))
  {
  }

  lemma StepKeepsLoaded(m: B.State, e: B.Event)
    requires B.Enabled(m, e) && Loaded(m)
    ensures Loaded(B.Apply(m, e))
  {
    hide Loaded;
    match e
    case Add(id, metric) => AddKeepsLoaded(m, id, metric);
    case Launch(_) => TaskKeepsLoaded(m, e);
    case Return(_, _) => TaskKeepsLoaded(m, e);
    case Requeue(_) => TaskKeepsLoaded(m, e);
    case Spawn(_) => TaskKeepsLoaded(m, e);
    case Wake(_) => TaskKeepsLoaded(m, e);
    case _ => LoopKeepsLoaded(m, e);
  }

  lemma {:induction false} RunKeepsLoaded(s: State, events: seq<Event>)
    requires Legal(s, events) && Loaded(s.mgr)
    ensures Loaded(Exec(s, events).mgr)
    decreases |events|
  {
    hide Loaded;
    if events != [] {
      if events[0].Manager? {
        StepKeepsLoaded(s.mgr, events[0].e);
      }
      RunKeepsLoaded(Apply(s, events[0]), events[1..]);
    }
  }

  lemma PositiveQuantity(metrics: seq<Metric>)
    requires metrics != [] && AllPositive(metrics)
    ensures Quantity(metrics) > 0
  {
    SumAtLeast(QuantityOf(), metrics, 0);
  }

  lemma AKeyEnables(s: State, m: B.Event, key: L.Key)
    requires Books(s) && Loaded(s.mgr) && B.Enabled(s.mgr, m) && !Ends(s, m)
    requires key !in s.item.used && (m.Add? ==> m.metric.quantity > 0)
    ensures Enabled(s, Manager(m, key))
  {
    hide Gather, Sum;
    if Starts(s, m) {
      var g := Actor(m);
      EverywherePositive(s);
      assert Paired(s.mgr.agents[g], s.item.slots[g], s.x);
      var metrics := B.Apply(s.mgr, m).agents[g].job.metrics;
      if m.Launch? {
        forall v | v in metrics ensures v.quantity > 0 {
          GatherMember(B.HeldPart(s.x), s.mgr.agents, g, v);
        }
      }
      PositiveQuantity(metrics);
    }
  }

  /** In every reachable state an unused key is all a manager step needs that does not end an execution. */
  lemma OnlyAKeyIsNeeded(x: B.Id, size: int, initial: int, events: seq<Event>, m: B.Event, key: L.Key)
    requires Legal(Init(x, size, initial), events) && L.MIN_INT64 <= initial <= L.MAX_INT64
    requires B.Enabled(Exec(Init(x, size, initial), events).mgr, m) && (m.Add? ==> m.metric.quantity > 0)
    requires !Ends(Exec(Init(x, size, initial), events), m) && key !in Exec(Init(x, size, initial), events).item.used
    ensures Enabled(Exec(Init(x, size, initial), events), Manager(m, key))
  {
    hide Books, Loaded, L.Int64;
    InitBooks(x, size, initial);
    assert Loaded(Init(x, size, initial).mgr) by { StartsLoaded(x, size, initial); }
    RunKeepsBooks(Init(x, size, initial), events);
    RunKeepsLoaded(Init(x, size, initial), events);
    AKeyEnables(Exec(Init(x, size, initial), events), m, key);
  }

  lemma StartsLoaded(x: B.Id, size: int, initial: int)
    ensures Loaded(Init(x, size, initial).mgr)
  {
  }

  /** The execution in slot `g` gives up, or has already answered. */
  lemma AnswerFrom(s: State, g: nat) returns (requests: seq<Event>)
    requires L.InPhase(s.item, g)
    ensures Legal(s, requests) && (forall i :: 0 <= i < |requests| ==> requests[i].Request?)
    ensures var t := Exec(s, requests);
      t.x == s.x && t.mgr == s.mgr && L.InPhase(t.item, g) && t.item.slots[g].phase.Replied?
  {
    hide Legal, Exec;
    EmptyRun(s);
    requests := [];
    var t := s;
    if t.item.slots[g].phase.HasRead? {
      var refuse := Request(L.Update(g, false, false, true));
      OneMoreStep(s, requests, refuse);
      requests, t := requests + [refuse], Apply(t, refuse);
    }
    if t.item.slots[g].phase.Fresh? {
      OneMoreStep(s, requests, Request(L.GiveUp(g)));
      requests, t := requests + [Request(L.GiveUp(g))], Apply(t, Request(L.GiveUp(g)));
    }
  }

  /** From wherever an execution stands, its own steps lead to an answer with which ProcessBatch can return. */
  lemma AnswerIsReached(x: B.Id, size: int, initial: int, events: seq<Event>, g: nat, key: L.Key)
    returns (requests: seq<Event>, ok: bool)
    requires Legal(Init(x, size, initial), events) && L.MIN_INT64 <= initial <= L.MAX_INT64
    requires B.Enabled(Exec(Init(x, size, initial), events).mgr, B.Return(g, true))
    ensures var s := Exec(Init(x, size, initial), events);
      && Legal(s, requests) && (forall i :: 0 <= i < |requests| ==> requests[i].Request?)
      && Exec(s, requests).mgr == s.mgr && Enabled(Exec(s, requests), Manager(B.Return(g, ok), key))
  {
    hide L.Int64, Balanced, L.KeysKept, Conservation.Conserved, Positive, L.AppliedSum, L.Apply, B.Apply, Legal, Exec;
    var s := Exec(Init(x, size, initial), events);
    InitBooks(x, size, initial);
    RunKeepsBooks(Init(x, size, initial), events);
    assert Paired(s.mgr.agents[g], s.item.slots[g], s.x);
    requests, ok := [], true;
    EmptyRun(s);
    if Busy(s.mgr.agents[g], s.x) {
      requests := AnswerFrom(s, g);
      ok := Exec(s, requests).item.slots[g].phase.ok;
    }
  }

  // ----- batches that do not overlap

  ghost predicate NeverOverlaps(s: State, events: seq<Event>)
    requires Legal(s, events)
    decreases |events|
  {
    Conservation.OneInFlight(s.mgr, s.x) && (events == [] || NeverOverlaps(Apply(s, events[0]), events[1..]))
  }

  /** With one batch of `x` in flight, one execution is under way. */
  lemma OneExecution(s: State)
    requires Aligned(s) && Loaded(s.mgr) && Conservation.OneInFlight(s.mgr, s.x)
    ensures L.Alone(s.item)
  {
    forall i, j | 0 <= i < j < |s.item.slots| ensures s.item.slots[i].Idle? || s.item.slots[j].Idle? {
      assert Paired(s.mgr.agents[i], s.item.slots[i], s.x) && Paired(s.mgr.agents[j], s.item.slots[j], s.x);
      if s.item.slots[i].Executing? && s.item.slots[j].Executing? {
        assert Conservation.Carries(s.mgr.agents[i], s.x) && Conservation.Carries(s.mgr.agents[j], s.x);
      }
    }
  }

  lemma {:induction false} NoOverlapNoOvertaking(s: State, events: seq<Event>)
    requires Legal(s, events) && Books(s) && s.mgr.agents != [] && Loaded(s.mgr) && L.ReadsCurrent(s.item)
    requires NeverOverlaps(s, events)
    ensures NoneOvertaken(s, events)
    decreases |events|
  {
    hide Loaded, Balanced, Conservation.Conserved, L.KeysKept, Aligned, Positive, L.AppliedSum, L.Alone, L.ReadsCurrent;
    hide L.Apply, B.Apply, Conservation.OneInFlight;
    if events != [] {
      var e, t := events[0], Apply(s, events[0]);
      OneExecution(s);
      StepKeepsBooks(s, e);
      if e.Request? {
        L.StepKeepsReadsCurrent(s.item, e.r);
      } else {
        StepKeepsLoaded(s.mgr, e.e);
        if Starts(s, e.e) || Ends(s, e.e) || Grows(s, e.e) {
          L.StepKeepsReadsCurrent(s.item, ItemEvent(s, e.e, e.key));
        }
      }
      NoOverlapNoOvertaking(t, events[1..]);
    }
  }

  /** If no two batches of the item are ever in flight together, the total at rest is exact. */
  lemma TotalWithoutOverlap(x: B.Id, size: int, initial: int, events: seq<Event>)
    requires Legal(Init(x, size, initial), events) && L.MIN_INT64 <= initial <= L.MAX_INT64
    requires Drain.AllEnded(Exec(Init(x, size, initial), events).mgr) && NeverOverlaps(Init(x, size, initial), events)
    ensures var s := Exec(Init(x, size, initial), events);
      s.item.exact == initial + Delivered(s) + s.ambiguous && s.item.total == L.Int64(s.item.exact)
  {
    hide L.Int64;
    InitBooks(x, size, initial);
    StartsLoaded(x, size, initial);
    NoOverlapNoOvertaking(Init(x, size, initial), events);
    TotalAtRest(x, size, initial, events);
  }
}
