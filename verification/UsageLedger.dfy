/**
  The running total of one subscription item and the executions that raise it.

  An execution reads the total and later writes back the sum under its batch's
  idempotency key; other executions may act in between, requests may fail, and
  answers may get lost.  The server performs the first accepted Update of a key
  and replays the recorded outcome to later ones.
*/
module UsageLedger {
  import opened Gathering

  type Key = string

  const MAX_INT64: int := 0x7FFF_FFFF_FFFF_FFFF
  const MIN_INT64: int := -0x8000_0000_0000_0000

  /** Two's-complement truncation, as Go's int64 addition performs it. */
  function Int64(x: int): int {
    (x + 0x8000_0000_0000_0000) % 0x1_0000_0000_0000_0000 - 0x8000_0000_0000_0000
  }

  datatype Phase =
    | Fresh                              // about to retrieve
    | HasRead(value: int, untruncated: int, stamp: nat)    // read when `stamp` updates had been applied
    | Replied(ok: bool)                  // finished with this result

  /** `landed` is history: the quantity of this execution is in the total's record. */
  datatype Slot = Idle | Executing(key: Key, quantity: int, phase: Phase, landed: bool)

  datatype Applied = Applied(key: Key, quantity: int)

  /** `exact` is history: what the total would be if additions did not wrap around. */
  datatype State = State(
    initial: int,
    total: int,
    exact: int,
    seen: map<Key, bool>,
    slots: seq<Slot>,
    applied: seq<Applied>,
    used: set<Key>)

  /**
    `accept`: the server performs a first Update; `recorded`: it records a refusal
    under the key; `lost`: the answer does not reach the client.
  */
  datatype Event =
    | Grow
    | Begin(i: nat, key: Key, quantity: int)
    | Retrieve(i: nat)
    | Update(i: nat, accept: bool, recorded: bool, lost: bool)
    | GiveUp(i: nat)
    | Collect(i: nat)

  function Init(initial: int): State {
    State(initial, initial, initial, map[], [], [], {})
  }

  predicate InPhase(s: State, i: nat) {
    i < |s.slots| && s.slots[i].Executing?
  }

  predicate Enabled(s: State, e: Event) {
    match e
    case Grow => true
    case Begin(i, key, quantity) => i < |s.slots| && s.slots[i].Idle? && key !in s.used && quantity > 0
    case Retrieve(i) => InPhase(s, i) && s.slots[i].phase.Fresh?
    case Update(i, _, _, _) => InPhase(s, i) && s.slots[i].phase.HasRead?
    case GiveUp(i) => InPhase(s, i) && s.slots[i].phase.Fresh?
    case Collect(i) => InPhase(s, i) && s.slots[i].phase.Replied?
  }

  function Apply(s: State, e: Event): State
    requires Enabled(s, e)
  {
    match e
    case Grow => s.(slots := s.slots + [Idle])
    case Begin(i, key, quantity) =>
      s.(slots := s.slots[i := Executing(key, quantity, Fresh, false)], used := s.used + {key})
    case Retrieve(i) => s.(slots := s.slots[i := s.slots[i].(phase := HasRead(s.total, s.exact, |s.applied|))])
    case Update(i, accept, recorded, lost) => ApplyUpdate(s, i, accept, recorded, lost)
    case GiveUp(i) => s.(slots := s.slots[i := s.slots[i].(phase := Replied(false))])
    case Collect(i) => s.(slots := s.slots[i := Idle])
  }

  /** A key already seen is answered from the record; an answer that is lost or negative leads to another attempt. */
  function ApplyUpdate(s: State, i: nat, accept: bool, recorded: bool, lost: bool): State
    requires Enabled(s, Update(i, accept, recorded, lost))
  {
    var slot := s.slots[i];
    if slot.key in s.seen then
      s.(slots := s.slots[i := slot.(phase := if s.seen[slot.key] && !lost then Replied(true) else Fresh)])
    else if accept then
      s.(total := Int64(slot.phase.value + slot.quantity),
         exact := slot.phase.untruncated + slot.quantity,
         seen := s.seen[slot.key := true],
         applied := s.applied + [Applied(slot.key, slot.quantity)],
         slots := s.slots[i := slot.(phase := if lost then Fresh else Replied(true), landed := true)])
    else
      s.(seen := if recorded then s.seen[slot.key := false] else s.seen,
         slots := s.slots[i := slot.(phase := Fresh)])
  }

  predicate Legal(s: State, events: seq<Event>)
    decreases |events|
  {
    events == [] || (Enabled(s, events[0]) && Legal(Apply(s, events[0]), events[1..]))
  }

  function Exec(s: State, events: seq<Event>): State
    requires Legal(s, events)
    decreases |events|
  {
    if events == [] then s else Exec(Apply(s, events[0]), events[1..])
  }

  // ----- accounting

  function Amount(): Applied -> int { (a: Applied) => a.quantity }

  /** The sum of all quantities the server has accepted. */
  function AppliedSum(s: State): int { Sum(Amount(), s.applied) }

  /** A read never promises more than what had been applied when it was made, and a current read is the total. */
  ghost predicate HonestRead(s: State, slot: Slot) {
    slot.Executing? && slot.phase.HasRead? ==>
      var v, k := slot.phase.untruncated, slot.phase.stamp;
      && k <= |s.applied| && slot.phase.value == Int64(v)
      && s.initial <= v <= s.initial + Sum(Amount(), s.applied[..k])
      && (k == |s.applied| ==> v == s.exact)
  }

  /** What an execution's key says: its quantity has landed exactly if the server recorded its success. */
  ghost predicate Keyed(s: State, slot: Slot) {
    slot.Executing? ==>
      && slot.key in s.used && slot.quantity > 0
      && (slot.landed <==> slot.key in s.seen && s.seen[slot.key])
      && (slot.landed ==> Applied(slot.key, slot.quantity) in s.applied)
      && (slot.phase == Replied(true) ==> slot.landed)
  }

  ghost predicate KeysKept(s: State) {
    && (forall i :: 0 <= i < |s.slots| ==> Keyed(s, s.slots[i]))
    && (forall i, j :: 0 <= i < j < |s.slots| && s.slots[i].Executing? && s.slots[j].Executing? ==>
          s.slots[i].key != s.slots[j].key)
    && s.seen.Keys <= s.used
    && (forall a :: a in s.applied ==> a.quantity > 0 && a.key in s.seen && s.seen[a.key])
    && (forall i, j :: 0 <= i < j < |s.applied| ==> s.applied[i].key != s.applied[j].key)
  }

  ghost predicate Inv(s: State) {
    && KeysKept(s)
    && s.total == Int64(s.exact) && s.initial <= s.exact <= s.initial + AppliedSum(s)
    && (forall i :: 0 <= i < |s.slots| ==> HonestRead(s, s.slots[i]))
  }

  /** The event applies an update although another one was applied after its read. */
  predicate Overtakes(s: State, e: Event)
    requires Enabled(s, e)
  {
    e.Update? && e.accept && s.slots[e.i].key !in s.seen && s.slots[e.i].phase.stamp != |s.applied|
  }

  predicate NoneOvertaken(s: State, events: seq<Event>)
    requires Legal(s, events)
    decreases |events|
  {
    events == [] || (!Overtakes(s, events[0]) && NoneOvertaken(Apply(s, events[0]), events[1..]))
  }

  /** No accepted quantity is missing from the total. */
  predicate Exact(s: State) {
    s.exact == s.initial + AppliedSum(s)
  }

  /** Truncating in between changes nothing. */
  lemma WrapOnce(a: int, b: int)
    ensures Int64(Int64(a) + b) == Int64(a + b)
  {
  }

  /** The truncated value is the one signed 64-bit number that differs by a multiple of two to the 64. */
  lemma WrapsAround(x: int)
    ensures -9_223_372_036_854_775_808 <= Int64(x) <= 9_223_372_036_854_775_807
    ensures (x - Int64(x)) % 18_446_744_073_709_551_616 == 0
  {
    var y := x + 0x8000_0000_0000_0000;
    assert x - Int64(x) == y / 0x1_0000_0000_0000_0000 * 0x1_0000_0000_0000_0000;
  }

  /** Truncation is invisible exactly while the value fits. */
  lemma WrapIsInvisible(x: int)
    ensures Int64(x) == x <==> MIN_INT64 <= x <= MAX_INT64
  {
  }

  lemma PrefixSums(applied: seq<Applied>, k: nat)
    requires k <= |applied| && forall i :: 0 <= i < |applied| ==> applied[i].quantity > 0
    ensures 0 <= Sum(Amount(), applied[..k]) <= Sum(Amount(), applied)
    ensures k < |applied| ==> Sum(Amount(), applied[..k]) < Sum(Amount(), applied)
  {
    SumNonNegative(Amount(), applied[..k]);
    SumNonNegative(Amount(), applied[k..]);
    assert applied == applied[..k] + applied[k..];
    SumJoin(Amount(), applied[..k], applied[k..]);
    if k < |applied| {
      SumAtLeast(Amount(), applied[k..], 0);
    }
  }

  /** The arithmetic of an accepted update: it stays within the record, and exactness survives only a current read. */
  lemma AcceptedUpdate(s: State, i: nat, recorded: bool, lost: bool)
    requires Inv(s) && Enabled(s, Update(i, true, recorded, lost)) && s.slots[i].key !in s.seen
    ensures var t := Apply(s, Update(i, true, recorded, lost));
      && t.total == Int64(t.exact) && s.initial <= t.exact <= s.initial + AppliedSum(t)
      && (Exact(t) <==> Exact(s) && s.slots[i].phase.stamp == |s.applied|)
  {
    hide Sum, Int64;
    var slot := s.slots[i];
    assert HonestRead(s, slot) && Keyed(s, slot);
    WrapOnce(slot.phase.untruncated, slot.quantity);
    SumPush(Amount(), s.applied, Applied(slot.key, slot.quantity));
    PrefixSums(s.applied, slot.phase.stamp);
    assert s.applied[..|s.applied|] == s.applied;
  }

  lemma UpdateKeepsReads(s: State, t: State, slot: Slot)
    requires HonestRead(s, slot) && s.applied <= t.applied && s.initial == t.initial
    requires |t.applied| == |s.applied| ==> t.exact == s.exact
    ensures HonestRead(t, slot)
  {
    if slot.Executing? && slot.phase.HasRead? {
      assert t.applied[..slot.phase.stamp] == s.applied[..slot.phase.stamp];
    }
  }

  lemma AcceptKeepsKeys(s: State, i: nat, recorded: bool, lost: bool)
    requires KeysKept(s) && Enabled(s, Update(i, true, recorded, lost)) && s.slots[i].key !in s.seen
    ensures KeysKept(Apply(s, Update(i, true, recorded, lost)))
  {
    var t := Apply(s, Update(i, true, recorded, lost));
    assert Keyed(s, s.slots[i]);
    assert t.applied[|s.applied|] in t.applied;
    forall j | 0 <= j < |t.slots| ensures Keyed(t, t.slots[j]) {
      if j != i {
        assert t.slots[j] == s.slots[j] && Keyed(s, s.slots[j]);
      }
    }
  }

  lemma StepKeepsKeys(s: State, e: Event)
    requires KeysKept(s) && Enabled(s, e)
    ensures KeysKept(Apply(s, e)) && Apply(s, e).initial == s.initial
    ensures AppliedSum(s) <= AppliedSum(Apply(s, e))
  {
    hide Sum;
    var t := Apply(s, e);
    if e.Update? && e.accept && s.slots[e.i].key !in s.seen {
      assert Keyed(s, s.slots[e.i]);
      AcceptKeepsKeys(s, e.i, e.recorded, e.lost);
      SumPush(Amount(), s.applied, Applied(s.slots[e.i].key, s.slots[e.i].quantity));
    } else {
      forall j | 0 <= j < |t.slots| ensures Keyed(t, t.slots[j]) {
        if j < |s.slots| {
          assert Keyed(s, s.slots[j]);
        }
      }
    }
  }

  lemma {:induction false} RunKeepsKeys(s: State, events: seq<Event>)
    requires Legal(s, events) && KeysKept(s)
    ensures KeysKept(Exec(s, events)) && Exec(s, events).initial == s.initial
    ensures AppliedSum(s) <= AppliedSum(Exec(s, events))
    decreases |events|
  {
    hide KeysKept, Apply, AppliedSum;
    if events != [] {
      StepKeepsKeys(s, events[0]);
      RunKeepsKeys(Apply(s, events[0]), events[1..]);
    }
  }

  /**
    A step keeps reads honest and the total within the record, and the total stays
    exact unless an update lands that had been overtaken since its read.
  */
  lemma StepKeepsInv(s: State, e: Event)
    requires Inv(s) && Enabled(s, e)
    ensures Inv(Apply(s, e))
    ensures Exact(Apply(s, e)) <==> Exact(s) && !Overtakes(s, e)
  {
    hide Sum, KeysKept, Int64;
    var t := Apply(s, e);
    StepKeepsKeys(s, e);
    if e.Update? && e.accept && s.slots[e.i].key !in s.seen {
      AcceptedUpdate(s, e.i, e.recorded, e.lost);
    }
    assert s.applied[..|s.applied|] == s.applied;
    forall j | 0 <= j < |t.slots| ensures HonestRead(t, t.slots[j]) {
      if j < |s.slots| {
        assert HonestRead(s, s.slots[j]);
        if t.slots[j] == s.slots[j] {
          UpdateKeepsReads(s, t, s.slots[j]);
        }
      }
    }
  }

  lemma {:induction false} RunKeepsInv(s: State, events: seq<Event>)
    requires Legal(s, events) && Inv(s)
    ensures Inv(Exec(s, events)) && Exec(s, events).initial == s.initial
    ensures Exact(Exec(s, events)) <==> Exact(s) && NoneOvertaken(s, events)
    decreases |events|
  {
    if events != [] {
      hide Inv, Exact;
      assert Apply(s, events[0]).initial == s.initial;
      hide Apply;
      StepKeepsInv(s, events[0]);
      RunKeepsInv(Apply(s, events[0]), events[1..]);
    }
  }

  /**
    Under any interleaving and any faults the untruncated total stays between its initial
    value and that value plus everything accepted, and it is exact precisely if no
    accepted update had another one applied between its read and its write.  The stored
    total is its truncation to 64 bits, so the same number while it fits.
  */
  lemma TotalIsBounded(initial: int, events: seq<Event>)
    requires Legal(Init(initial), events) && MIN_INT64 <= initial <= MAX_INT64
    ensures var s := Exec(Init(initial), events);
      && s.total == Int64(s.exact)
      && initial <= s.exact <= initial + AppliedSum(s)
      && (s.exact == initial + AppliedSum(s) <==> NoneOvertaken(Init(initial), events))
      && (s.total == s.exact <==> s.exact <= MAX_INT64)
  {
    WrapIsInvisible(initial);
    WrapIsInvisible(Exec(Init(initial), events).exact);
    hide Int64;
    RunKeepsInv(Init(initial), events);
  }

  // ----- idempotency

  /**
    Whatever answers get lost, a key's quantity is applied at most once, and an
    execution that reports success has had exactly its own quantity applied.
  */
  lemma AtMostOncePerKey(initial: int, events: seq<Event>)
    requires Legal(Init(initial), events)
    ensures var s := Exec(Init(initial), events);
      && (forall i, j :: 0 <= i < j < |s.applied| ==> s.applied[i].key != s.applied[j].key)
      && (forall i :: 0 <= i < |s.slots| && s.slots[i].Executing? && s.slots[i].phase == Replied(true) ==>
            Applied(s.slots[i].key, s.slots[i].quantity) in s.applied)
  {
    RunKeepsKeys(Init(initial), events);
    var s := Exec(Init(initial), events);
    assert forall i :: 0 <= i < |s.slots| ==> Keyed(s, s.slots[i]);
  }

  /** An execution can report failure although its quantity is in the total: the answer to its update was lost. */
  lemma LostAnswerLooksLikeFailure(initial: int, key: Key, quantity: int)
    requires quantity > 0
    ensures var events := [Grow, Begin(0, key, quantity), Retrieve(0), Update(0, true, true, true), GiveUp(0)];
      && Legal(Init(initial), events)
      && Exec(Init(initial), events).slots == [Executing(key, quantity, Replied(false), true)]
      && Exec(Init(initial), events).total == Int64(initial + quantity)
  {
    var s1 := Apply(Init(initial), Grow);
    var s2 := Apply(s1, Begin(0, key, quantity));
    var s3 := Apply(s2, Retrieve(0));
    var s4 := Apply(s3, Update(0, true, true, true));
    ExecStep(s4, GiveUp(0), []);
    ExecStep(s3, Update(0, true, true, true), [GiveUp(0)]);
    ExecStep(s2, Retrieve(0), [Update(0, true, true, true), GiveUp(0)]);
    ExecStep(s1, Begin(0, key, quantity), [Retrieve(0), Update(0, true, true, true), GiveUp(0)]);
  }

  lemma EmptyRun(s: State)
    ensures Legal(s, []) && Exec(s, []) == s
  {
  }

  lemma ExecStep(s: State, e: Event, rest: seq<Event>)
    requires Enabled(s, e) && Legal(Apply(s, e), rest)
    ensures Legal(s, [e] + rest) && Exec(s, [e] + rest) == Exec(Apply(s, e), rest)
  {
    assert ([e] + rest)[1..] == rest;
  }

  lemma {:induction false} ExecJoin(s: State, a: seq<Event>, b: seq<Event>)
    requires Legal(s, a) && Legal(Exec(s, a), b)
    ensures Legal(s, a + b) && Exec(s, a + b) == Exec(Exec(s, a), b)
    decreases |a|
  {
    if a == [] {
      assert a + b == b;
    } else {
      ExecJoin(Apply(s, a[0]), a[1..], b);
      assert (a + b)[0] == a[0] && (a + b)[1..] == a[1..] + b;
    }
  }

  // ----- executions that do not overlap

  /** At most one execution of the item is under way. */
  predicate Alone(s: State) {
    forall i, j :: 0 <= i < j < |s.slots| ==> s.slots[i].Idle? || s.slots[j].Idle?
  }

  predicate AlwaysAlone(s: State, events: seq<Event>)
    requires Legal(s, events)
    decreases |events|
  {
    Alone(s) && (events == [] || AlwaysAlone(Apply(s, events[0]), events[1..]))
  }

  predicate ReadsCurrent(s: State) {
    forall i :: 0 <= i < |s.slots| && s.slots[i].Executing? && s.slots[i].phase.HasRead? ==>
      s.slots[i].phase.stamp == |s.applied|
  }

  lemma StepKeepsReadsCurrent(s: State, e: Event)
    requires Enabled(s, e) && Alone(s) && ReadsCurrent(s)
    ensures !Overtakes(s, e) && ReadsCurrent(Apply(s, e))
  {
    var t := Apply(s, e);
    forall i | 0 <= i < |s.slots| && t.slots[i] == s.slots[i] && s.slots[i].Executing? && s.slots[i].phase.HasRead?
      ensures s.slots[i].phase.stamp == |s.applied|
    {
    }
  }

  lemma {:induction false} AloneIsNeverOvertaken(s: State, events: seq<Event>)
    requires Legal(s, events) && AlwaysAlone(s, events) && ReadsCurrent(s)
    ensures NoneOvertaken(s, events)
    decreases |events|
  {
    hide Alone, ReadsCurrent;
    if events != [] {
      StepKeepsReadsCurrent(s, events[0]);
      AloneIsNeverOvertaken(Apply(s, events[0]), events[1..]);
    }
  }

  /**
    Executions that run one after the other leave the sum of everything accepted in the
    total, whatever answers get lost: truncated to 64 bits, so exact just while it fits.
  */
  lemma SequentialTotalIsExact(initial: int, events: seq<Event>)
    requires Legal(Init(initial), events) && AlwaysAlone(Init(initial), events) && MIN_INT64 <= initial <= MAX_INT64
    ensures var s := Exec(Init(initial), events);
      && s.total == Int64(initial + AppliedSum(s))
      && (s.total == initial + AppliedSum(s) <==> initial + AppliedSum(s) <= MAX_INT64)
  {
    hide Int64;
    AloneIsNeverOvertaken(Init(initial), events);
    TotalIsBounded(initial, events);
  }
}
