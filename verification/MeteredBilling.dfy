/** One execution of a batch against the billing API, with its retries. */
module MeteredBilling {
  import opened Gathering
  import opened UsageLedger
  import BatchProtocol
  import Retry

  type Metric = BatchProtocol.Metric

  function QuantityOf(): Metric -> int { (m: Metric) => m.quantity }

  /** The exact sum of a batch's quantities. */
  function Quantity(metrics: seq<Metric>): int { Sum(QuantityOf(), metrics) }

  /** The summing loop, on machine integers. */
  method TotalQuantity(metrics: seq<Metric>) returns (total: int)
    ensures total == Int64(Quantity(metrics))
    ensures MIN_INT64 <= Quantity(metrics) <= MAX_INT64 ==> total == Quantity(metrics)
  {
    total := 0;
    for i := 0 to |metrics|
      invariant total == Int64(Quantity(metrics[..i]))
    {
      assert metrics[..i + 1] == metrics[..i] + [metrics[i]];
      SumPush(QuantityOf(), metrics[..i], metrics[i]);
      WrapOnce(Quantity(metrics[..i]), metrics[i].quantity);
      total := Int64(total + metrics[i].quantity);
    }
    assert metrics[..|metrics|] == metrics;
  }

  /** What goes wrong around one attempt. */
  datatype Fault = Fault(
    cancelledBefore: bool,
    retrieveFails: bool,
    accept: bool,
    recorded: bool,
    lost: bool,
    cancelledWaiting: bool)

  /** The server's view of a subscription item: its total and the outcomes kept per idempotency key. */
  class SubscriptionItem {
    var total: int
    var seen: map<Key, bool>

    constructor (total: int)
      ensures this.total == total && seen == map[]
    {
      this.total, seen := total, map[];
    }

    method Update(key: Key, newTotal: int, fault: Fault) returns (ok: bool)
      modifies this
      ensures key in old(seen) ==> total == old(total) && seen == old(seen) && ok == (seen[key] && !fault.lost)
      ensures key !in old(seen) && fault.accept ==>
        total == newTotal && seen == old(seen)[key := true] && ok == !fault.lost
      ensures key !in old(seen) && !fault.accept ==>
        total == old(total) && !ok && seen == (if fault.recorded then old(seen)[key := false] else old(seen))
    {
      if key in seen {
        return seen[key] && !fault.lost;
      }
      if fault.accept {
        total, seen := newTotal, seen[key := true];
        return !fault.lost;
      }
      if fault.recorded {
        seen := seen[key := false];
      }
      return false;
    }
  }

  /** The ledger state `s` describes the item as it is now. */
  ghost predicate Describes(s: State, item: SubscriptionItem)
    reads item
  {
    s.total == item.total && s.seen == item.seen
  }

  /** The outcome of the first update that was performed, or refused on record. */
  datatype Decision = Undecided | Performed | Refused

  function AfterAttempt(d: Decision, fault: Fault): Decision {
    if !d.Undecided? || fault.retrieveFails then d
    else if fault.accept then Performed
    else if fault.recorded then Refused
    else Undecided
  }

  /** The item is retrieved, the answer arrives, and the server performs the update or has performed it before. */
  predicate Succeeds(d: Decision, fault: Fault) {
    !fault.retrieveFails && !fault.lost && (d.Performed? || (d.Undecided? && fault.accept))
  }

  /** The item's record of the key is `d`. */
  ghost predicate Records(item: SubscriptionItem, key: Key, d: Decision)
    reads item
  {
    match d
    case Undecided => key !in item.seen
    case Performed => key in item.seen && item.seen[key]
    case Refused => key in item.seen && !item.seen[key]
  }

  /** One retrieve-add-update attempt; its ledger steps are `events`. */
  method Attempt(item: SubscriptionItem, key: Key, quantity: int, fault: Fault, ghost s: State, ghost i: nat)
    returns (ok: bool, ghost events: seq<Event>)
    requires InPhase(s, i) && s.slots[i].phase == Fresh && s.slots[i].key == key
    requires quantity == Int64(s.slots[i].quantity)
    requires Describes(s, item)
    modifies item
    ensures Legal(s, events) && Describes(Exec(s, events), item)
    ensures InPhase(Exec(s, events), i)
    ensures Exec(s, events).slots[i].phase == (if ok then Replied(true) else Fresh)
    ensures Exec(s, events).slots[i].key == key && Exec(s, events).slots[i].quantity == s.slots[i].quantity
    ensures old(key in item.seen) ==> item.total == old(item.total) && item.seen == old(item.seen)
    ensures !old(key in item.seen) ==>
      item.total == if key in item.seen && item.seen[key] then Int64(old(item.total) + quantity) else old(item.total)
    ensures ok <==>
      !fault.retrieveFails && !fault.lost && (if old(key in item.seen) then old(item.seen)[key] else fault.accept)
    ensures ok ==> key in item.seen && item.seen[key]
    ensures forall d :: old(Records(item, key, d)) ==>
      && Records(item, key, AfterAttempt(d, fault)) && ok == Succeeds(d, fault)
      && (d.Performed? ==> AfterAttempt(d, fault).Performed?)
      && item.total ==
           if !d.Performed? && AfterAttempt(d, fault).Performed? then Int64(old(item.total) + quantity)
           else old(item.total)
  {
    if fault.retrieveFails {
      return false, [];
    }
    var currentUsage := item.total;
    var newTotal := Int64(currentUsage + quantity);
    WrapOnce(s.slots[i].quantity, currentUsage);
    ok := item.Update(key, newTotal, fault);
    ghost var update := Event.Update(i, fault.accept, fault.recorded, fault.lost);
    ghost var read := Apply(s, Retrieve(i));
    events := [Retrieve(i), update];
    ExecStep(read, update, []);
    ExecStep(s, Retrieve(i), [update]);
  }

  /** Whether the context is done before the attempt, or while waiting after it. */
  function Before(env: nat -> Fault): nat -> bool { (i: nat) => env(i).cancelledBefore }
  function Waiting(env: nat -> Fault): nat -> bool { (i: nat) => env(i).cancelledWaiting }

  predicate Clean(fault: Fault) {
    !fault.retrieveFails && fault.accept && !fault.lost
  }

  /** What the server has on record for the key before attempt `n`. */
  function OnRecord(env: nat -> Fault, n: nat): Decision {
    if n == 0 then Undecided else AfterAttempt(OnRecord(env, n - 1), env(n - 1))
  }

  /** The answer of attempt `n`. */
  predicate Answer(env: nat -> Fault, n: nat) {
    Succeeds(OnRecord(env, n), env(n))
  }

  /** Attempt `k` is allowed, no cancellation comes first, nothing goes wrong in it, and no refusal is on record. */
  predicate Serves(env: nat -> Fault, k: nat, maxRetries: int) {
    && k <= maxRetries && Clean(env(k))
    && (forall j: nat :: j <= k ==> !env(j).cancelledBefore)
    && (forall j: nat :: j < k ==>
          !env(j).cancelledWaiting && (env(j).retrieveFails || env(j).accept || !env(j).recorded))
  }

  lemma {:induction false} NeverRefused(env: nat -> Fault, k: nat, maxRetries: int, n: nat)
    requires Serves(env, k, maxRetries) && n <= k
    ensures !OnRecord(env, n).Refused?
  {
    if n > 0 {
      NeverRefused(env, k, maxRetries, n - 1);
    }
  }

  /** Where an attempt can succeed, the loop does not end without a success, nor goes on past it. */
  lemma ServedAtLast(env: nat -> Fault, k: nat, maxRetries: int, answers: seq<bool>, ok: bool)
    requires Serves(env, k, maxRetries) && Retry.Obeys(maxRetries, Before(env), Waiting(env), answers, ok)
    requires forall j :: 0 <= j < |answers| ==> answers[j] == Answer(env, j)
    ensures ok && |answers| <= k + 1
  {
    NeverRefused(env, k, maxRetries, k);
    if k < |answers| {
      assert answers[k];
    }
  }

  lemma AllServed(env: nat -> Fault, maxRetries: int, answers: seq<bool>, ok: bool)
    requires Retry.Obeys(maxRetries, Before(env), Waiting(env), answers, ok)
    requires forall j :: 0 <= j < |answers| ==> answers[j] == Answer(env, j)
    ensures forall k: nat :: Serves(env, k, maxRetries) ==> ok && |answers| <= k + 1
  {
    forall k: nat | Serves(env, k, maxRetries) ensures ok && |answers| <= k + 1 {
      ServedAtLast(env, k, maxRetries, answers, ok);
    }
  }

  /** Where an execution stands after the attempts answered so far: `before` is the total it began with. */
  ghost predicate Stands(
      item: SubscriptionItem, key: Key, quantity: int, env: nat -> Fault, s: State, i: nat, before: int,
      events: seq<Event>, answers: seq<bool>, phase: Phase)
    reads item
  {
    && Legal(s, events) && Describes(Exec(s, events), item) && InPhase(Exec(s, events), i)
    && Exec(s, events).slots[i].phase == phase
    && Exec(s, events).slots[i].key == key && Exec(s, events).slots[i].quantity == quantity
    && (forall j :: 0 <= j < |answers| ==> answers[j] == Answer(env, j))
    && Records(item, key, OnRecord(env, |answers|))
    && item.total == if OnRecord(env, |answers|).Performed? then Int64(before + quantity) else before
  }

  /** One more attempt of the execution. */
  method TryOnce(
      item: SubscriptionItem, key: Key, totalQuantity: int, env: nat -> Fault, attempts: nat,
      ghost quantity: int, ghost s: State, ghost i: nat, ghost before: int,
      ghost events: seq<Event>, ghost answers: seq<bool>)
    returns (ok: bool, ghost longer: seq<Event>)
    requires Stands(item, key, quantity, env, s, i, before, events, answers, Fresh)
    requires attempts == |answers| && totalQuantity == Int64(quantity)
    modifies item
    ensures Stands(item, key, quantity, env, s, i, before, longer, answers + [ok], if ok then Replied(true) else Fresh)
  {
    hide Legal, Exec, Apply, Int64, AfterAttempt, Succeeds, Records;
    ghost var d := OnRecord(env, attempts);
    ghost var more;
    ok, more := Attempt(item, key, totalQuantity, env(attempts), Exec(s, events), i);
    ExecJoin(s, events, more);
    longer := events + more;
    WrapOnce(quantity, before);
    assert OnRecord(env, attempts + 1) == AfterAttempt(d, env(attempts));
  }

  /**
    executeProcessBatch: the retry loop around the attempts, alone with the item.  The
    loop obeys what is proved of retry.Do; over all attempts the batch is added at most
    once, and exactly once on success.
  */
  method ExecuteProcessBatch(
      item: SubscriptionItem, key: Key, metrics: seq<Metric>, maxRetries: int, env: nat -> Fault,
      ghost s: State, ghost i: nat)
    returns (ok: bool, attempts: nat, ghost answers: seq<bool>, ghost events: seq<Event>)
    requires key !in item.seen && Describes(s, item)
    requires InPhase(s, i) && s.slots[i].phase == Fresh && s.slots[i].key == key
    requires s.slots[i].quantity == Quantity(metrics)
    modifies item
    ensures attempts == |answers|
    ensures Retry.Obeys(maxRetries, Before(env), Waiting(env), answers, ok)
    ensures attempts <= (if maxRetries < 0 then 0 else maxRetries + 1)
    ensures forall j :: 0 <= j < attempts ==>
      !env(j).cancelledBefore && (j < attempts - 1 ==> !answers[j] && !env(j).cancelledWaiting)
    ensures ok <==> attempts > 0 && answers[attempts - 1]
    ensures forall j :: 0 <= j < attempts ==> answers[j] == Answer(env, j)
    ensures forall k: nat :: Serves(env, k, maxRetries) ==> ok && attempts <= k + 1
    ensures item.total ==
      if key in item.seen && item.seen[key] then Int64(old(item.total) + Quantity(metrics)) else old(item.total)
    ensures ok ==> key in item.seen && item.seen[key]
    ensures Records(item, key, OnRecord(env, attempts))
    ensures Legal(s, events) && Describes(Exec(s, events), item)
    ensures InPhase(Exec(s, events), i) && Exec(s, events).slots[i].phase == Replied(ok)
  {
    hide Legal, Exec, Apply, Int64, Retry.Obeys, Retry.Pending;
    hide Serves, Stands, Records, Answer, OnRecord, Describes, InPhase;
    assert Retry.Pending(maxRetries, Before(env), Waiting(env), []) by { NothingTried(maxRetries, env); }
    var quantity := TotalQuantity(metrics);
    attempts, answers, events := 0, [], [];
    assert Stands(item, key, Quantity(metrics), env, s, i, old(item.total), [], [], Fresh) by {
      StandsFresh(item, key, Quantity(metrics), env, s, i);
    }
    while attempts <= maxRetries
      invariant attempts == |answers| <= Retry.Allowed(maxRetries)
      invariant Retry.Pending(maxRetries, Before(env), Waiting(env), answers)
      invariant Stands(item, key, Quantity(metrics), env, s, i, old(item.total), events, answers, Fresh)
      decreases maxRetries + 1 - attempts
    {
      if env(attempts).cancelledBefore {
        break;
      }
      ok, events := TryOnce(
        item, key, quantity, env, attempts, Quantity(metrics), s, i, old(item.total), events, answers);
      Retry.PendingCalls(maxRetries, Before(env), Waiting(env), answers, ok);
      attempts, answers := attempts + 1, answers + [ok];
      if ok {
        Finished(item, key, Quantity(metrics), maxRetries, env, s, i, old(item.total), events, answers, true);
        return;
      }
      if attempts <= maxRetries && env(attempts - 1).cancelledWaiting {
        break;
      }
    }
    if !Retry.Obeys(maxRetries, Before(env), Waiting(env), answers, false) {
      Retry.PendingEnds(maxRetries, Before(env), Waiting(env), answers);
    }
    ok := false;
    events := GivesUp(item, key, Quantity(metrics), env, s, i, old(item.total), events, answers);
    Finished(item, key, Quantity(metrics), maxRetries, env, s, i, old(item.total), events, answers, false);
  }

  lemma StandsFresh(item: SubscriptionItem, key: Key, quantity: int, env: nat -> Fault, s: State, i: nat)
    requires key !in item.seen && Describes(s, item)
    requires InPhase(s, i) && s.slots[i].phase == Fresh && s.slots[i].key == key && s.slots[i].quantity == quantity
    ensures Stands(item, key, quantity, env, s, i, item.total, [], [], Fresh)
  {
    EmptyRun(s);
  }

  lemma GivesUp(
      item: SubscriptionItem, key: Key, quantity: int, env: nat -> Fault, s: State, i: nat, before: int,
      events: seq<Event>, answers: seq<bool>)
    returns (more: seq<Event>)
    requires Stands(item, key, quantity, env, s, i, before, events, answers, Fresh)
    ensures Stands(item, key, quantity, env, s, i, before, more, answers, Replied(false))
  {
    hide Legal, Exec;
    more := GiveUpAfter(s, events, i);
  }

  /** What the execution promises when it returns. */
  lemma Finished(
      item: SubscriptionItem, key: Key, quantity: int, maxRetries: int, env: nat -> Fault, s: State, i: nat,
      before: int, events: seq<Event>, answers: seq<bool>, ok: bool)
    requires Stands(item, key, quantity, env, s, i, before, events, answers, Replied(ok))
    requires Retry.Obeys(maxRetries, Before(env), Waiting(env), answers, ok)
    ensures |answers| <= (if maxRetries < 0 then 0 else maxRetries + 1)
    ensures forall j :: 0 <= j < |answers| ==>
      !env(j).cancelledBefore && (j < |answers| - 1 ==> !answers[j] && !env(j).cancelledWaiting)
    ensures ok <==> |answers| > 0 && answers[|answers| - 1]
    ensures forall j :: 0 <= j < |answers| ==> answers[j] == Answer(env, j)
    ensures forall k: nat :: Serves(env, k, maxRetries) ==> ok && |answers| <= k + 1
    ensures item.total == if key in item.seen && item.seen[key] then Int64(before + quantity) else before
    ensures ok ==> key in item.seen && item.seen[key]
    ensures Records(item, key, OnRecord(env, |answers|))
    ensures Legal(s, events) && Describes(Exec(s, events), item)
    ensures InPhase(Exec(s, events), i) && Exec(s, events).slots[i].phase == Replied(ok)
  {
    hide Legal, Exec, Int64;
    AllServed(env, maxRetries, answers, ok);
    forall j | 0 <= j < |answers|
      ensures !env(j).cancelledBefore && (j < |answers| - 1 ==> !env(j).cancelledWaiting)
    {
      assert !Before(env)(j) && (j < |answers| - 1 ==> !Waiting(env)(j));
    }
    RecordsTell(item, key, OnRecord(env, |answers|));
    if ok {
      SuccessIsAccepted(OnRecord(env, |answers| - 1), env(|answers| - 1));
    }
  }

  lemma NothingRecorded(item: SubscriptionItem, key: Key)
    requires key !in item.seen
    ensures Records(item, key, Undecided)
  {
  }

  lemma RecordsTell(item: SubscriptionItem, key: Key, d: Decision)
    requires Records(item, key, d)
    ensures key in item.seen && item.seen[key] <==> d.Performed?
  {
  }

  lemma SuccessIsAccepted(d: Decision, fault: Fault)
    requires Succeeds(d, fault)
    ensures AfterAttempt(d, fault).Performed?
  {
  }

  lemma NothingTried(maxRetries: int, env: nat -> Fault)
    ensures Retry.Pending(maxRetries, Before(env), Waiting(env), [])
  {
  }

  /** The retries are over: the execution reports failure. */
  lemma GiveUpAfter(s: State, events: seq<Event>, i: nat) returns (more: seq<Event>)
    requires Legal(s, events) && InPhase(Exec(s, events), i) && Exec(s, events).slots[i].phase == Fresh
    ensures Legal(s, more) && Exec(s, more) == Apply(Exec(s, events), GiveUp(i))
    ensures Exec(s, more).total == Exec(s, events).total && Exec(s, more).seen == Exec(s, events).seen
    ensures InPhase(Exec(s, more), i) && Exec(s, more).slots[i].phase == Replied(false)
  {
    ExecStep(Exec(s, events), GiveUp(i), []);
    ExecJoin(s, events, [GiveUp(i)]);
    more := events + [GiveUp(i)];
  }
}
