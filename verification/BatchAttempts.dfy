/**
  How often a single metric can be part of a ProcessBatch call.  Five calls is the bound
  of a fresh flush with its retries; a metric that goes back to the buffer may be picked
  up by another flush that counts from elsewhere.
*/
module BatchAttempts {
  import opened Gathering
  import opened BatchProtocol
  import opened BatchConservation
  import opened BatchDrain

  datatype Place =
    | Unborn           // not accepted yet
    | Buffered
    | InSnapshot
    | With(g: nat)     // carried by goroutine `g`
    | Gone             // settled

  /** The `n`-th accepted metric on its way: its ID, where it is, and the calls it has been part of. */
  datatype Track = Track(n: nat, id: Id, place: Place, calls: nat)

  function Start(n: nat): Track { Track(n, "", Unborn, 0) }

  predicate Fills(s: State, id: Id) {
    |BufferOf(s, id)| + 1 >= s.size
  }

  /** Flushes take whole buffers, so a metric moves with everything else of its ID. */
  function Follow(s: State, tr: Track, e: Event): Track
    requires Enabled(s, e)
  {
    match e
    case Add(id, _) =>
      if s.cancelled then tr
      else if tr.place.Unborn? && |s.accepted| == tr.n then
        tr.(id := id, place := if Fills(s, id) then With(|s.agents|) else Buffered)
      else if tr.place.Buffered? && tr.id == id && Fills(s, id) then tr.(place := With(|s.agents|))
      else tr
    case Tick(_) => if tr.place.Buffered? then tr.(place := InSnapshot) else tr
    case TakeNext(id) =>
      if tr.place.InSnapshot? && tr.id == id then tr.(place := With(0), calls := tr.calls + 1) else tr
    case Launch(g) => if tr.place == With(g) then tr.(calls := tr.calls + 1) else tr
    case Return(g, _) => if tr.place == With(g) && Apply(s, e).agents[g].Ended? then tr.(place := Gone) else tr
    case Requeue(g) => if tr.place == With(g) then tr.(place := Buffered) else tr
    case Wake(g) =>
      if tr.place.Buffered? && s.agents[g].id == tr.id then tr.(place := With(g), calls := tr.calls + 1) else tr
    case _ => tr
  }

  function FollowAll(s: State, tr: Track, events: seq<Event>): Track
    requires Legal(s, events)
    decreases |events|
  {
    if events == [] then tr else FollowAll(Apply(s, events[0]), Follow(s, tr, events[0]), events[1..])
  }

  /** The metric is where the track says. */
  ghost predicate Located(s: State, tr: Track) {
    if tr.place.Unborn? then |s.accepted| <= tr.n && tr.calls == 0
    else
      && tr.n < |s.accepted| && s.accepted[tr.n].id == tr.id
      && var m := s.accepted[tr.n].metric;
         match tr.place
         case Buffered => m in BufferOf(s, tr.id)
         case InSnapshot => m in TodoOf(s, tr.id)
         case With(g) => g < |s.agents| && m in HeldPart(tr.id)(s.agents[g])
         case Gone => m in SettledOf(s, tr.id)
         case Unborn => false
  }

  lemma AddKeepsLocated(s: State, tr: Track, id: Id, metric: Metric)
    requires Located(s, tr)
    ensures Located(ApplyAdd(s, id, metric), Follow(s, tr, Add(id, metric)))
  {
    var pending := BufferOf(s, id) + [metric];
    assert pending[|pending| - 1] == metric;
    assert forall m :: m in BufferOf(s, id) ==> m in pending;
  }

  lemma TaskKeepsLocated(s: State, tr: Track, e: Event)
    requires Enabled(s, e) && Located(s, tr) && (e.Launch? || e.Spawn?)
    ensures Located(Apply(s, e), Follow(s, tr, e))
  {
    var t := Apply(s, e);
    assert t.accepted == s.accepted && t.loop == s.loop && t.buffer == s.buffer && t.settled == s.settled;
    assert forall g :: 0 <= g < |s.agents| && g != e.g ==> t.agents[g] == s.agents[g];
  }

  lemma ReturnKeepsLocated(s: State, tr: Track, g: nat, ok: bool)
    requires Enabled(s, Return(g, ok)) && Located(s, tr)
    ensures Located(ApplyReturn(s, g, ok), Follow(s, tr, Return(g, ok)))
  {
    hide Gather;
    var t, job := ApplyReturn(s, g, ok), s.agents[g].job;
    GatherPush(SettledPart(tr.id), s.settled, Settled(job.id, job.metrics, ok, g));
    assert t.accepted == s.accepted && t.loop == s.loop && t.buffer == s.buffer;
    assert forall h :: 0 <= h < |s.agents| && h != g ==> t.agents[h] == s.agents[h];
  }

  lemma RequeueKeepsLocated(s: State, tr: Track, g: nat)
    requires Enabled(s, Requeue(g)) && Located(s, tr)
    ensures Located(Apply(s, Requeue(g)), Follow(s, tr, Requeue(g)))
  {
    var job := s.agents[g].job;
    assert forall m :: m in job.metrics || m in BufferOf(s, job.id) ==> m in job.metrics + BufferOf(s, job.id);
  }

  lemma WakeKeepsLocated(s: State, tr: Track, g: nat)
    requires Enabled(s, Wake(g)) && Located(s, tr)
    ensures Located(ApplyWake(s, g), Follow(s, tr, Wake(g)))
  {
    var t := ApplyWake(s, g);
    assert t.accepted == s.accepted && t.loop == s.loop;
    assert forall h :: 0 <= h < |s.agents| && h != g ==> t.agents[h] == s.agents[h];
  }

  lemma LoopKeepsLocated(s: State, tr: Track, e: Event)
    requires Enabled(s, e) && Located(s, tr) && (e.Tick? || e.TakeNext? || e.LoopEnd? || e.Cancel? || e.CloseDone?)
    ensures Located(Apply(s, e), Follow(s, tr, e))
  {
  }

  lemma StepKeepsLocated(s: State, tr: Track, e: Event)
    requires Enabled(s, e) && Located(s, tr)
    ensures Located(Apply(s, e), Follow(s, tr, e))
  {
    hide Located, Follow;
    match e
    case Add(id, metric) => AddKeepsLocated(s, tr, id, metric);
    case Launch(_) => TaskKeepsLocated(s, tr, e);
    case Return(g, ok) => ReturnKeepsLocated(s, tr, g, ok);
    case Requeue(g) => RequeueKeepsLocated(s, tr, g);
    case Spawn(_) => TaskKeepsLocated(s, tr, e);
    case Wake(g) => WakeKeepsLocated(s, tr, g);
    case _ => LoopKeepsLocated(s, tr, e);
  }

  /** In every run the track tells where the metric is. */
  lemma {:induction false} RunKeepsLocated(s: State, tr: Track, events: seq<Event>)
    requires Legal(s, events) && Located(s, tr)
    ensures Located(Exec(s, events), FollowAll(s, tr, events))
    decreases |events|
  {
    hide Located, Follow, Apply;
    if events != [] {
      StepKeepsLocated(s, tr, events[0]);
      RunKeepsLocated(Apply(s, events[0]), Follow(s, tr, events[0]), events[1..]);
    }
  }

  lemma FollowFirst(s: State, tr: Track, e: Event, rest: seq<Event>)
    requires Enabled(s, e) && Legal(Apply(s, e), rest)
    ensures Legal(s, [e] + rest) && Exec(s, [e] + rest) == Exec(Apply(s, e), rest)
    ensures FollowAll(s, tr, [e] + rest) == FollowAll(Apply(s, e), Follow(s, tr, e), rest)
  {
    assert ([e] + rest)[1..] == rest;
  }

  lemma FourSteps(s: State, tr: Track, a: Event, b: Event, c: Event, d: Event)
    requires Enabled(s, a) && Enabled(Apply(s, a), b) && Enabled(Apply(Apply(s, a), b), c)
    requires Enabled(Apply(Apply(Apply(s, a), b), c), d)
    ensures Legal(s, [a, b, c, d])
    ensures var s1 := Apply(s, a); var s2 := Apply(s1, b); var s3 := Apply(s2, c);
      && Exec(s, [a, b, c, d]) == Apply(s3, d)
      && FollowAll(s, tr, [a, b, c, d]) == Follow(s3, Follow(s2, Follow(s1, Follow(s, tr, a), b), c), d)
  {
    hide Apply, Enabled, Follow;
    var s1 := Apply(s, a);
    var s2 := Apply(s1, b);
    var s3 := Apply(s2, c);
    var t1 := Follow(s, tr, a);
    var t2 := Follow(s1, t1, b);
    FollowFirst(s3, Follow(s2, t2, c), d, []);
    FollowFirst(s2, t2, c, [d]);
    FollowFirst(s1, t1, b, [c, d]);
    FollowFirst(s, tr, a, [b, c, d]);
  }

  // ----- no bound in general

  /** One metric is waiting in its buffer and the flush loop is idle; `k` flushes have been made. */
  ghost predicate Waits(s: State, x: Id, a: Metric, k: nat) {
    && s.buffer == map[x := [a]] && s.loop.Waiting? && !s.cancelled
    && LoopFree(s) && s.settled == [] && |s.calls| == k
  }

  /** A timer flush takes the metric, fails, and puts it back before its retry goroutine wakes up. */
  function Round(x: Id): seq<Event> {
    [Tick(false), TakeNext(x), Return(0, false), Requeue(0), Spawn(0), LoopEnd]
  }

  lemma RoundStarts(s: State, x: Id, a: Metric, k: nat, n: nat, c: nat) returns (t: State)
    requires Waits(s, x, a, k)
    ensures var events := [Tick(false), TakeNext(x), Return(0, false)];
      && Legal(s, events) && t == Exec(s, events)
      && FollowAll(s, Track(n, x, Buffered, c), events) == Track(n, x, With(0), c + 1)
    ensures t.buffer == map[] && t.loop == Flushing(map[], false) && !t.cancelled && t.settled == []
    ensures t.agents != [] && t.agents[0] == Requeueing(Job(x, [a], 1, k)) && |t.calls| == k + 1
  {
    hide Legal, Exec, FollowAll;
    var e1, e2, e3 := Tick(false), TakeNext(x), Return(0, false);
    var s1 := Apply(s, e1);
    assert s1.loop.todo == map[x := [a]];
    var s2 := Apply(s1, e2);
    t := Apply(s2, e3);
    FollowNothing(t, Track(n, x, With(0), c + 1));
    FollowFirst(s2, Track(n, x, With(0), c + 1), e3, []);
    assert [e3] + [] == [e3];
    FollowFirst(s1, Track(n, x, InSnapshot, c), e2, [e3]);
    assert [e2] + [e3] == [e2, e3];
    FollowFirst(s, Track(n, x, Buffered, c), e1, [e2, e3]);
    assert [e1] + [e2, e3] == [e1, e2, e3];
  }

  lemma FollowNothing(s: State, tr: Track)
    ensures Legal(s, []) && Exec(s, []) == s && FollowAll(s, tr, []) == tr
  {
  }

  lemma {:induction false} FollowJoin(s: State, tr: Track, a: seq<Event>, b: seq<Event>)
    requires Legal(s, a) && Legal(Exec(s, a), b)
    ensures Legal(s, a + b) && Exec(s, a + b) == Exec(Exec(s, a), b)
    ensures FollowAll(s, tr, a + b) == FollowAll(Exec(s, a), FollowAll(s, tr, a), b)
    decreases |a|
  {
    hide Apply, Enabled, Follow;
    if a == [] {
      assert a + b == b;
    } else {
      FollowJoin(Apply(s, a[0]), Follow(s, tr, a[0]), a[1..], b);
      assert (a + b)[0] == a[0] && (a + b)[1..] == a[1..] + b;
    }
  }

  lemma OneRound(s: State, x: Id, a: Metric, k: nat, n: nat, c: nat)
    requires Waits(s, x, a, k)
    ensures Legal(s, Round(x)) && Waits(Exec(s, Round(x)), x, a, k + 1)
    ensures FollowAll(s, Track(n, x, Buffered, c), Round(x)) == Track(n, x, Buffered, c + 1)
  {
    hide Legal, Exec, FollowAll;
    var t := RoundStarts(s, x, a, k, n, c);
    var first := [Tick(false), TakeNext(x), Return(0, false)];
    var e4, e5, e6 := Requeue(0), Spawn(0), LoopEnd;
    var t1 := Apply(t, e4);
    assert [a] + [] == [a];
    var t2 := Apply(t1, e5);
    var t3 := Apply(t2, e6);
    FollowNothing(t3, Track(n, x, Buffered, c + 1));
    FollowFirst(t2, Track(n, x, Buffered, c + 1), e6, []);
    assert [e6] + [] == [e6];
    FollowFirst(t1, Track(n, x, Buffered, c + 1), e5, [e6]);
    assert [e5] + [e6] == [e5, e6];
    FollowFirst(t, Track(n, x, With(0), c + 1), e4, [e5, e6]);
    assert [e4] + [e5, e6] == [e4, e5, e6];
    FollowJoin(s, Track(n, x, Buffered, c), first, [e4, e5, e6]);
    assert first + [e4, e5, e6] == Round(x);
  }

  function Rounds(x: Id, n: nat): seq<Event> {
    if n == 0 then [] else Rounds(x, n - 1) + Round(x)
  }

  lemma {:induction false} ManyRounds(s: State, x: Id, a: Metric, k: nat, n: nat)
    requires Waits(s, x, a, k)
    ensures Legal(s, Rounds(x, n)) && Waits(Exec(s, Rounds(x, n)), x, a, k + n)
    ensures FollowAll(s, Track(0, x, Buffered, k), Rounds(x, n)) == Track(0, x, Buffered, k + n)
  {
    hide Legal, Exec, FollowAll, Waits, Round;
    if n == 0 {
      FollowNothing(s, Track(0, x, Buffered, k));
    } else {
      ManyRounds(s, x, a, k, n - 1);
      OneRound(Exec(s, Rounds(x, n - 1)), x, a, k + n - 1, 0, k + n - 1);
      FollowJoin(s, Track(0, x, Buffered, k), Rounds(x, n - 1), Round(x));
    }
  }

  /** Above size one the metric is buffered at once. */
  lemma BufferedFirst(size: int, x: Id, a: Metric) returns (events: seq<Event>)
    requires 2 <= size
    ensures Legal(Init(size), events) && Waits(Exec(Init(size), events), x, a, 0)
    ensures FollowAll(Init(size), Start(0), events) == Track(0, x, Buffered, 0)
  {
    events := [Add(x, a)];
    var s := Apply(Init(size), Add(x, a));
    assert [] + [a] == [a];
    FollowNothing(s, Track(0, x, Buffered, 0));
    FollowFirst(Init(size), Start(0), Add(x, a), []);
    assert [Add(x, a)] + [] == events;
  }

  /** At size one the metric is flushed at once, and buffered after the failure. */
  lemma FlushedFirst(size: int, x: Id, a: Metric) returns (events: seq<Event>)
    requires size < 2
    ensures Legal(Init(size), events) && Waits(Exec(Init(size), events), x, a, 1)
    ensures FollowAll(Init(size), Start(0), events) == Track(0, x, Buffered, 1)
  {
    hide Legal, Exec, FollowAll;
    var e1, e2, e3, e4, e5 := Add(x, a), Launch(1), Return(1, false), Requeue(1), Spawn(1);
    var s1 := Apply(Init(size), e1);
    assert [] + [a] == [a] && s1.agents == [Ended, Handoff(x, [a])];
    var s2 := Apply(s1, e2);
    var s3 := Apply(s2, e3);
    var s4 := Apply(s3, e4);
    assert [a] + [] == [a];
    var s5 := Apply(s4, e5);
    FourSteps(Init(size), Start(0), e1, e2, e3, e4);
    FollowNothing(s5, Track(0, x, Buffered, 1));
    FollowFirst(s4, Track(0, x, Buffered, 1), e5, []);
    assert [e5] + [] == [e5];
    FollowJoin(Init(size), Start(0), [e1, e2, e3, e4], [e5]);
    events := [e1, e2, e3, e4] + [e5];
  }

  /**
    With a downstream that keeps failing, a metric can be part of any number of calls
    and still be buffered, neither acknowledged nor dead-lettered.
  */
  lemma NoBoundPerMetric(size: int, x: Id, a: Metric, n: nat) returns (events: seq<Event>)
    requires 0 < n
    ensures Legal(Init(size), events)
    ensures FollowAll(Init(size), Start(0), events) == Track(0, x, Buffered, n)
    ensures Exec(Init(size), events).settled == [] && BufferOf(Exec(Init(size), events), x) == [a]
  {
    hide Legal, Exec, FollowAll;
    var k: nat := if size < 2 then 1 else 0;
    var first;
    if size < 2 {
      first := FlushedFirst(size, x, a);
    } else {
      first := BufferedFirst(size, x, a);
    }
    ManyRounds(Exec(Init(size), first), x, a, k, n - k);
    FollowJoin(Init(size), Start(0), first, Rounds(x, n - k));
    events := first + Rounds(x, n - k);
  }

  // ----- when five calls suffice

  /** The calls a batch makes from attempt `attempt` on if all of them fail. */
  function CallsLeft(cancelled: bool, attempt: nat): int {
    if cancelled then 1 else MAX_BATCH_ATTEMPTS - attempt + 1
  }

  /** The step takes the metric out of its buffer. */
  predicate Takes(s: State, tr: Track, e: Event)
    requires Enabled(s, e)
  {
    tr.place.Buffered? && !Follow(s, tr, e).place.Buffered?
  }

  /** The attempt number a flush begins with. */
  function FirstAttempt(s: State, e: Event): nat
    requires Enabled(s, e)
  {
    if e.Wake? then s.agents[e.g].attempt else 1
  }

  /** A flush takes the metric although its earlier calls and the flush's own exceed five. */
  predicate Overdraws(s: State, tr: Track, e: Event)
    requires Enabled(s, e)
  {
    Takes(s, tr, e) && tr.calls + CallsLeft(s.cancelled, FirstAttempt(s, e)) > MAX_BATCH_ATTEMPTS
  }

  predicate NoneOverdraws(s: State, tr: Track, events: seq<Event>)
    requires Legal(s, events)
    decreases |events|
  {
    events == [] ||
    (!Overdraws(s, tr, events[0]) && NoneOverdraws(Apply(s, events[0]), Follow(s, tr, events[0]), events[1..]))
  }

  /** What a carrier has left, added to what its metric has behind it, stays within five. */
  ghost predicate Within(s: State, tr: Track) {
    && tr.calls <= MAX_BATCH_ATTEMPTS
    && (tr.place.InSnapshot? ==> tr.calls + CallsLeft(s.cancelled, 1) <= MAX_BATCH_ATTEMPTS)
    && (tr.place.With? && tr.place.g < |s.agents| ==>
          match s.agents[tr.place.g]
          case Handoff(_, _) => tr.calls + CallsLeft(s.cancelled, 1) <= MAX_BATCH_ATTEMPTS
          case Processing(job) => tr.calls + CallsLeft(s.cancelled, job.attempt) - 1 <= MAX_BATCH_ATTEMPTS
          case _ => true)
  }

  predicate Carrying(t: Task) {
    t.Handoff? || t.Processing? || t.Requeueing?
  }

  lemma CarrierExists(s: State, tr: Track)
    requires Located(s, tr) && tr.place.With?
    ensures tr.place.g < |s.agents| && Carrying(s.agents[tr.place.g])
  {
  }

  lemma UnbornIsUntried(s: State, tr: Track)
    requires Located(s, tr) && tr.place.Unborn?
    ensures tr.calls == 0
  {
  }

  lemma TakenWithin(s: State, tr: Track, e: Event)
    requires Enabled(s, e) && Located(s, tr) && Takes(s, tr, e) && !Overdraws(s, tr, e)
    requires e.Wake? ==> Numbered(s.agents[e.g], s.calls)
    ensures Within(Apply(s, e), Follow(s, tr, e))
  {
    if e.Wake? {
      assert BufferOf(s, tr.id) != [];
    }
  }

  lemma CarriedWithin(s: State, tr: Track, e: Event)
    requires Enabled(s, e) && Within(s, tr) && tr.place.With? && tr.place.g < |s.agents|
    requires Carrying(s.agents[tr.place.g]) && Numbered(s.agents[tr.place.g], s.calls)
    ensures Within(Apply(s, e), Follow(s, tr, e))
  {
    var t, g := Apply(s, e), tr.place.g;
    assert e == Launch(g) || (e.Return? && e.g == g) || e == Requeue(g) || t.agents[g] == s.agents[g];
  }

  lemma OtherwiseWithin(s: State, tr: Track, e: Event)
    requires Enabled(s, e) && Within(s, tr) && !tr.place.With? && !Takes(s, tr, e)
    requires tr.place.Unborn? ==> tr.calls == 0
    ensures Within(Apply(s, e), Follow(s, tr, e))
  {
  }

  lemma StepKeepsWithin(s: State, tr: Track, e: Event)
    requires Enabled(s, e) && Rooted(s) && Located(s, tr) && Within(s, tr) && !Overdraws(s, tr, e)
    ensures Within(Apply(s, e), Follow(s, tr, e))
  {
    hide Located, Within, Overdraws, Follow, Apply, Numbered;
    if tr.place.With? {
      CarrierExists(s, tr);
      CarriedWithin(s, tr, e);
    } else if Takes(s, tr, e) {
      TakenWithin(s, tr, e);
    } else {
      assert tr.place.Unborn? ==> tr.calls == 0 by {
        if tr.place.Unborn? {
          UnbornIsUntried(s, tr);
        }
      }
      OtherwiseWithin(s, tr, e);
    }
  }

  lemma {:induction false} RunKeepsWithin(s: State, tr: Track, events: seq<Event>)
    requires Legal(s, events) && Rooted(s) && Located(s, tr) && Within(s, tr) && NoneOverdraws(s, tr, events)
    ensures Within(Exec(s, events), FollowAll(s, tr, events))
    decreases |events|
  {
    hide Rooted, Located, Within, Overdraws, Follow, Apply;
    if events != [] {
      StepKeepsWithin(s, tr, events[0]);
      StepKeepsLocated(s, tr, events[0]);
      StepKeepsRooted(s, events[0]);
      RunKeepsWithin(Apply(s, events[0]), Follow(s, tr, events[0]), events[1..]);
    }
  }

  // ----- the other direction: a flush that fails to the end

  /** Goroutine `g`, then `next` and its successors, fail; `left` more calls follow the current one. */
  function Failing(g: nat, next: nat, left: nat): seq<Event>
    decreases left
  {
    if left == 0 then [Return(g, false)]
    else [Return(g, false), Requeue(g), Spawn(g), Wake(next)] + Failing(next, next + 1, left - 1)
  }

  ghost predicate Calling(s: State, tr: Track, g: nat) {
    && Located(s, tr) && tr.place == With(g) && g < |s.agents| && s.agents[g].Processing?
    && 1 <= s.agents[g].job.attempt <= MAX_BATCH_ATTEMPTS
  }

  /** One failed attempt and the start of the next. */
  lemma FailsOnce(s: State, tr: Track, g: nat) returns (t: State)
    requires Calling(s, tr, g) && !s.cancelled && s.agents[g].job.attempt < MAX_BATCH_ATTEMPTS
    ensures var events := [Return(g, false), Requeue(g), Spawn(g), Wake(|s.agents|)];
      && Legal(s, events) && t == Exec(s, events)
      && FollowAll(s, tr, events) == tr.(place := With(|s.agents|), calls := tr.calls + 1)
    ensures Calling(t, tr.(place := With(|s.agents|), calls := tr.calls + 1), |s.agents|)
    ensures !t.cancelled && |t.agents| == |s.agents| + 1
    ensures t.agents[|s.agents|].job.attempt == s.agents[g].job.attempt + 1
  {
    hide Legal, Exec, FollowAll, Located;
    var e1, e2, e3, e4 := Return(g, false), Requeue(g), Spawn(g), Wake(|s.agents|);
    var waiting := tr.(place := Buffered);
    var s1 := Apply(s, e1);
    var s2 := Apply(s1, e2);
    var s3 := Apply(s2, e3);
    assert s.agents[g].job.id == tr.id by { CarriesItsId(s, tr, g); }
    StepKeepsLocated(s, tr, e1);
    StepKeepsLocated(s1, tr, e2);
    StepKeepsLocated(s2, waiting, e3);
    assert BufferOf(s3, tr.id) != [] by { IsBuffered(s3, waiting); }
    StepKeepsLocated(s3, waiting, e4);
    t := Apply(s3, e4);
    FourSteps(s, tr, e1, e2, e3, e4);
  }

  lemma CarriesItsId(s: State, tr: Track, g: nat)
    requires Calling(s, tr, g)
    ensures s.agents[g].job.id == tr.id
  {
  }

  lemma IsBuffered(s: State, tr: Track)
    requires Located(s, tr) && tr.place.Buffered?
    ensures BufferOf(s, tr.id) != []
  {
  }

  /** A batch that keeps failing makes exactly the calls it has left, and is then dead-lettered. */
  lemma {:induction false} FailsOut(s: State, tr: Track, g: nat)
    requires Calling(s, tr, g)
    ensures var left := CallsLeft(s.cancelled, s.agents[g].job.attempt) - 1;
      && Legal(s, Failing(g, |s.agents|, left))
      && FollowAll(s, tr, Failing(g, |s.agents|, left)) == tr.(place := Gone, calls := tr.calls + left)
    decreases MAX_BATCH_ATTEMPTS - s.agents[g].job.attempt
  {
    hide Legal, Exec, FollowAll, Located;
    var left: nat := CallsLeft(s.cancelled, s.agents[g].job.attempt) - 1;
    if left == 0 {
      var t := Apply(s, Return(g, false));
      FollowNothing(t, tr.(place := Gone));
      FollowFirst(s, tr, Return(g, false), []);
      assert [Return(g, false)] + [] == [Return(g, false)];
    } else {
      var t := FailsOnce(s, tr, g);
      var events := [Return(g, false), Requeue(g), Spawn(g), Wake(|s.agents|)];
      FailsOut(t, tr.(place := With(|s.agents|), calls := tr.calls + 1), |s.agents|);
      FollowJoin(s, tr, events, Failing(|s.agents|, |s.agents| + 1, left - 1));
    }
  }

  /** After a flush has taken the metric: all of the flush's calls fail, and nobody else acts. */
  function FailOut(s: State, tr: Track): seq<Event> {
    match tr.place
    case InSnapshot => [TakeNext(tr.id)] + Failing(0, |s.agents|, if s.cancelled then 0 else MAX_BATCH_ATTEMPTS - 1)
    case With(g) =>
      if g < |s.agents| && s.agents[g].Processing? && s.agents[g].job.attempt <= MAX_BATCH_ATTEMPTS then
        Failing(g, |s.agents|, if s.cancelled then 0 else MAX_BATCH_ATTEMPTS - s.agents[g].job.attempt)
      else [Launch(g)] + Failing(g, |s.agents|, if s.cancelled then 0 else MAX_BATCH_ATTEMPTS - 1)
    case _ => []
  }

  lemma HandedOffFailsOut(s: State, tr: Track, g: nat)
    requires Located(s, tr) && tr.place == With(g) && g < |s.agents| && s.agents[g].Handoff?
    ensures Legal(s, FailOut(s, tr))
    ensures FollowAll(s, tr, FailOut(s, tr)).calls == tr.calls + CallsLeft(s.cancelled, 1)
  {
    hide Legal, Exec, FollowAll, Located, Failing;
    var t, u := Apply(s, Launch(g)), Follow(s, tr, Launch(g));
    StepKeepsLocated(s, tr, Launch(g));
    FailsOut(t, u, g);
    FollowFirst(s, tr, Launch(g), Failing(g, |s.agents|, CallsLeft(s.cancelled, 1) - 1));
  }

  lemma SnapshotFailsOut(s: State, tr: Track)
    requires Located(s, tr) && tr.place.InSnapshot? && LoopFree(s)
    ensures Legal(s, FailOut(s, tr))
    ensures FollowAll(s, tr, FailOut(s, tr)).calls == tr.calls + CallsLeft(s.cancelled, 1)
  {
    assert s.loop.Flushing? && tr.id in s.loop.todo;
    hide Legal, Exec, FollowAll, Located, Failing;
    var t, u := Apply(s, TakeNext(tr.id)), Follow(s, tr, TakeNext(tr.id));
    StepKeepsLocated(s, tr, TakeNext(tr.id));
    FailsOut(t, u, 0);
    FollowFirst(s, tr, TakeNext(tr.id), Failing(0, |s.agents|, CallsLeft(s.cancelled, 1) - 1));
  }

  /** A flush that takes the metric and fails to the end adds exactly its own calls. */
  lemma TakenAndFailed(s: State, tr: Track, e: Event)
    requires Enabled(s, e) && Rooted(s) && Located(s, tr) && Takes(s, tr, e)
    ensures var t, u := Apply(s, e), Follow(s, tr, e);
      && Legal(t, FailOut(t, u))
      && FollowAll(t, u, FailOut(t, u)).calls == tr.calls + CallsLeft(s.cancelled, FirstAttempt(s, e))
  {
    hide Legal, Exec, FollowAll, Failing;
    var t, u := Apply(s, e), Follow(s, tr, e);
    StepKeepsLocated(s, tr, e);
    if e.Wake? {
      assert Numbered(s.agents[e.g], s.calls);
      hide FailOut;
      assert t.agents[e.g].Processing? by { IsBuffered(s, tr); }
      FailsOut(t, u, e.g);
      FailOutFromCall(t, u, e.g);
    } else if e.Tick? {
      SnapshotFailsOut(t, u);
    } else {
      HandedOffFailsOut(t, u, |s.agents|);
    }
  }

  lemma FailOutFromCall(s: State, tr: Track, g: nat)
    requires Calling(s, tr, g)
    ensures FailOut(s, tr) == Failing(g, |s.agents|, CallsLeft(s.cancelled, s.agents[g].job.attempt) - 1)
  {
  }

  /** At every flush that takes the metric: even if all its calls fail, the metric has been part of at most five. */
  ghost predicate FlushesKeepFive(s: State, tr: Track, events: seq<Event>)
    requires Legal(s, events)
    decreases |events|
  {
    events == [] ||
    (var e := events[0]; var t, u := Apply(s, e), Follow(s, tr, e);
     && (Takes(s, tr, e) ==> Legal(t, FailOut(t, u)) && FollowAll(t, u, FailOut(t, u)).calls <= MAX_BATCH_ATTEMPTS)
     && FlushesKeepFive(t, u, events[1..]))
  }

  lemma {:induction false} KeepFive(s: State, tr: Track, events: seq<Event>)
    requires Legal(s, events) && Rooted(s) && Located(s, tr)
    ensures FlushesKeepFive(s, tr, events) <==> NoneOverdraws(s, tr, events)
    decreases |events|
  {
    hide Rooted, Located, Apply, Follow, FollowAll, FailOut, Takes, CallsLeft, FirstAttempt;
    if events != [] {
      var e := events[0];
      if Takes(s, tr, e) {
        TakenAndFailed(s, tr, e);
      }
      StepKeepsLocated(s, tr, e);
      StepKeepsRooted(s, e);
      KeepFive(Apply(s, e), Follow(s, tr, e), events[1..]);
    }
  }

  /**
    Five calls per metric, exactly: every flush keeps within them, however it fails, in
    just those runs in which no flush takes the metric when the calls behind it and the
    flush's own exceed five.
  */
  lemma FiveCallsExactly(size: int, events: seq<Event>, n: nat)
    requires Legal(Init(size), events)
    ensures FlushesKeepFive(Init(size), Start(n), events) <==> NoneOverdraws(Init(size), Start(n), events)
    ensures NoneOverdraws(Init(size), Start(n), events) ==> FollowAll(Init(size), Start(n), events).calls <= 5
  {
    KeepFive(Init(size), Start(n), events);
    if NoneOverdraws(Init(size), Start(n), events) {
      RunKeepsWithin(Init(size), Start(n), events);
    }
  }

  /** A batch that always fails is called five times and no more: then it is dead-lettered. */
  lemma FifthFailureIsFinal(x: Id, a: Metric)
    ensures var events := [Add(x, a), Launch(1)] + Failing(1, 2, 4);
      && Legal(Init(1), events)
      && FollowAll(Init(1), Start(0), events) == Track(0, x, Gone, 5)
  {
    hide Legal, Exec, FollowAll, Failing;
    var s1 := Apply(Init(1), Add(x, a));
    assert [] + [a] == [a] && s1.agents == [Ended, Handoff(x, [a])];
    var s2 := Apply(s1, Launch(1));
    FollowNothing(s2, Track(0, x, With(1), 1));
    FollowFirst(s1, Track(0, x, With(1), 0), Launch(1), []);
    assert [Launch(1)] + [] == [Launch(1)];
    FollowFirst(Init(1), Start(0), Add(x, a), [Launch(1)]);
    assert [Add(x, a)] + [Launch(1)] == [Add(x, a), Launch(1)];
    FailsOut(s2, Track(0, x, With(1), 1), 1);
    FollowJoin(Init(1), Start(0), [Add(x, a), Launch(1)], Failing(1, 2, 4));
  }

  // ----- flushes that keep apart

  predicate Engaged(t: Task, x: Id) {
    match t
    case Handoff(id, _) => id == x
    case Processing(job) => job.id == x
    case Requeueing(job) => job.id == x
    case Spawning(id, _, _) => id == x
    case Sleeping(id, _, _) => id == x
    case Ended => false
  }

  /** No flush of `x` and no retry of one is under way. */
  ghost predicate Undisturbed(s: State, x: Id) {
    (s.loop.Flushing? ==> x !in s.loop.todo) && forall g :: 0 <= g < |s.agents| ==> !Engaged(s.agents[g], x)
  }

  /** The step starts a flush of `x` that is no retry: by size, or by the flush loop. */
  predicate FreshFlush(s: State, e: Event, x: Id) {
    || (e.Add? && !s.cancelled && e.id == x && Fills(s, x))
    || (e.Tick? && BufferOf(s, x) != [])
  }

  /** Fresh flushes of an ID start only when nothing of that ID is under way. */
  ghost predicate KeptApart(s: State, events: seq<Event>)
    requires Legal(s, events)
    decreases |events|
  {
    events == [] ||
    ((forall x :: FreshFlush(s, events[0], x) ==> Undisturbed(s, x)) && KeptApart(Apply(s, events[0]), events[1..]))
  }

  ghost predicate OneFlush(s: State, x: Id) {
    && (forall g, h :: 0 <= g < h < |s.agents| ==> !(Engaged(s.agents[g], x) && Engaged(s.agents[h], x)))
    && (s.loop.Flushing? && x in s.loop.todo ==> forall g :: 0 <= g < |s.agents| ==> !Engaged(s.agents[g], x))
  }

  lemma TaskKeepsOneFlush(s: State, e: Event, x: Id)
    requires Enabled(s, e) && OneFlush(s, x) && (e.Launch? || e.Return? || e.Requeue? || e.Wake?)
    ensures OneFlush(Apply(s, e), x)
  {
    var t := Apply(s, e);
    assert t.loop == s.loop && |t.agents| == |s.agents|;
    forall g | 0 <= g < |t.agents| && Engaged(t.agents[g], x) ensures Engaged(s.agents[g], x) {
      assert g != e.g ==> t.agents[g] == s.agents[g];
    }
  }

  lemma SpawnKeepsOneFlush(s: State, g: nat, x: Id)
    requires Enabled(s, Spawn(g)) && OneFlush(s, x)
    ensures OneFlush(Apply(s, Spawn(g)), x)
  {
    var t := Apply(s, Spawn(g));
    forall h | 0 <= h < |s.agents| && Engaged(t.agents[h], x) ensures h != g && Engaged(s.agents[h], x) {
      assert h != g ==> t.agents[h] == s.agents[h];
    }
    assert Engaged(t.agents[|s.agents|], x) ==> Engaged(s.agents[g], x);
  }

  lemma FreshKeepsOneFlush(s: State, e: Event, x: Id)
    requires Enabled(s, e) && OneFlush(s, x) && (FreshFlush(s, e, x) ==> Undisturbed(s, x)) && (e.Add? || e.Tick?)
    ensures OneFlush(Apply(s, e), x)
  {
    var t := Apply(s, e);
    assert forall g :: 0 <= g < |s.agents| ==> t.agents[g] == s.agents[g];
  }

  lemma TakeNextKeepsOneFlush(s: State, id: Id, x: Id)
    requires Enabled(s, TakeNext(id)) && OneFlush(s, x)
    ensures OneFlush(Apply(s, TakeNext(id)), x)
  {
    var t := Apply(s, TakeNext(id));
    assert forall g :: 0 < g < |s.agents| ==> t.agents[g] == s.agents[g];
    assert Engaged(t.agents[0], x) <==> id == x;
  }

  lemma StepKeepsOneFlush(s: State, e: Event, x: Id)
    requires Enabled(s, e) && OneFlush(s, x) && (FreshFlush(s, e, x) ==> Undisturbed(s, x))
    ensures OneFlush(Apply(s, e), x)
  {
    match e
    case Add(_, _) => hide OneFlush; FreshKeepsOneFlush(s, e, x);
    case Tick(_) => hide OneFlush; FreshKeepsOneFlush(s, e, x);
    case TakeNext(id) => hide OneFlush; TakeNextKeepsOneFlush(s, id, x);
    case Spawn(g) => hide OneFlush; SpawnKeepsOneFlush(s, g, x);
    case Launch(_) => hide OneFlush; TaskKeepsOneFlush(s, e, x);
    case Return(_, _) => hide OneFlush; TaskKeepsOneFlush(s, e, x);
    case Requeue(_) => hide OneFlush; TaskKeepsOneFlush(s, e, x);
    case Wake(_) => hide OneFlush; TaskKeepsOneFlush(s, e, x);
    case _ =>
  }

  /** The retry that is due for the metric's ID has not made more calls than its attempt number says. */
  predicate Ahead(t: Task, tr: Track) {
    || (t.Spawning? && t.id == tr.id && tr.calls <= t.attempt)
    || (t.Sleeping? && t.id == tr.id && tr.calls < t.attempt)
  }

  /** The metric has been part of no more calls than the flush it belongs to has made. */
  ghost predicate InStep(s: State, tr: Track) {
    match tr.place
    case Unborn => true
    case Buffered => tr.calls == 0 || exists g :: 0 <= g < |s.agents| && Ahead(s.agents[g], tr)
    case InSnapshot => tr.calls == 0
    case With(g) =>
      g < |s.agents| ==>
        (match s.agents[g]
         case Handoff(_, _) => tr.calls == 0
         case Processing(job) => tr.calls <= job.attempt
         case Requeueing(job) => tr.calls <= job.attempt
         case _ => true)
    case Gone => true
  }

  /** A fresh flush finds only metrics that have not been tried; a retry finds those of its own flush. */
  lemma TakesInStep(s: State, tr: Track, e: Event)
    requires Enabled(s, e) && Rooted(s) && Located(s, tr) && InStep(s, tr) && OneFlush(s, tr.id) && Takes(s, tr, e)
    requires FreshFlush(s, e, tr.id) ==> Undisturbed(s, tr.id)
    ensures tr.calls < FirstAttempt(s, e) && !Overdraws(s, tr, e)
  {
    if tr.calls > 0 {
      var g :| 0 <= g < |s.agents| && Ahead(s.agents[g], tr);
      assert Engaged(s.agents[g], tr.id);
      assert Numbered(s.agents[g], s.calls);
      if e.Wake? {
        assert Engaged(s.agents[e.g], tr.id);
      }
    }
    if e.Wake? {
      assert Numbered(s.agents[e.g], s.calls);
    }
  }

  lemma WaitingInStep(s: State, tr: Track, e: Event)
    requires Enabled(s, e) && InStep(s, tr) && tr.place.Buffered? && !Takes(s, tr, e)
    ensures InStep(Apply(s, e), Follow(s, tr, e))
  {
    var t := Apply(s, e);
    if tr.calls > 0 {
      var g :| 0 <= g < |s.agents| && Ahead(s.agents[g], tr);
      assert e == Spawn(g) || t.agents[g] == s.agents[g];
      assert Ahead(t.agents[if e == Spawn(g) then |s.agents| else g], tr);
    }
  }

  lemma TakenInStep(s: State, tr: Track, e: Event)
    requires Enabled(s, e) && Located(s, tr) && Takes(s, tr, e) && tr.calls < FirstAttempt(s, e)
    ensures InStep(Apply(s, e), Follow(s, tr, e))
  {
  }

  lemma CarriedInStep(s: State, tr: Track, e: Event)
    requires Enabled(s, e) && Located(s, tr) && InStep(s, tr) && !tr.place.Buffered?
    ensures InStep(Apply(s, e), Follow(s, tr, e))
  {
    hide Located;
    if tr.place.With? {
      assert tr.place.g < |s.agents| && Carrying(s.agents[tr.place.g]) by { CarrierExists(s, tr); }
    }
    if e.Requeue? && tr.place == With(e.g) {
      assert s.agents[e.g].job.id == tr.id by { RequeuesItsId(s, tr, e.g); }
      assert Ahead(Apply(s, e).agents[e.g], tr);
    } else if tr.place.Unborn? {
      assert tr.calls == 0 by { UnbornIsUntried(s, tr); }
    }
  }

  lemma RequeuesItsId(s: State, tr: Track, g: nat)
    requires Located(s, tr) && tr.place == With(g) && g < |s.agents| && s.agents[g].Requeueing?
    ensures s.agents[g].job.id == tr.id
  {
  }

  lemma StepKeepsInStep(s: State, tr: Track, e: Event)
    requires Enabled(s, e) && Rooted(s) && Located(s, tr) && InStep(s, tr) && OneFlush(s, tr.id)
    requires FreshFlush(s, e, tr.id) ==> Undisturbed(s, tr.id)
    ensures InStep(Apply(s, e), Follow(s, tr, e)) && !Overdraws(s, tr, e)
  {
    hide Rooted, Located, InStep, OneFlush, Follow, Apply, FreshFlush, Undisturbed, FirstAttempt, CallsLeft;
    if Takes(s, tr, e) {
      TakesInStep(s, tr, e);
      TakenInStep(s, tr, e);
    } else if tr.place.Buffered? {
      WaitingInStep(s, tr, e);
    } else {
      CarriedInStep(s, tr, e);
    }
  }

  lemma {:induction false} ApartMeansNoneOverdraws(s: State, tr: Track, events: seq<Event>)
    requires Legal(s, events) && KeptApart(s, events)
    requires Rooted(s) && Located(s, tr) && InStep(s, tr) && forall x :: OneFlush(s, x)
    ensures NoneOverdraws(s, tr, events)
    decreases |events|
  {
    hide Rooted, Located, InStep, OneFlush, Overdraws, Follow, Apply, FreshFlush, Undisturbed;
    if events != [] {
      var e := events[0];
      StepKeepsInStep(s, tr, e);
      StepKeepsLocated(s, tr, e);
      StepKeepsRooted(s, e);
      forall x ensures OneFlush(Apply(s, e), x) {
        StepKeepsOneFlush(s, e, x);
      }
      ApartMeansNoneOverdraws(Apply(s, e), Follow(s, tr, e), events[1..]);
    }
  }

  /**
    If no fresh flush of an ID starts while another flush of it or a retry is under way,
    every metric is part of at most five calls.
  */
  lemma FiveCallsWhenKeptApart(size: int, events: seq<Event>, n: nat)
    requires Legal(Init(size), events) && KeptApart(Init(size), events)
    ensures FollowAll(Init(size), Start(n), events).calls <= 5
  {
    ApartMeansNoneOverdraws(Init(size), Start(n), events);
    FiveCallsExactly(size, events, n);
  }
}
