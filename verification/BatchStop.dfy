/** What is settled, and what is left behind, when Stop returns. */
module BatchStop {
  import opened Gathering
  import opened BatchProtocol
  import opened BatchConservation
  import opened BatchDrain
  import opened BatchAttempts

  // ----- what a buffer without a retry can hold

  /** The buffer of `x` is the tail of the Adds of `x`, and reaches back no further than to the Add numbered `early`. */
  ghost predicate Tail(s: State, x: Id, early: nat) {
    var adds, pending := AddsOf(s, x), BufferOf(s, x);
    early + |pending| <= |adds| && pending == adds[|adds| - |pending|..]
  }

  ghost predicate LateOnly(s: State, x: Id, early: nat) {
    early <= |AddsOf(s, x)| && (HasRetry(s, x) || Tail(s, x, early))
  }

  lemma AddKeepsTail(s: State, id: Id, metric: Metric, x: Id, early: nat)
    requires Tail(s, x, early)
    ensures Tail(ApplyAdd(s, id, metric), x, early)
  {
    hide Gather;
    if !s.cancelled {
      GatherPush(AddedPart(x), s.accepted, Entry(id, metric));
    }
  }

  lemma AddsGrow(s: State, e: Event, x: Id)
    requires Enabled(s, e)
    ensures AddsOf(s, x) <= AddsOf(Apply(s, e), x)
  {
    if e.Add? && !s.cancelled {
      GatherPush(AddedPart(x), s.accepted, Entry(e.id, e.metric));
    }
  }

  lemma StepKeepsLateOnly(s: State, e: Event, x: Id, early: nat)
    requires Enabled(s, e) && LateOnly(s, x, early)
    ensures LateOnly(Apply(s, e), x, early) && AddsOf(s, x) <= AddsOf(Apply(s, e), x)
  {
    hide Gather;
    var t := Apply(s, e);
    AddsGrow(s, e, x);
    if e.Add? && Tail(s, x, early) {
      AddKeepsTail(s, e.id, e.metric, x, early);
    } else if e.Requeue? && s.agents[e.g].job.id == x {
      assert Retries(t.agents[e.g], x);
    } else if HasRetry(s, x) && !(e.Wake? && s.agents[e.g].id == x) {
      RetrySurvives(s, e, x);
    }
  }

  lemma {:induction false} RunKeepsLateOnly(s: State, events: seq<Event>, x: Id, early: nat)
    requires Legal(s, events) && LateOnly(s, x, early)
    ensures LateOnly(Exec(s, events), x, early) && AddsOf(s, x) <= AddsOf(Exec(s, events), x)
    decreases |events|
  {
    hide LateOnly, Gather;
    if events != [] {
      StepKeepsLateOnly(s, events[0], x, early);
      RunKeepsLateOnly(Apply(s, events[0]), events[1..], x, early);
    }
  }

  // ----- every run that ends with Stop's return

  /** A run that ends after the final snapshot has taken it at some point. */
  lemma {:induction false} FinalSnapshot(s: State, events: seq<Event>) returns (before: seq<Event>, after: seq<Event>)
    requires Legal(s, events) && !Final(s) && Final(Exec(s, events))
    ensures events == before + [Tick(true)] + after && Legal(s, before) && Enabled(Exec(s, before), Tick(true))
    ensures var t := Apply(Exec(s, before), Tick(true));
      Legal(t, after) && Exec(t, after) == Exec(s, events)
    decreases |events|
  {
    HeadAndTail(events);
    if events[0] == Tick(true) {
      before, after := [], events[1..];
      EmptyRun(s);
      assert [] + [Tick(true)] == [Tick(true)];
    } else {
      assert !Final(Apply(s, events[0]));
      hide Apply, Enabled, Final;
      var rest;
      rest, after := FinalSnapshot(Apply(s, events[0]), events[1..]);
      ExecStep(s, events[0], rest);
      Regrouped([events[0]], rest, [Tick(true)], after);
      before := [events[0]] + rest;
    }
  }

  lemma HeadAndTail<T>(a: seq<T>)
    requires a != []
    ensures a == [a[0]] + a[1..]
  {
  }

  lemma Regrouped<T>(a: seq<T>, b: seq<T>, c: seq<T>, d: seq<T>)
    ensures a + (b + c + d) == a + b + c + d
  {
  }

  predicate NoHandoff(s: State) {
    forall g :: 0 <= g < |s.agents| ==> !s.agents[g].Handoff?
  }

  ghost predicate AllSettled(s: State) {
    forall x :: multiset(AddsOf(s, x)) == multiset(SettledOf(s, x))
  }

  lemma HandoffsHold(s: State, x: Id)
    requires Quiet(s) && NoHandoff(s)
    ensures HeldOf(s, x) == []
  {
    GatherNone(HeldPart(x), s.agents);
  }

  /** At the end, settled metrics are all but those in handoffs and buffers. */
  lemma QuietSplits(size: int, events: seq<Event>, x: Id)
    requires Legal(Init(size), events) && Quiet(Exec(Init(size), events))
    ensures var t := Exec(Init(size), events);
      multiset(AddsOf(t, x)) == multiset(SettledOf(t, x)) + multiset(HeldOf(t, x)) + multiset(BufferOf(t, x))
  {
    NothingLost(size, events, x);
  }

  lemma HandoffIsUnsettled(size: int, events: seq<Event>)
    requires Legal(Init(size), events) && Quiet(Exec(Init(size), events)) && !NoHandoff(Exec(Init(size), events))
    ensures !AllSettled(Exec(Init(size), events))
  {
    var t := Exec(Init(size), events);
    RunKeepsRooted(Init(size), events);
    var g :| 0 <= g < |t.agents| && t.agents[g].Handoff?;
    assert Numbered(t.agents[g], t.calls);
    var x := t.agents[g].id;
    GatherAround(HeldPart(x), t.agents, g);
    QuietSplits(size, events, x);
    assert |multiset(AddsOf(t, x))| > |multiset(SettledOf(t, x))|;
  }

  /**
    Whatever Adds came before or after the final snapshot: when Stop returns, every
    metric accepted before the snapshot is settled or in a handoff, and a buffer holds
    nothing but the last Adds of its ID, all accepted after it.  So everything accepted
    is settled exactly if no Add stands between its unlock and its goroutine and no late
    Add is left in a buffer.
  */
  lemma StopSettlesEverything(size: int, events: seq<Event>) returns (before: seq<Event>, after: seq<Event>)
    requires Legal(Init(size), events) && Quiet(Exec(Init(size), events))
    ensures events == before + [Tick(true)] + after && Legal(Init(size), before)
    ensures var early, t := Exec(Init(size), before), Exec(Init(size), events);
      && (forall x ::
            && AddsOf(early, x) <= AddsOf(t, x) && Tail(t, x, |AddsOf(early, x)|)
            && multiset(AddsOf(early, x)) <= multiset(SettledOf(t, x)) + multiset(HeldOf(t, x)))
      && (AllSettled(t) <==> NoHandoff(t) && forall x :: BufferOf(t, x) == [])
  {
    var t := Exec(Init(size), events);
    before, after := FinalSnapshot(Init(size), events);
    var early := Exec(Init(size), before);
    forall x ensures
      && AddsOf(early, x) <= AddsOf(t, x) && Tail(t, x, |AddsOf(early, x)|)
      && multiset(AddsOf(early, x)) <= multiset(SettledOf(t, x)) + multiset(HeldOf(t, x))
    {
      SnapshotIsServed(size, events, early, after, x);
    }
    if NoHandoff(t) {
      forall x ensures multiset(AddsOf(t, x)) == multiset(SettledOf(t, x)) + multiset(BufferOf(t, x)) {
        HandoffsHold(t, x);
        QuietSplits(size, events, x);
      }
      forall x ensures multiset(AddsOf(t, x)) == multiset(SettledOf(t, x)) <==> BufferOf(t, x) == [] {
        assert |multiset(AddsOf(t, x))| == |multiset(SettledOf(t, x))| + |BufferOf(t, x)|;
      }
    } else {
      HandoffIsUnsettled(size, events);
    }
  }

  lemma SnapshotIsServed(size: int, events: seq<Event>, early: State, after: seq<Event>, x: Id)
    requires Legal(Init(size), events) && Quiet(Exec(Init(size), events)) && Enabled(early, Tick(true))
    requires Legal(Apply(early, Tick(true)), after)
    requires Exec(Apply(early, Tick(true)), after) == Exec(Init(size), events)
    ensures var t := Exec(Init(size), events);
      && AddsOf(early, x) <= AddsOf(t, x) && Tail(t, x, |AddsOf(early, x)|)
      && multiset(AddsOf(early, x)) <= multiset(SettledOf(t, x)) + multiset(HeldOf(t, x))
  {
    hide Gather, Legal, Exec;
    var t, k := Exec(Init(size), events), |AddsOf(early, x)|;
    RunKeepsLateOnly(Apply(early, Tick(true)), after, x, k);
    assert !HasRetry(t, x);
    QuietSplits(size, events, x);
    var adds, pending := AddsOf(t, x), BufferOf(t, x);
    var served := adds[..|adds| - |pending|];
    assert adds == served + pending && AddsOf(early, x) == served[..k] && served == served[..k] + served[k..];
    assert multiset(adds) == multiset(served) + multiset(pending);
    assert multiset(served) == multiset(served[..k]) + multiset(served[k..]);
    Cancel(multiset(served), multiset(SettledOf(t, x)) + multiset(HeldOf(t, x)), multiset(pending));
  }

  lemma Cancel<T>(a: multiset<T>, b: multiset<T>, c: multiset<T>)
    requires a + c == b + c
    ensures a == b
  {
    assert a == (a + c) - c && b == (b + c) - c;
  }

  /** Without a late Add nothing is left in a buffer. */
  lemma StopSettlesWithoutLateAdds(size: int, before: seq<Event>, after: seq<Event>)
    requires Legal(Init(size), before) && Enabled(Exec(Init(size), before), Tick(true))
    requires Legal(Apply(Exec(Init(size), before), Tick(true)), after) && WithoutAdds(after)
    requires Quiet(Exec(Apply(Exec(Init(size), before), Tick(true)), after))
    ensures var t := Exec(Apply(Exec(Init(size), before), Tick(true)), after);
      AllSettled(t) <==> NoHandoff(t)
  {
    hide AllSettled;
    var s := Apply(Exec(Init(size), before), Tick(true));
    var events := before + ([Tick(true)] + after);
    StopDrains(size, before, after);
    ExecStep(Exec(Init(size), before), Tick(true), after);
    ExecJoin(Init(size), before, [Tick(true)] + after);
    var b, a := StopSettlesEverything(size, events);
  }

  // ----- late Adds

  predicate Due(t: Task, id: Id) {
    Retries(t, id) || (t.Requeueing? && t.job.id == id)
  }

  /** A flush of `id` by a retry goroutine is on its way. */
  ghost predicate RetryDue(s: State, id: Id) {
    exists g :: 0 <= g < |s.agents| && Due(s.agents[g], id)
  }

  ghost predicate Awaited(s: State, x: Id) {
    BufferOf(s, x) != [] ==> RetryDue(s, x)
  }

  lemma StepKeepsAwaited(s: State, e: Event, x: Id)
    requires Enabled(s, e) && !e.Add? && Awaited(s, x)
    ensures Awaited(Apply(s, e), x)
  {
    var t := Apply(s, e);
    if BufferOf(t, x) != [] {
      if e.Requeue? && s.agents[e.g].job.id == x {
        assert Due(t.agents[e.g], x);
      } else {
        var g :| 0 <= g < |s.agents| && Due(s.agents[g], x);
        assert e == Spawn(g) || t.agents[g] == s.agents[g];
        assert Due(t.agents[if e == Spawn(g) then |s.agents| else g], x);
      }
    }
  }

  lemma {:induction false} RunKeepsAwaited(s: State, events: seq<Event>, x: Id)
    requires Legal(s, events) && WithoutAdds(events) && Awaited(s, x)
    ensures Awaited(Exec(s, events), x)
    decreases |events|
  {
    hide Awaited;
    if events != [] {
      StepKeepsAwaited(s, events[0], x);
      assert forall i :: 0 <= i < |events[1..]| ==> events[1..][i] == events[i + 1];
      RunKeepsAwaited(Apply(s, events[0]), events[1..], x);
    }
  }

  /** The metric waits in a buffer that no retry is due for, or in a handoff. */
  ghost predicate Stranded(s: State, tr: Track) {
    || (tr.place.Buffered? && !RetryDue(s, tr.id))
    || (tr.place.With? && tr.place.g < |s.agents| && s.agents[tr.place.g].Handoff?)
  }

  /** Neither an Add nor a launch, and nothing fails. */
  predicate Quietly(e: Event) {
    !e.Add? && !e.Launch? && !(e.Return? && !e.ok)
  }

  lemma QuietStepStrands(s: State, tr: Track, e: Event)
    requires Enabled(s, e) && Final(s) && Quietly(e) && Stranded(s, tr)
    ensures Follow(s, tr, e) == tr && Stranded(Apply(s, e), tr)
  {
    var t := Apply(s, e);
    if e.Requeue? || e.Spawn? || e.Wake? {
      assert tr.place.Buffered? ==> !Due(s.agents[e.g], tr.id);
    }
    forall g | 0 <= g < |t.agents| && tr.place.Buffered? ensures !Due(t.agents[g], tr.id) {
      if g < |s.agents| {
        assert !Due(s.agents[g], tr.id);
      }
    }
  }

  /** While Stop has not returned, some step is left that launches nothing. */
  lemma NextQuietly(s: State) returns (e: Event)
    requires Rooted(s) && Final(s) && !Quiet(s)
    ensures Enabled(s, e) && Quietly(e) && !e.Tick? && !e.Cancel? && !e.CloseDone?
  {
    if g :| 0 <= g < |s.agents| && !s.agents[g].Ended? && !s.agents[g].Handoff? {
      e := NextEvent(s.agents[g], g);
    } else if id :| id in s.loop.todo {
      e := TakeNext(id);
    } else {
      assert s.loop.todo == map[];
      e := LoopEnd;
    }
  }

  /** Stop can return, with every call succeeding, without the metric having moved. */
  lemma {:induction false} StaysBehind(s: State, tr: Track) returns (after: seq<Event>)
    requires Rooted(s) && Final(s) && Stranded(s, tr)
    ensures Legal(s, after) && WithoutAdds(after) && Quiet(Exec(s, after)) && FollowAll(s, tr, after) == tr
    decreases Measure(s)
  {
    hide Rooted, Stranded, Measure, Apply, Follow;
    FollowNothing(s, tr);
    after := [];
    if !Quiet(s) {
      var e := NextQuietly(s);
      StepDrains(s, e);
      StepKeepsRooted(s, e);
      MeasureNonNegative(Apply(s, e));
      QuietStepStrands(s, tr, e);
      var rest := StaysBehind(Apply(s, e), tr);
      FollowFirst(s, tr, e, rest);
      after := [e] + rest;
    }
  }

  /** An accepted metric on its way that no goroutine still has to be launched for. */
  ghost predicate Underway(s: State, tr: Track) {
    Located(s, tr) && !tr.place.Unborn? && (tr.place.With? ==> !s.agents[tr.place.g].Handoff?)
  }

  lemma OnlyAddHandsOff(s: State, g: nat, e: Event)
    requires Enabled(s, e) && !e.Add? && g < |s.agents| && !s.agents[g].Handoff?
    ensures g < |Apply(s, e).agents| && !Apply(s, e).agents[g].Handoff?
  {
  }

  lemma StepKeepsUnderway(s: State, tr: Track, e: Event)
    requires Enabled(s, e) && !e.Add? && Underway(s, tr)
    ensures Underway(Apply(s, e), Follow(s, tr, e)) && Follow(s, tr, e).id == tr.id
  {
    StepKeepsLocated(s, tr, e);
    if tr.place.With? {
      CarrierExists(s, tr);
      OnlyAddHandsOff(s, tr.place.g, e);
    }
    hide Located;
    var u := Follow(s, tr, e);
    assert u.place == tr.place || (e == TakeNext(tr.id) && u.place == With(0))
        || (e.Wake? && u.place == With(e.g)) || !u.place.With?;
    if e.Wake? {
      OnlyAddHandsOff(s, e.g, e);
    }
  }

  lemma {:induction false} RunKeepsUnderway(s: State, tr: Track, events: seq<Event>)
    requires Legal(s, events) && WithoutAdds(events) && Underway(s, tr)
    ensures Underway(Exec(s, events), FollowAll(s, tr, events)) && FollowAll(s, tr, events).id == tr.id
    decreases |events|
  {
    hide Underway, Follow, Apply;
    if events != [] {
      StepKeepsUnderway(s, tr, events[0]);
      assert forall i :: 0 <= i < |events[1..]| ==> events[1..][i] == events[i + 1];
      RunKeepsUnderway(Apply(s, events[0]), Follow(s, tr, events[0]), events[1..]);
    }
  }

  /** A metric under way whose buffer a retry is due for has left the manager by the time Stop returns. */
  lemma AwaitedIsSettled(s: State, tr: Track, after: seq<Event>)
    requires Legal(s, after) && WithoutAdds(after) && Quiet(Exec(s, after))
    requires Underway(s, tr) && Awaited(s, tr.id)
    ensures FollowAll(s, tr, after).place.Gone?
  {
    RunKeepsUnderway(s, tr, after);
    RunKeepsAwaited(s, after, tr.id);
    hide Legal, Exec, FollowAll;
    var t, u := Exec(s, after), FollowAll(s, tr, after);
    assert !RetryDue(t, tr.id);
  }

  /** The metric's own track from the moment it is accepted. */
  function Accepting(s: State, x: Id, m: Metric): Track {
    Follow(s, Start(|s.accepted|), Add(x, m))
  }

  lemma AcceptedIsLocated(s: State, x: Id, m: Metric)
    requires !s.cancelled
    ensures Located(ApplyAdd(s, x, m), Accepting(s, x, m)) && Accepting(s, x, m).id == x
    ensures Accepting(s, x, m).place == if Fills(s, x) then With(|s.agents|) else Buffered
  {
    AddKeepsLocated(s, Start(|s.accepted|), x, m);
  }

  /** However the run goes on, without a further Add, the metric is settled when Stop returns. */
  ghost predicate AlwaysSettled(s: State, tr: Track) {
    forall after :: Legal(s, after) && WithoutAdds(after) && Quiet(Exec(s, after)) ==>
      FollowAll(s, tr, after).place.Gone?
  }

  /**
    After the final snapshot an accepted Add is sure to be settled, whatever follows
    short of another Add, exactly if it does not fill its buffer and a retry of its ID is
    due.  Filling the buffer is no help: the batch is then a handoff that Stop does not
    wait for.
  */
  lemma LateAddIsSafeExactly(size: int, events: seq<Event>, x: Id, m: Metric)
    requires Legal(Init(size), events) && Final(Exec(Init(size), events)) && !Exec(Init(size), events).cancelled
    ensures var s := Exec(Init(size), events);
      AlwaysSettled(ApplyAdd(s, x, m), Accepting(s, x, m)) <==> |BufferOf(s, x)| + 1 < size && RetryDue(s, x)
  {
    hide Legal, Exec, FollowAll, Rooted, Located, Follow;
    var s := Exec(Init(size), events);
    var t, tr := ApplyAdd(s, x, m), Accepting(s, x, m);
    RunKeepsSize(Init(size), events);
    InitRooted(size);
    RunKeepsRooted(Init(size), events);
    StepKeepsRooted(s, Add(x, m));
    AddKeepsDue(s, x, m);
    AcceptedIsLocated(s, x, m);
    if !Fills(s, x) && RetryDue(s, x) {
      forall after | Legal(t, after) && WithoutAdds(after) && Quiet(Exec(t, after))
        ensures FollowAll(t, tr, after).place.Gone?
      {
        AwaitedIsSettled(t, tr, after);
      }
    } else {
      var after := StaysBehind(t, tr);
    }
  }

  lemma InitRooted(size: int)
    ensures Rooted(Init(size))
  {
  }

  lemma AddKeepsDue(s: State, x: Id, m: Metric)
    ensures RetryDue(ApplyAdd(s, x, m), x) <==> RetryDue(s, x)
  {
    var t := ApplyAdd(s, x, m);
    if g :| 0 <= g < |s.agents| && Due(s.agents[g], x) {
      assert Due(t.agents[g], x);
    }
    if g :| 0 <= g < |t.agents| && Due(t.agents[g], x) {
      assert Due(s.agents[g], x);
    }
  }

  /**
    For every batch size a late Add can be accepted and be unsettled when Stop returns:
    left in its buffer or, if it fills it, in a handoff.
  */
  lemma LateAddIsStranded(size: int, x: Id, m: Metric)
    ensures var events := [CloseDone, Tick(true), Add(x, m), LoopEnd];
      && Legal(Init(size), events)
      && Quiet(Exec(Init(size), events))
      && AddsOf(Exec(Init(size), events), x) == [m] && SettledOf(Exec(Init(size), events), x) == []
      && BufferOf(Exec(Init(size), events), x) == if size < 2 then [] else [m]
  {
    hide Legal, Exec, Gather;
    var s1 := Apply(Init(size), CloseDone);
    var s2 := Apply(s1, Tick(true));
    var s3 := Apply(s2, Add(x, m));
    var s4 := Apply(s3, LoopEnd);
    FirstAdd(s2, x, m);
    FourEvents(Init(size), CloseDone, Tick(true), Add(x, m), LoopEnd);
    OneAddOf(s4, x, m);
  }

  /** An Add to an empty manager. */
  lemma FirstAdd(s: State, x: Id, m: Metric)
    requires !s.cancelled && s.buffer == map[] && s.accepted == []
    ensures var t := ApplyAdd(s, x, m);
      && BufferOf(t, x) == (if s.size < 2 then [] else [m]) && t.accepted == [Entry(x, m)]
      && t.agents == if s.size < 2 then s.agents + [Handoff(x, [m])] else s.agents
  {
    assert [] + [m] == [m];
  }

  lemma OneAddOf(s: State, x: Id, m: Metric)
    requires s.accepted == [Entry(x, m)] && s.settled == []
    ensures AddsOf(s, x) == [m] && SettledOf(s, x) == []
  {
    GatherPush(AddedPart(x), [], Entry(x, m));
    assert [] + [m] == [m] && [] + [Entry(x, m)] == [Entry(x, m)];
  }

  lemma FourEvents(s: State, a: Event, b: Event, c: Event, d: Event)
    requires Enabled(s, a) && Enabled(Apply(s, a), b) && Enabled(Apply(Apply(s, a), b), c)
    requires Enabled(Apply(Apply(Apply(s, a), b), c), d)
    ensures Legal(s, [a, b, c, d]) && Exec(s, [a, b, c, d]) == Apply(Apply(Apply(Apply(s, a), b), c), d)
  {
    FourSteps(s, Start(0), a, b, c, d);
  }

  /** Stop can return while a full batch is in nobody's hands that it waits for. */
  lemma StopCanMissAHandoff(x: Id, m: Metric)
    ensures var events := [Add(x, m), CloseDone, Tick(true), LoopEnd];
      && Legal(Init(1), events)
      && Quiet(Exec(Init(1), events))
      && AddsOf(Exec(Init(1), events), x) == [m] && SettledOf(Exec(Init(1), events), x) == []
  {
    hide Legal, Exec, Gather, BufferOf;
    var s1 := Apply(Init(1), Add(x, m));
    FirstAdd(Init(1), x, m);
    var s2 := Apply(s1, CloseDone);
    var s3 := Apply(s2, Tick(true));
    var s4 := Apply(s3, LoopEnd);
    assert s3.loop.todo == map[];
    FourEvents(Init(1), Add(x, m), CloseDone, Tick(true), LoopEnd);
    OneAddOf(s4, x, m);
  }
}
