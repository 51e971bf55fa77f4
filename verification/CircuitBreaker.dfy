/** The circuit breaker around batch executions, under concurrent callers. */
module CircuitBreaker {
  import opened Gathering
  import L = UsageLedger
  import M = MeteredBilling
  import Retry

  datatype Mode = Closed | Open | HalfOpen

  datatype Mark = Opened(at: int) | Admitted(at: int)

  /**
    `log` is the history of openings and admissions, `recorded` the results recorded
    since the breaker last closed, `inFlight` the calls admitted and not yet back,
    `attempts` the read-update attempts made by the executions that are back.
  */
  datatype State = State(
    threshold: nat,
    reset: int,
    maxRetries: int,
    mode: Mode,
    failures: nat,
    lastFailure: int,
    clock: int,
    inFlight: nat,
    attempts: nat,
    recorded: seq<bool>,
    log: seq<Mark>)

  datatype Event =
    | Arrive(now: int)                // first critical section of ProcessBatch
    | Complete(ok: bool, attempts: nat, now: int)    // second critical section, for any call in flight

  function Init(threshold: nat, reset: int, maxRetries: int, start: int): State {
    State(threshold, reset, maxRetries, Closed, 0, start, start, 0, 0, [], [])
  }

  /** An execution makes no more attempts than its retry loop allows. */
  predicate Enabled(s: State, e: Event) {
    s.clock <= e.now && (e.Complete? ==> s.inFlight > 0 && e.attempts <= Retry.Allowed(s.maxRetries))
  }

  predicate Admits(s: State, now: int) {
    !s.mode.Open? || now - s.lastFailure > s.reset
  }

  function Apply(s: State, e: Event): State
    requires Enabled(s, e)
  {
    match e
    case Arrive(now) => ApplyArrive(s, now)
    case Complete(ok, attempts, now) => ApplyComplete(s, ok, attempts, now)
  }

  function ApplyArrive(s: State, now: int): State {
    if !Admits(s, now) then s.(clock := now)
    else
      var t := s.(clock := now, inFlight := s.inFlight + 1, log := s.log + [Admitted(now)]);
      if s.mode.Open? then t.(mode := HalfOpen, failures := 0) else t
  }

  const UINT32: nat := 0x1_0000_0000

  function Trip(s: State, now: int): State {
    s.(mode := Open, lastFailure := now, log := s.log + [Opened(now)])
  }

  /** A result is recorded against the mode of that moment, whichever mode admitted the call. */
  function ApplyComplete(s: State, ok: bool, attempts: nat, now: int): State
    requires s.inFlight > 0
  {
    var t := s.(clock := now, inFlight := s.inFlight - 1, attempts := s.attempts + attempts);
    match (s.mode, ok)
    case (Open, _) => t
    case (HalfOpen, false) => Trip(t, now)
    case (HalfOpen, true) => t.(mode := Closed, failures := 0, recorded := [])
    case (Closed, true) => t.(failures := 0, recorded := s.recorded + [true])
    case (Closed, false) =>
      var u := t.(failures := (s.failures + 1) % UINT32, recorded := s.recorded + [false]);
      if u.failures >= s.threshold then Trip(u, now) else u
  }

  predicate Legal(s: State, events: seq<Event>)
    decreases |events|
  {
    events == [] || (Enabled(s, events[0]) && Legal(Apply(s, events[0]), events[1..]))
  }

  function Exec(s: State, events: seq<Event>): State
    requires Legal(s, events)
    decreases |events|
  {
    if events == [] then s else Exec(Apply(s, events[0]), events[1..])
  }

  /** The length of the run of failures at the end. */
  function TrailingFailures(results: seq<bool>): nat {
    if results == [] || results[|results| - 1] then 0 else 1 + TrailingFailures(results[..|results| - 1])
  }

  lemma TrailingPush(results: seq<bool>, ok: bool)
    ensures TrailingFailures(results + [ok]) == if ok then 0 else 1 + TrailingFailures(results)
  {
    assert (results + [ok])[..|results|] == results;
  }

  predicate Configured(s: State) {
    s.threshold < UINT32
  }

  /** The failures in a row that open the breaker; a threshold of zero acts like one. */
  function Limit(s: State): nat {
    if s.threshold == 0 then 1 else s.threshold
  }

  ghost predicate Inv(s: State) {
    && (s.mode.Closed? ==> s.failures == TrailingFailures(s.recorded) && s.failures < Limit(s))
    && (s.mode.HalfOpen? ==> s.failures == 0)
    && (forall i :: 0 <= i < |s.log| ==> s.log[i].at <= s.clock)
    && (forall i :: 0 <= i < |s.log| && s.log[i].Opened? ==>
          if s.mode.Open? then s.log[i].at <= s.lastFailure else s.log[i].at + s.reset < s.clock)
    && (forall i, j :: 0 <= i < j < |s.log| && s.log[i].Opened? && s.log[j].Admitted? ==>
          s.log[i].at + s.reset < s.log[j].at)
  }

  lemma StepKeepsInv(s: State, e: Event)
    requires Configured(s) && Inv(s) && Enabled(s, e)
    ensures Configured(Apply(s, e)) && Inv(Apply(s, e))
  {
    hide TrailingFailures;
    if e.Complete? {
      TrailingPush(s.recorded, e.ok);
      TrailingNone();
    }
  }

  lemma TrailingNone()
    ensures TrailingFailures([]) == 0
  {
  }

  lemma {:induction false} RunKeepsInv(s: State, events: seq<Event>)
    requires Legal(s, events) && Configured(s) && Inv(s)
    ensures Configured(Exec(s, events)) && Inv(Exec(s, events))
    ensures Exec(s, events).reset == s.reset && Exec(s, events).threshold == s.threshold
    decreases |events|
  {
    if events != [] {
      StepKeepsInv(s, events[0]);
      RunKeepsInv(Apply(s, events[0]), events[1..]);
    }
  }

  /**
    Whatever callers overlap and however late their results come back, no call is
    admitted from an opening until strictly more than the reset timeout later.
  */
  lemma NoAdmissionWithinReset(
      threshold: nat, reset: int, maxRetries: int, start: int, events: seq<Event>, i: nat, j: nat)
    requires threshold < UINT32 && Legal(Init(threshold, reset, maxRetries, start), events)
    requires i < j < |Exec(Init(threshold, reset, maxRetries, start), events).log|
    ensures var log := Exec(Init(threshold, reset, maxRetries, start), events).log;
      log[i].Opened? && log[j].Admitted? ==> log[j].at - log[i].at > reset
  {
    RunKeepsInv(Init(threshold, reset, maxRetries, start), events);
  }

  /** What opens a breaker that is not open: completing a run of failures when closed, any failure when half open. */
  lemma OpensExactly(s: State, e: Event)
    requires Configured(s) && Inv(s) && Enabled(s, e) && !s.mode.Open?
    ensures Apply(s, e).mode.Open? <==>
      e.Complete? && !e.ok && (s.mode.Closed? ==> TrailingFailures(s.recorded + [false]) == Limit(s))
  {
    hide TrailingFailures;
    TrailingPush(s.recorded, false);
  }

  /**
    In Closed the counter is the current run of failures and below the limit, in
    HalfOpen it is zero; and the breaker opens exactly at a failure that completes a run
    of `Limit` failures, or at any failure while half open.
  */
  lemma CounterIsFailureRun(threshold: nat, reset: int, maxRetries: int, start: int, events: seq<Event>, e: Event)
    requires threshold < UINT32 && Legal(Init(threshold, reset, maxRetries, start), events)
    requires Enabled(Exec(Init(threshold, reset, maxRetries, start), events), e)
    ensures var s := Exec(Init(threshold, reset, maxRetries, start), events);
      && s.threshold == threshold
      && (s.mode.Closed? ==> s.failures == TrailingFailures(s.recorded) < Limit(s))
      && (s.mode.HalfOpen? ==> s.failures == 0)
      && (!s.mode.Open? ==>
            (Apply(s, e).mode.Open? <==>
              e.Complete? && !e.ok && (s.mode.Closed? ==> TrailingFailures(s.recorded + [false]) == Limit(s))))
  {
    RunKeepsInv(Init(threshold, reset, maxRetries, start), events);
    var s := Exec(Init(threshold, reset, maxRetries, start), events);
    hide TrailingFailures, Apply;
    if !s.mode.Open? {
      OpensExactly(s, e);
    }
  }

  // ----- closing, and staying closed

  /** A breaker that is not closed closes exactly at a success recorded while half open, with its counter at zero. */
  lemma ClosesExactly(threshold: nat, reset: int, maxRetries: int, start: int, events: seq<Event>, e: Event)
    requires threshold < UINT32 && Legal(Init(threshold, reset, maxRetries, start), events)
    requires Enabled(Exec(Init(threshold, reset, maxRetries, start), events), e)
    ensures var s := Exec(Init(threshold, reset, maxRetries, start), events); var t := Apply(s, e);
      !s.mode.Closed? ==>
        && (t.mode.Closed? <==> s.mode.HalfOpen? && e.Complete? && e.ok)
        && (t.mode.Closed? ==> t.failures == 0)
  {
  }

  /** The results recorded in the run, in order. */
  function ResultsOf(events: seq<Event>): seq<bool>
    decreases |events|
  {
    if events == [] then [] else (if events[0].Complete? then [events[0].ok] else []) + ResultsOf(events[1..])
  }

  predicate AlwaysClosed(s: State, events: seq<Event>)
    requires Legal(s, events)
    decreases |events|
  {
    s.mode.Closed? && (events == [] || AlwaysClosed(Apply(s, events[0]), events[1..]))
  }

  /** After `c` failures in a row, the results never make it `limit` of them. */
  predicate Survives(c: nat, results: seq<bool>, limit: nat)
    decreases |results|
  {
    results == [] ||
    (var d := if results[0] then 0 else c + 1;
     d < limit && Survives(d, results[1..], limit))
  }

  lemma {:induction false} RunSurvives(s: State, events: seq<Event>)
    requires Legal(s, events) && Configured(s) && Inv(s) && s.mode.Closed?
    ensures AlwaysClosed(s, events) <==> Survives(s.failures, ResultsOf(events), Limit(s))
    decreases |events|
  {
    if events != [] {
      var e, t := events[0], Apply(s, events[0]);
      StepKeepsInv(s, e);
      assert e.Complete? ==> ResultsOf(events)[0] == e.ok && ResultsOf(events)[1..] == ResultsOf(events[1..]);
      assert !e.Complete? ==> ResultsOf(events) == ResultsOf(events[1..]);
      if t.mode.Closed? {
        RunSurvives(t, events[1..]);
      }
    }
  }

  /** From `i` on there are `n` failures in a row. */
  ghost predicate FailureRun(results: seq<bool>, i: nat, n: int) {
    i + n <= |results| && forall j :: i <= j < i + n ==> !results[j]
  }

  lemma {:induction false} SurvivesMeans(c: nat, results: seq<bool>, limit: nat)
    requires c < limit
    ensures Survives(c, results, limit) <==>
      !FailureRun(results, 0, limit - c) && forall i: nat :: !FailureRun(results, i, limit)
    decreases |results|
  {
    if results != [] {
      var rest, d := results[1..], if results[0] then 0 else c + 1;
      forall i: nat, n: nat ensures FailureRun(results, i + 1, n) <==> FailureRun(rest, i, n) {
        assert i + 1 + n <= |results| ==> forall j :: i <= j < i + n ==> rest[j] == results[j + 1];
        assert i + 1 + n <= |results| ==> forall j :: i + 1 <= j < i + 1 + n ==> results[j] == rest[j - 1];
      }
      if d < limit {
        SurvivesMeans(d, rest, limit);
        assert FailureRun(results, 0, limit - c) <==> !results[0] && FailureRun(rest, 0, limit - c - 1) by {
          ShiftedRun(results, limit - c);
        }
        assert FailureRun(results, 0, limit) ==> FailureRun(results, 0, limit - c);
        forall i: nat | FailureRun(results, i, limit)
          ensures FailureRun(results, 0, limit - c) || FailureRun(rest, i - 1, limit)
        {
        }
      }
    }
  }

  lemma ShiftedRun(results: seq<bool>, n: nat)
    requires results != [] && n > 0
    ensures FailureRun(results, 0, n) <==> !results[0] && FailureRun(results[1..], 0, n - 1)
  {
    if FailureRun(results[1..], 0, n - 1) && !results[0] {
      assert forall j :: 1 <= j < n ==> results[j] == results[1..][j - 1];
    }
  }

  /**
    From any reachable state in which the breaker is closed: it stays closed exactly
    until `threshold` failures in a row have been recorded, those counted before included;
    a threshold of zero acts like one.
  */
  lemma StaysClosedExactly(
      threshold: nat, reset: int, maxRetries: int, start: int, before: seq<Event>, events: seq<Event>)
    requires threshold < 4_294_967_296 && Legal(Init(threshold, reset, maxRetries, start), before)
    requires Legal(Exec(Init(threshold, reset, maxRetries, start), before), events)
    requires Exec(Init(threshold, reset, maxRetries, start), before).mode.Closed?
    ensures var s := Exec(Init(threshold, reset, maxRetries, start), before);
      var limit := if threshold == 0 then 1 else threshold;
      && s.failures < limit
      && (AlwaysClosed(s, events) <==>
            && !FailureRun(ResultsOf(events), 0, limit - s.failures)
            && forall i: nat :: !FailureRun(ResultsOf(events), i, limit))
  {
    RunKeepsInv(Init(threshold, reset, maxRetries, start), before);
    var s := Exec(Init(threshold, reset, maxRetries, start), before);
    RunSurvives(s, events);
    SurvivesMeans(s.failures, ResultsOf(events), Limit(s));
  }

  // ----- turning callers away

  /** The breaker is open exactly while its last mark is an opening, which is its last failure. */
  predicate Marked(s: State) {
    && (s.mode.Open? <==> s.log != [] && s.log[|s.log| - 1].Opened?)
    && (s.mode.Open? ==> s.log[|s.log| - 1].at == s.lastFailure)
  }

  lemma {:induction false} RunKeepsMarked(s: State, events: seq<Event>)
    requires Legal(s, events) && Marked(s)
    ensures Marked(Exec(s, events)) && Exec(s, events).reset == s.reset
    decreases |events|
  {
    if events != [] {
      RunKeepsMarked(Apply(s, events[0]), events[1..]);
    }
  }

  /**
    A caller is turned away exactly if nobody has been admitted since the last opening
    and that is no more than the timeout ago.
  */
  lemma RejectsExactly(threshold: nat, reset: int, maxRetries: int, start: int, events: seq<Event>, now: int)
    requires Legal(Init(threshold, reset, maxRetries, start), events)
    requires Exec(Init(threshold, reset, maxRetries, start), events).clock <= now
    ensures var s := Exec(Init(threshold, reset, maxRetries, start), events); var t := Apply(s, Arrive(now));
      var closedToAll := s.log != [] && s.log[|s.log| - 1].Opened? && now - s.log[|s.log| - 1].at <= reset;
      && t.inFlight == (if closedToAll then s.inFlight else s.inFlight + 1)
      && t.log == (if closedToAll then s.log else s.log + [Admitted(now)])
  {
    RunKeepsMarked(Init(threshold, reset, maxRetries, start), events);
  }

  // ----- half open

  predicate SingleProbe(s: State) {
    s.mode.HalfOpen? ==> s.inFlight <= 1
  }

  predicate AlwaysSingleProbe(s: State, events: seq<Event>)
    requires Legal(s, events)
    decreases |events|
  {
    SingleProbe(s) && (events == [] || AlwaysSingleProbe(Apply(s, events[0]), events[1..]))
  }

  /** A caller gets in, while the breaker is not closed, next to a call that is still out. */
  predicate JoinsAnother(s: State, e: Event) {
    e.Arrive? && Admits(s, e.now) && !s.mode.Closed? && s.inFlight > 0
  }

  predicate NoneJoins(s: State, events: seq<Event>)
    requires Legal(s, events)
    decreases |events|
  {
    events == [] || (!JoinsAnother(s, events[0]) && NoneJoins(Apply(s, events[0]), events[1..]))
  }

  lemma StepProbes(s: State, e: Event)
    requires Enabled(s, e) && SingleProbe(s)
    ensures SingleProbe(Apply(s, e)) <==> !JoinsAnother(s, e)
  {
  }

  lemma {:induction false} RunProbes(s: State, events: seq<Event>)
    requires Legal(s, events) && SingleProbe(s)
    ensures AlwaysSingleProbe(s, events) <==> NoneJoins(s, events)
    decreases |events|
  {
    hide SingleProbe, JoinsAnother;
    if events != [] {
      StepProbes(s, events[0]);
      if !JoinsAnother(s, events[0]) {
        RunProbes(Apply(s, events[0]), events[1..]);
      }
    }
  }

  /**
    Half open lets a single call through, as its comment says, in exactly those runs in
    which nobody is admitted to a breaker that is not closed while a call is still out.
  */
  lemma SingleProbeExactly(threshold: nat, reset: int, maxRetries: int, start: int, events: seq<Event>)
    requires Legal(Init(threshold, reset, maxRetries, start), events)
    ensures AlwaysSingleProbe(Init(threshold, reset, maxRetries, start), events)
      <==> NoneJoins(Init(threshold, reset, maxRetries, start), events)
  {
    RunProbes(Init(threshold, reset, maxRetries, start), events);
  }

  /** While half open, a further caller is let in next to the one already probing. */
  lemma HalfOpenAdmitsSeveral(reset: nat, maxRetries: int, start: int)
    ensures var later := start + reset + 1;
      var events := [Arrive(start), Complete(false, 0, start), Arrive(later), Arrive(later)];
      && Legal(Init(1, reset, maxRetries, start), events)
      && Exec(Init(1, reset, maxRetries, start), events).mode.HalfOpen?
      && Exec(Init(1, reset, maxRetries, start), events).inFlight == 2
  {
    var later := start + reset + 1;
    var s1 := Apply(Init(1, reset, maxRetries, start), Arrive(start));
    var s2 := Apply(s1, Complete(false, 0, start));
    var s3 := Apply(s2, Arrive(later));
    ExecStep(s3, Arrive(later), []);
    ExecStep(s2, Arrive(later), [Arrive(later)]);
    ExecStep(s1, Complete(false, 0, start), [Arrive(later), Arrive(later)]);
    ExecStep(Init(1, reset, maxRetries, start), Arrive(start),
             [Complete(false, 0, start), Arrive(later), Arrive(later)]);
  }

  lemma ExecStep(s: State, e: Event, rest: seq<Event>)
    requires Enabled(s, e) && Legal(Apply(s, e), rest)
    ensures Legal(s, [e] + rest) && Exec(s, [e] + rest) == Exec(Apply(s, e), rest)
  {
    assert ([e] + rest)[1..] == rest;
  }

  // ----- load on a downstream that never answers

  /** One caller at a time, and every execution fails. */
  predicate DeadAndSequential(s: State, events: seq<Event>)
    requires Legal(s, events)
    decreases |events|
  {
    events == [] ||
    (var e := events[0];
     && (e.Arrive? ==> s.inFlight == 0)
     && (e.Complete? ==> !e.ok)
     && DeadAndSequential(Apply(s, e), events[1..]))
  }

  function Admission(): Mark -> int { (m: Mark) => if m.Admitted? then 1 else 0 }

  /** How many executions have been let through. */
  function Executions(s: State): int { Sum(Admission(), s.log) }

  /** The time of the first opening; only meaningful once there is one. */
  function FirstOpening(log: seq<Mark>): (at: int)
    requires exists i :: 0 <= i < |log| && log[i].Opened?
  {
    if log[0].Opened? then log[0].at else assert log[1..] != []; FirstOpening(log[1..])
  }

  ghost predicate HasOpened(log: seq<Mark>) {
    exists i :: 0 <= i < |log| && log[i].Opened?
  }

  /** Either fewer than `Limit` executions have failed, or every further one has cost a reset timeout. */
  ghost predicate Throttled(s: State) {
    && (s.mode.Closed? ==> !HasOpened(s.log) && Executions(s) == s.failures + s.inFlight && s.inFlight <= 1)
    && (!s.mode.Closed? ==> HasOpened(s.log) && Executions(s) >= Limit(s))
    && (s.mode.Open? ==>
          s.inFlight == 0 && FirstOpening(s.log) + (Executions(s) - Limit(s)) * s.reset <= s.lastFailure <= s.clock)
    && (s.mode.HalfOpen? ==>
          && s.inFlight == 1 && Executions(s) > Limit(s)
          && FirstOpening(s.log) + (Executions(s) - Limit(s)) * s.reset < s.clock)
  }

  lemma {:induction false} FirstOpeningStays(log: seq<Mark>, m: Mark)
    requires HasOpened(log)
    ensures HasOpened(log + [m]) && FirstOpening(log + [m]) == FirstOpening(log)
  {
    var i :| 0 <= i < |log| && log[i].Opened?;
    assert (log + [m])[i].Opened?;
    if !log[0].Opened? {
      assert log[1..][i - 1].Opened?;
      FirstOpeningStays(log[1..], m);
      assert (log + [m])[1..] == log[1..] + [m];
    }
  }

  lemma {:induction false} FirstOpeningNew(log: seq<Mark>, at: int)
    requires !HasOpened(log)
    ensures HasOpened(log + [Opened(at)]) && FirstOpening(log + [Opened(at)]) == at
  {
    assert (log + [Opened(at)])[|log|].Opened?;
    if log != [] {
      assert !log[0].Opened?;
      forall i | 0 <= i < |log[1..]| ensures !log[1..][i].Opened? {
        assert log[1..][i] == log[i + 1];
      }
      FirstOpeningNew(log[1..], at);
      assert (log + [Opened(at)])[1..] == log[1..] + [Opened(at)];
    }
  }

  lemma ArriveThrottled(s: State, now: int)
    requires Configured(s) && Inv(s) && Throttled(s) && Enabled(s, Arrive(now)) && s.inFlight == 0
    ensures Throttled(ApplyArrive(s, now))
  {
    hide Sum, FirstOpening;
    SumPush(Admission(), s.log, Admitted(now));
    if HasOpened(s.log) {
      FirstOpeningStays(s.log, Admitted(now));
    }
    var k := Executions(s) - Limit(s);
    assert (k + 1) * s.reset == k * s.reset + s.reset;
  }

  lemma FailThrottled(s: State, attempts: nat, now: int)
    requires Configured(s) && Inv(s) && Throttled(s) && Enabled(s, Complete(false, attempts, now))
    ensures Throttled(ApplyComplete(s, false, attempts, now))
  {
    hide Sum, FirstOpening;
    SumPush(Admission(), s.log, Opened(now));
    if HasOpened(s.log) {
      FirstOpeningStays(s.log, Opened(now));
    } else {
      FirstOpeningNew(s.log, now);
    }
  }

  lemma {:induction false} RunThrottled(s: State, events: seq<Event>)
    requires Legal(s, events) && Configured(s) && Inv(s) && Throttled(s) && DeadAndSequential(s, events)
    ensures Throttled(Exec(s, events))
    ensures Exec(s, events).threshold == s.threshold && Exec(s, events).reset == s.reset
    decreases |events|
  {
    hide Throttled, Inv;
    if events != [] {
      match events[0] {
        case Arrive(now) => ArriveThrottled(s, now);
        case Complete(ok, attempts, now) => FailThrottled(s, attempts, now);
      }
      StepKeepsInv(s, events[0]);
      RunThrottled(Apply(s, events[0]), events[1..]);
    }
  }

  /**
    Against a downstream that never answers, sequential callers get at most `Limit`
    executions before the first opening, and after it at most one per reset timeout.
  */
  lemma LoadOnDeadDownstream(threshold: nat, reset: int, maxRetries: int, start: int, events: seq<Event>)
    requires threshold < UINT32 && Legal(Init(threshold, reset, maxRetries, start), events)
    requires DeadAndSequential(Init(threshold, reset, maxRetries, start), events)
    ensures var s := Exec(Init(threshold, reset, maxRetries, start), events);
      && (!HasOpened(s.log) ==> Executions(s) <= Limit(s))
      && (HasOpened(s.log) ==> (Executions(s) - Limit(s)) * reset <= s.clock - FirstOpening(s.log))
  {
    var s := Exec(Init(threshold, reset, maxRetries, start), events);
    RunThrottled(Init(threshold, reset, maxRetries, start), events);
    RunKeepsInv(Init(threshold, reset, maxRetries, start), events);
  }

  /** The executions that are back have made at most `Allowed` attempts each. */
  ghost predicate Attempted(s: State) {
    s.inFlight <= Executions(s) && s.attempts <= Retry.Allowed(s.maxRetries) * (Executions(s) - s.inFlight)
  }

  lemma StepKeepsAttempted(s: State, e: Event)
    requires Enabled(s, e) && Attempted(s)
    ensures Attempted(Apply(s, e)) && Apply(s, e).maxRetries == s.maxRetries
  {
    hide Sum, Retry.Allowed;
    var t := Apply(s, e);
    var most, n := Retry.Allowed(s.maxRetries), Executions(s) - s.inFlight;
    SumPush(Admission(), s.log, Admitted(e.now));
    SumPush(Admission(), s.log, Opened(e.now));
    assert most * (n + 1) == most * n + most;
  }

  lemma {:induction false} RunKeepsAttempted(s: State, events: seq<Event>)
    requires Legal(s, events) && Attempted(s)
    ensures Attempted(Exec(s, events)) && Exec(s, events).maxRetries == s.maxRetries
    decreases |events|
  {
    hide Attempted;
    if events != [] {
      StepKeepsAttempted(s, events[0]);
      RunKeepsAttempted(Apply(s, events[0]), events[1..]);
    }
  }

  /**
    The attempts of a run against a downstream that never answers: at most `Allowed`
    times `Limit` before the first opening, and after it `Allowed` more per reset timeout.
  */
  lemma AttemptsOnDeadDownstream(threshold: nat, reset: nat, maxRetries: int, start: int, events: seq<Event>)
    requires threshold < UINT32 && Legal(Init(threshold, reset, maxRetries, start), events)
    requires DeadAndSequential(Init(threshold, reset, maxRetries, start), events)
    ensures var s, most := Exec(Init(threshold, reset, maxRetries, start), events), Retry.Allowed(maxRetries);
      && (!HasOpened(s.log) ==> s.attempts <= most * Limit(s))
      && (HasOpened(s.log) ==> (s.attempts - most * Limit(s)) * reset <= most * (s.clock - FirstOpening(s.log)))
  {
    var s, most := Exec(Init(threshold, reset, maxRetries, start), events), Retry.Allowed(maxRetries);
    LoadOnDeadDownstream(threshold, reset, maxRetries, start, events);
    assert Attempted(Init(threshold, reset, maxRetries, start));
    hide Sum, FirstOpening, Retry.Allowed, Legal, Exec, DeadAndSequential, HasOpened;
    RunKeepsAttempted(Init(threshold, reset, maxRetries, start), events);
    AllBack(s.attempts, most, Executions(s), s.inFlight);
    if HasOpened(s.log) {
      ScaledBound(s.attempts, Executions(s), Limit(s), most, reset, s.clock - FirstOpening(s.log));
    } else {
      AllBack(s.attempts, most, Limit(s), Limit(s) - Executions(s));
    }
  }

  /** A bound on the calls that are back bounds all calls. */
  lemma AllBack(attempts: nat, most: nat, n: int, out: int)
    requires 0 <= out && attempts <= most * (n - out)
    ensures attempts <= most * n
  {
    assert most * (n - out) == most * n - most * out;
  }

  lemma ScaledBound(sum: int, n: int, limit: int, most: nat, reset: nat, elapsed: int)
    requires sum <= most * n && (n - limit) * reset <= elapsed
    ensures (sum - most * limit) * reset <= most * elapsed
  {
    assert most * n - most * limit == most * (n - limit);
    assert (sum - most * limit) * reset <= most * (n - limit) * reset;
    assert most * (n - limit) * reset == most * ((n - limit) * reset) <= most * elapsed;
  }

  // ----- the breaker as an object

  class Breaker {
    const enabled: bool
    const threshold: nat
    const reset: int
    const maxRetries: int
    var mode: Mode
    var failures: nat
    var lastFailure: int
    ghost var clock: int
    ghost var inFlight: nat
    ghost var attempts: nat
    ghost var recorded: seq<bool>
    ghost var log: seq<Mark>

    ghost function View(): State
      reads this
    {
      State(threshold, reset, maxRetries, mode, failures, lastFailure, clock, inFlight, attempts, recorded, log)
    }

    constructor (enabled: bool, threshold: nat, reset: int, maxRetries: int, start: int)
      ensures View() == Init(threshold, reset, maxRetries, start) && this.enabled == enabled
    {
      this.enabled, this.threshold, this.reset, this.maxRetries := enabled, threshold, reset, maxRetries;
      mode, failures, lastFailure := Closed, 0, start;
      clock, inFlight, attempts, recorded, log := start, 0, 0, [], [];
    }

    /** The critical section before the execution. */
    method Admit(now: int) returns (admitted: bool)
      requires clock <= now
      modifies this
      ensures admitted == Admits(old(View()), now)
      ensures View() == Apply(old(View()), Arrive(now))
    {
      clock := now;
      if mode.Open? {
        if now - lastFailure > reset {
          mode, failures := HalfOpen, 0;
        } else {
          return false;
        }
      }
      inFlight, log := inFlight + 1, log + [Admitted(now)];
      return true;
    }

    /** The critical section after the execution. */
    method Record(ok: bool, ghost made: nat, now: int)
      requires clock <= now && inFlight > 0 && made <= Retry.Allowed(maxRetries)
      modifies this
      ensures View() == Apply(old(View()), Complete(ok, made, now))
    {
      clock, inFlight, attempts := now, inFlight - 1, attempts + made;
      if !ok {
        if mode.HalfOpen? {
          mode, lastFailure := Open, now;
          log := log + [Opened(now)];
        } else if mode.Closed? {
          failures := (failures + 1) % UINT32;
          recorded := recorded + [false];
          if failures >= threshold {
            mode, lastFailure := Open, now;
            log := log + [Opened(now)];
          }
        }
        return;
      }
      if mode.HalfOpen? {
        mode, failures := Closed, 0;
        recorded := [];
      } else if mode.Closed? {
        recorded := recorded + [true];
        if failures > 0 {
          failures := 0;
        }
      }
    }

    /**
      One batch through the breaker, with nobody else at work.  A rejected batch fails
      without touching the item; an executed one runs its retry loop, and the breaker
      records what that loop answers and how many attempts it made.
    */
    method ProcessBatch(
      item: M.SubscriptionItem, key: L.Key, metrics: seq<M.Metric>, env: nat -> M.Fault,
      arrival: int, completion: int, ghost s: L.State, ghost i: nat)
      returns (ok: bool, executed: bool, ghost made: nat, ghost events: seq<L.Event>)
      requires clock <= arrival <= completion
      requires key !in item.seen && M.Describes(s, item)
      requires L.InPhase(s, i) && s.slots[i].phase == L.Fresh && s.slots[i].key == key
      requires s.slots[i].quantity == M.Quantity(metrics)
      modifies this, item
      ensures executed == (!enabled || Admits(old(View()), arrival))
      ensures !executed ==> !ok && made == 0 && events == []
      ensures !executed ==> item.total == old(item.total) && item.seen == old(item.seen)
      ensures executed ==>
        && L.Legal(s, events) && M.Describes(L.Exec(s, events), item)
        && L.InPhase(L.Exec(s, events), i) && L.Exec(s, events).slots[i].phase == L.Replied(ok)
      ensures !enabled ==> View() == old(View())
      ensures enabled ==>
        var steps := if executed then [Arrive(arrival), Complete(ok, made, completion)] else [Arrive(arrival)];
        Legal(old(View()), steps) && View() == Exec(old(View()), steps)
    {
      hide L.Legal, L.Exec;
      if !enabled {
        executed := true;
        var n;
        ghost var answers;
        ok, n, answers, events := M.ExecuteProcessBatch(item, key, metrics, maxRetries, env, s, i);
        made := n;
        return;
      }
      ghost var before := View();
      executed := Admit(arrival);
      if !executed {
        ExecStep(before, Arrive(arrival), []);
        return false, false, 0, [];
      }
      ghost var between := View();
      var n;
      ghost var answers;
      ok, n, answers, events := M.ExecuteProcessBatch(item, key, metrics, maxRetries, env, s, i);
      made := n;
      Record(ok, made, completion);
      AdmittedAndBack(before, arrival, ok, made, completion);
    }
  }

  lemma AdmittedAndBack(s: State, arrival: int, ok: bool, made: nat, completion: int)
    requires Enabled(s, Arrive(arrival)) && Admits(s, arrival) && arrival <= completion
    requires made <= Retry.Allowed(s.maxRetries)
    ensures var steps := [Arrive(arrival), Complete(ok, made, completion)];
      Legal(s, steps) && Exec(s, steps) == Apply(Apply(s, Arrive(arrival)), Complete(ok, made, completion))
  {
    var t := Apply(s, Arrive(arrival));
    ExecStep(t, Complete(ok, made, completion), []);
    ExecStep(s, Arrive(arrival), [Complete(ok, made, completion)]);
  }
}
