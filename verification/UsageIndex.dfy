/** The hourly usage index of one customer, its pruning and expiry, and the rolling average. */
module UsageIndex {
  import opened Gathering

  /** Nanoseconds; the day that counts is the UTC instant. */
  type Time = int

  const HOUR: Time := 3600 * 1_000_000_000
  const WINDOW: Time := 7 * 24 * HOUR
  const KEY_TTL: Time := 8 * 24 * HOUR

  /** An ingested event; `offset` is the zone offset of its timestamp in minutes. */
  datatype Call = Call(at: Time, offset: int)

  /**
    A field of the hash.  Its name is the truncated hour printed in the event's own
    zone, so instants in different zones are different fields.
  */
  datatype Field = Field(hour: Time, offset: int)

  function FieldOf(c: Call): Field {
    Field(c.at - c.at % HOUR, c.offset)
  }

  /** A field stands for the full hour its event lies in, and for the event's zone. */
  lemma FieldIsItsHour(c: Call)
    ensures var f := FieldOf(c);
      && f.hour % 3_600_000_000_000 == 0 && f.hour <= c.at < f.hour + 3_600_000_000_000
      && f.offset == c.offset
  {
  }

  /** Two events share a field exactly if they lie in the same hour and are dated in the same zone. */
  lemma SameField(c: Call, d: Call)
    ensures FieldOf(c) == FieldOf(d) <==> c.at / 3_600_000_000_000 == d.at / 3_600_000_000_000 && c.offset == d.offset
  {
    assert c.at == c.at / HOUR * HOUR + c.at % HOUR && d.at == d.at / HOUR * HOUR + d.at % HOUR;
  }

  /** The stored hash, the time its key expires, and the log of all events ever added. */
  datatype State = State(index: map<Field, nat>, deadline: Time, clock: Time, log: seq<Call>)

  datatype Event =
    | Add(call: Call, now: Time)
    | Prune(now: Time)

  function Init(start: Time): State {
    State(map[], start, start, [])
  }

  /** What a client sees at `now`: nothing once the key has expired. */
  function Visible(s: State, now: Time): map<Field, nat> {
    if now >= s.deadline then map[] else s.index
  }

  function CountAt(index: map<Field, nat>, f: Field): nat {
    if f in index then index[f] else 0
  }

  function Increment(index: map<Field, nat>, f: Field): map<Field, nat> {
    index[f := CountAt(index, f) + 1]
  }

  function WithoutStale(index: map<Field, nat>, now: Time): map<Field, nat> {
    map f | f in index && !(f.hour < now - KEY_TTL) :: index[f]
  }

  predicate Enabled(s: State, e: Event) {
    s.clock <= e.now
  }

  function Apply(s: State, e: Event): State
    requires Enabled(s, e)
  {
    match e
    case Add(call, now) =>
      State(Increment(Visible(s, now), FieldOf(call)), now + KEY_TTL, now, s.log + [call])
    case Prune(now) => s.(index := WithoutStale(Visible(s, now), now), clock := now)
  }

  predicate Legal(s: State, events: seq<Event>)
    decreases |events|
  {
    events == [] || (Enabled(s, events[0]) && Legal(Apply(s, events[0]), events[1..]))
  }

  function Exec(s: State, events: seq<Event>): State
    requires Legal(s, events)
    decreases |events|
  {
    if events == [] then s else Exec(Apply(s, events[0]), events[1..])
  }

  // ----- the log

  function InField(f: Field): Call -> int { (c: Call) => if FieldOf(c) == f then 1 else 0 }

  /** How many logged events belong to field `f`. */
  function Logged(log: seq<Call>, f: Field): int { Sum(InField(f), log) }

  predicate InWindow(f: Field, now: Time) {
    now - WINDOW < f.hour <= now
  }

  function CallInWindow(now: Time): Call -> int { (c: Call) => if InWindow(FieldOf(c), now) then 1 else 0 }

  /** The logged events whose truncated hour lies in the window before `now`. */
  function WindowCalls(log: seq<Call>, now: Time): int { Sum(CallInWindow(now), log) }

  /** The distinct fields those events belong to. */
  function WindowFields(log: seq<Call>, now: Time): set<Field> {
    set c | c in log && InWindow(FieldOf(c), now) :: FieldOf(c)
  }

  // ----- index and log agree

  /** The hour lies at most a day after the event's arrival, the margin of the retention over the window. */
  predicate Timely(call: Call, now: Time) {
    FieldOf(call).hour <= now + (KEY_TTL - WINDOW)
  }

  predicate AllTimely(events: seq<Event>) {
    forall i :: 0 <= i < |events| && events[i].Add? ==> Timely(events[i].call, events[i].now)
  }

  /** On all hours younger than the window, what is visible at `now` is what was logged. */
  ghost predicate Agrees(s: State, now: Time) {
    forall f: Field :: f.hour > now - WINDOW ==>
      CountAt(Visible(s, now), f) == Logged(s.log, f) && (f in Visible(s, now) ==> Visible(s, now)[f] > 0)
  }

  ghost predicate Inv(s: State) {
    && Agrees(s, s.clock)
    && s.deadline - KEY_TTL <= s.clock
    && (forall c :: c in s.log ==> FieldOf(c).hour <= s.deadline - WINDOW)
  }

  lemma {:induction false} NotLogged(log: seq<Call>, f: Field)
    requires forall c :: c in log ==> FieldOf(c) != f
    ensures Logged(log, f) == 0
  {
    SumZero(InField(f), log);
  }

  /** Time alone, and with it the expiry of the key, hides nothing younger than the window. */
  lemma AgreementLasts(s: State, now: Time)
    requires Inv(s) && s.clock <= now
    ensures Agrees(s, now)
  {
    hide Sum;
    forall f: Field | f.hour > now - WINDOW
      ensures CountAt(Visible(s, now), f) == Logged(s.log, f) && (f in Visible(s, now) ==> Visible(s, now)[f] > 0)
    {
      if now >= s.deadline {
        NotLogged(s.log, f);
      } else {
        assert CountAt(Visible(s, s.clock), f) == Logged(s.log, f);
      }
    }
  }

  lemma StepKeepsInv(s: State, e: Event)
    requires Inv(s) && Enabled(s, e) && (e.Add? ==> Timely(e.call, e.now))
    ensures Inv(Apply(s, e))
  {
    hide Sum;
    var t := Apply(s, e);
    AgreementLasts(s, e.now);
    forall f: Field | f.hour > e.now - WINDOW
      ensures CountAt(Visible(t, e.now), f) == Logged(t.log, f) && (f in Visible(t, e.now) ==> Visible(t, e.now)[f] > 0)
    {
      assert CountAt(Visible(s, e.now), f) == Logged(s.log, f);
      if e.Add? {
        SumPush(InField(f), s.log, e.call);
      }
    }
  }

  lemma {:induction false} RunKeepsInv(s: State, events: seq<Event>)
    requires Legal(s, events) && Inv(s) && AllTimely(events)
    ensures Inv(Exec(s, events)) && s.clock <= Exec(s, events).clock
    decreases |events|
  {
    hide Inv;
    if events != [] {
      StepKeepsInv(s, events[0]);
      assert forall i :: 0 <= i < |events[1..]| ==> events[1..][i] == events[i + 1];
      RunKeepsInv(Apply(s, events[0]), events[1..]);
    }
  }

  /** A prune removes exactly the fields whose hour began before the eight days it keeps. */
  lemma PrunedExactly(s: State, now: Time, f: Field)
    requires s.clock <= now
    ensures var was, t := Visible(s, now), Apply(s, Prune(now));
      && (f in t.index <==> f in was && now - 691_200_000_000_000 <= f.hour)
      && (f in t.index ==> t.index[f] == was[f])
      && t.deadline == s.deadline && t.log == s.log
  {
  }

  /** An add counts one more in the field of its hour, touches no other, and renews the eight days of the key. */
  lemma AddedExactly(s: State, c: Call, now: Time, f: Field)
    requires s.clock <= now
    ensures var was, t := Visible(s, now), Apply(s, Add(c, now));
      && (f in t.index <==> f in was || f == FieldOf(c))
      && CountAt(t.index, f) == CountAt(was, f) + (if f == FieldOf(c) then 1 else 0)
      && t.deadline == now + 691_200_000_000_000 && t.log == s.log + [c]
  {
  }

  /**
    After any adds of events dated at most a day ahead and any prunes, and however long
    the key has been idle, the visible index agrees with the log on the whole rolling
    window.
  */
  lemma IndexAgreesWithLog(start: Time, events: seq<Event>, now: Time, f: Field)
    requires Legal(Init(start), events) && AllTimely(events)
    requires Exec(Init(start), events).clock <= now && InWindow(f, now)
    ensures var s := Exec(Init(start), events);
      && CountAt(Visible(s, now), f) == Logged(s.log, f)
      && (f in Visible(s, now) <==> f in WindowFields(s.log, now))
  {
    assert Inv(Init(start));
    RunKeepsInv(Init(start), events);
    AgreementLasts(Exec(Init(start), events), now);
    LoggedIsPresent(Exec(Init(start), events).log, f);
  }

  /** A field's count is positive exactly if some event was logged for it. */
  lemma {:induction false} LoggedIsPresent(log: seq<Call>, f: Field)
    ensures 0 <= Logged(log, f)
    ensures Logged(log, f) > 0 <==> exists c :: c in log && FieldOf(c) == f
  {
    SumNonNegative(InField(f), log);
    if c :| c in log && FieldOf(c) == f {
      var i :| 0 <= i < |log| && log[i] == c;
      SumAtLeast(InField(f), log, i);
    } else {
      NotLogged(log, f);
    }
  }

  /** The event just added stays visible as long as its hour is in the window. */
  ghost predicate VisibleThroughout(s: State, call: Call, now: Time)
    requires s.clock <= now
  {
    var t := Apply(s, Add(call, now));
    forall later :: now <= later && InWindow(FieldOf(call), later) ==> FieldOf(call) in Visible(t, later)
  }

  /** Without further traffic, an event counts for its whole window exactly if it was dated at most a day ahead. */
  lemma VisibleIffTimely(s: State, call: Call, now: Time)
    requires s.clock <= now
    ensures VisibleThroughout(s, call, now) <==> Timely(call, now)
    ensures Timely(call, now) <==> FieldOf(call).hour - now <= 86_400_000_000_000
  {
    if !Timely(call, now) {
      var late := FieldOf(call).hour + WINDOW - 1;
      assert InWindow(FieldOf(call), late) && FieldOf(call) !in Visible(Apply(s, Add(call, now)), late);
    }
  }

  // ----- the rolling average

  /** The event's hour began within the seven days before `now`. */
  predicate Recent(c: Call, now: Time) {
    now - 604_800_000_000_000 < c.at / 3_600_000_000_000 * 3_600_000_000_000 <= now
  }

  function IfRecent(now: Time): Call -> int { (c: Call) => if Recent(c, now) then 1 else 0 }

  /** The hours, by zone, in which recent events lie. */
  function RecentHours(log: seq<Call>, now: Time): set<(int, int)> {
    set c | c in log && Recent(c, now) :: (c.at / 3_600_000_000_000, c.offset)
  }

  lemma RecentIsInWindow(c: Call, now: Time)
    ensures Recent(c, now) <==> InWindow(FieldOf(c), now)
    ensures FieldOf(c) == Field(c.at / 3_600_000_000_000 * 3_600_000_000_000, c.offset)
  {
    assert c.at == c.at / HOUR * HOUR + c.at % HOUR;
  }

  lemma {:induction false} SameSum(f: Call -> int, g: Call -> int, log: seq<Call>)
    requires forall c :: c in log ==> f(c) == g(c)
    ensures Sum(f, log) == Sum(g, log)
  {
    if log != [] {
      assert log[|log| - 1] in log && forall c :: c in log[..|log| - 1] ==> c in log;
      SameSum(f, g, log[..|log| - 1]);
    }
  }

  /** An injective image is as large as its source. */
  lemma {:induction false} ImageSize<A, B>(f: A -> B, a: set<A>, b: set<B>)
    requires forall x, y :: x in a && y in a && f(x) == f(y) ==> x == y
    requires forall x :: x in a ==> f(x) in b
    requires forall z :: z in b ==> exists x :: x in a && f(x) == z
    ensures |a| == |b|
    decreases |a|
  {
    if a == {} {
      assert b == {};
    } else {
      var x :| x in a;
      ImageSize(f, a - {x}, b - {f(x)});
    }
  }

  function HourField(): ((int, int)) -> Field { (h: (int, int)) => Field(h.0 * HOUR, h.1) }

  /** Numerator and denominator in terms of the events' own times. */
  lemma WindowIsRecent(log: seq<Call>, now: Time)
    ensures WindowCalls(log, now) == Sum(IfRecent(now), log)
    ensures |WindowFields(log, now)| == |RecentHours(log, now)|
  {
    forall c: Call ensures CallInWindow(now)(c) == IfRecent(now)(c) {
      RecentIsInWindow(c, now);
    }
    SameSum(CallInWindow(now), IfRecent(now), log);
    var fields, hours := WindowFields(log, now), RecentHours(log, now);
    forall f | f in fields ensures exists h :: h in hours && HourField()(h) == f {
      var c :| c in log && InWindow(FieldOf(c), now) && FieldOf(c) == f;
      RecentIsInWindow(c, now);
      assert (c.at / HOUR, c.offset) in hours && HourField()((c.at / HOUR, c.offset)) == f;
    }
    forall h | h in hours ensures HourField()(h) in fields {
      var c :| c in log && Recent(c, now) && (c.at / HOUR, c.offset) == h;
      RecentIsInWindow(c, now);
      assert FieldOf(c) in fields;
    }
    ImageSize(HourField(), hours, fields);
  }

  function InSet(fields: set<Field>): Call -> int { (c: Call) => if FieldOf(c) in fields then 1 else 0 }

  lemma {:induction false} OneMoreField(log: seq<Call>, fields: set<Field>, f: Field)
    requires f !in fields
    ensures Sum(InSet(fields + {f}), log) == Sum(InSet(fields), log) + Logged(log, f)
  {
    if log != [] {
      OneMoreField(log[..|log| - 1], fields, f);
    }
  }

  lemma WindowAsSet(log: seq<Call>, fields: set<Field>, now: Time)
    requires forall c :: c in log ==> (FieldOf(c) in fields <==> InWindow(FieldOf(c), now))
    ensures Sum(InSet(fields), log) == WindowCalls(log, now)
  {
    SameSum(InSet(fields), CallInWindow(now), log);
  }

  class RedisUsageStore {
    var index: map<Field, nat>
    var deadline: Time
    ghost var clock: Time
    ghost var log: seq<Call>

    ghost function View(): State
      reads this
    {
      State(index, deadline, clock, log)
    }

    constructor (start: Time)
      ensures View() == Init(start) && Inv(View())
    {
      index, deadline, clock, log := map[], start, start, [];
    }

    /** HGETALL. */
    method Entries(now: Time) returns (entries: map<Field, nat>)
      ensures entries == Visible(View(), now)
    {
      entries := if now >= deadline then map[] else index;
    }

    method Add(call: Call, now: Time)
      requires clock <= now
      modifies this
      ensures View() == Apply(old(View()), Event.Add(call, now))
      ensures old(Inv(View())) && Timely(call, now) ==> Inv(View())
    {
      if Inv(View()) && Timely(call, now) {
        StepKeepsInv(View(), Event.Add(call, now));
      }
      var entries := Entries(now);
      index := Increment(entries, FieldOf(call));
      deadline := now + KEY_TTL;
      clock, log := now, log + [call];
    }

    /** Collects the stale fields in an arbitrary order, then deletes them. */
    method PruneOldHours(now: Time)
      requires clock <= now
      modifies this
      ensures View() == Apply(old(View()), Prune(now))
      ensures old(Inv(View())) ==> Inv(View())
    {
      if Inv(View()) {
        StepKeepsInv(View(), Prune(now));
      }
      var entries := Entries(now);
      var cutoff := now - KEY_TTL;
      var stale: set<Field> := {};
      var rest := entries.Keys;
      while rest != {}
        invariant rest <= entries.Keys
        invariant stale == set f | f in entries && f !in rest && f.hour < cutoff
        decreases rest
      {
        var f :| f in rest;
        rest := rest - {f};
        if f.hour < cutoff {
          stale := stale + {f};
        }
      }
      index := entries - stale;
      assert index == WithoutStale(entries, now);
      clock := now;
    }

    /**
      Scans the entries in an arbitrary order: the numerator is the number of logged
      events whose hour began in the last seven days, the denominator the number of
      distinct hours, by zone, in which they lie.
    */
    method GetRollingAverage(now: Time) returns (average: real, calls: int, hours: nat)
      requires Inv(View()) && clock <= now
      ensures calls == Sum(IfRecent(now), log)
      ensures hours == |RecentHours(log, now)|
      ensures average == if hours == 0 then 0.0 else calls as real / hours as real
    {
      var entries := Entries(now);
      AgreementLasts(View(), now);
      calls, hours := 0, 0;
      var rest := entries.Keys;
      ghost var counted: set<Field> := {};
      SumZero(InSet({}), log);
      while rest != {}
        invariant rest <= entries.Keys
        invariant counted == set f | f in entries && f !in rest && InWindow(f, now)
        invariant calls == Sum(InSet(counted), log) && hours == |counted|
        decreases rest
      {
        var f :| f in rest;
        rest := rest - {f};
        if now - WINDOW < f.hour && !(f.hour > now) {
          OneMoreField(log, counted, f);
          assert entries[f] == Logged(log, f);
          calls := calls + entries[f];
          hours := hours + 1;
          counted := counted + {f};
        }
      }
      forall f ensures f in counted <==> f in WindowFields(log, now) {
        LoggedIsPresent(log, f);
      }
      WindowAsSet(log, counted, now);
      assert counted == WindowFields(log, now);
      WindowIsRecent(log, now);
      average := if hours == 0 then 0.0 else calls as real / hours as real;
    }
  }

  // ----- fields and hours

  /** The distinct hours among the fields. */
  function Hours(fields: set<Field>): set<Time> { set f | f in fields :: f.hour }

  /** No two logged events in the window are dated in the same hour of different zones. */
  predicate OneZonePerHour(log: seq<Call>, now: Time) {
    forall c, d ::
      c in log && d in log && InWindow(FieldOf(c), now) && FieldOf(c).hour == FieldOf(d).hour ==> c.offset == d.offset
  }

  lemma {:induction false} HoursOfFields(fields: set<Field>)
    ensures |Hours(fields)| <= |fields|
    ensures |Hours(fields)| == |fields| <==> forall f, g :: f in fields && g in fields && f.hour == g.hour ==> f == g
    decreases |fields|
  {
    if fields == {} {
      assert Hours(fields) == {};
    } else {
      var f :| f in fields;
      var others := fields - {f};
      HoursOfFields(others);
      assert Hours(fields) == Hours(others) + {f.hour};
      assert fields == others + {f};
      if f.hour in Hours(others) {
        assert Hours(fields) == Hours(others);
        var g :| g in others && g.hour == f.hour;
        assert g in fields && f != g;
      } else {
        assert forall g :: g in others ==> g.hour != f.hour;
      }
    }
  }

  /** The denominator is the number of distinct hours exactly if no hour of the window was reported from two zones. */
  lemma DenominatorIsHours(log: seq<Call>, now: Time)
    ensures |Hours(WindowFields(log, now))| <= |WindowFields(log, now)|
    ensures |Hours(WindowFields(log, now))| == |WindowFields(log, now)| <==> OneZonePerHour(log, now)
  {
    var fields := WindowFields(log, now);
    HoursOfFields(fields);
    if OneZonePerHour(log, now) {
      forall f, g | f in fields && g in fields && f.hour == g.hour ensures f == g {
        var c :| c in log && InWindow(FieldOf(c), now) && FieldOf(c) == f;
        var d :| d in log && InWindow(FieldOf(d), now) && FieldOf(d) == g;
      }
    } else {
      var c, d :|
        c in log && d in log && InWindow(FieldOf(c), now) && FieldOf(c).hour == FieldOf(d).hour && c.offset != d.offset;
      assert FieldOf(c) in fields && FieldOf(d) in fields;
    }
  }

  /** The same hour reported from two zones counts twice. */
  lemma ZonesSplitAnHour(now: Time)
    requires now % HOUR == 0
    ensures var log := [Call(now, 0), Call(now, 60)];
      |WindowFields(log, now)| == 2 && |Hours(WindowFields(log, now))| == 1
  {
    var log := [Call(now, 0), Call(now, 60)];
    assert log[0] in log && log[1] in log;
    assert WindowFields(log, now) == {Field(now, 0), Field(now, 60)};
    assert Hours(WindowFields(log, now)) == {now};
  }
}
