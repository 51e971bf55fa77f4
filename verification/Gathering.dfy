/** Concatenating and summing a per-element contribution over a sequence. */
module Gathering {

  /** The contributions `f(s[0])`, `f(s[1])`, ... joined in order. */
  function Gather<A, T>(f: A -> seq<T>, s: seq<A>): seq<T> {
    if s == [] then [] else Gather(f, s[..|s| - 1]) + f(s[|s| - 1])
  }

  /** The sum of the contributions of all elements. */
  function Sum<A>(f: A -> int, s: seq<A>): int {
    if s == [] then 0 else Sum(f, s[..|s| - 1]) + f(s[|s| - 1])
  }

  /** The contribution of a number to a plain sum. */
  function Identity(): int -> int { x => x }

  lemma GatherPush<A, T>(f: A -> seq<T>, s: seq<A>, x: A)
    ensures Gather(f, s + [x]) == Gather(f, s) + f(x)
  {
    assert (s + [x])[..|s|] == s;
  }

  lemma SumPush<A>(f: A -> int, s: seq<A>, x: A)
    ensures Sum(f, s + [x]) == Sum(f, s) + f(x)
  {
    assert (s + [x])[..|s|] == s;
  }

  lemma {:induction false} GatherJoin<A, T>(f: A -> seq<T>, a: seq<A>, b: seq<A>)
    ensures Gather(f, a + b) == Gather(f, a) + Gather(f, b)
  {
    if b == [] {
      assert a + b == a;
    } else {
      var front, x := b[..|b| - 1], b[|b| - 1];
      assert a + b == (a + front) + [x] && b == front + [x];
      GatherJoin(f, a, front);
      GatherPush(f, a + front, x);
    }
  }

  lemma {:induction false} SumJoin<A>(f: A -> int, a: seq<A>, b: seq<A>)
    ensures Sum(f, a + b) == Sum(f, a) + Sum(f, b)
  {
    if b == [] {
      assert a + b == a;
    } else {
      var front, x := b[..|b| - 1], b[|b| - 1];
      assert a + b == (a + front) + [x] && b == front + [x];
      SumJoin(f, a, front);
      SumPush(f, a + front, x);
    }
  }

  /** How often `v` occurs in `s`. */
  ghost function Times<T>(s: seq<T>, v: T): nat {
    multiset(s)[v]
  }

  lemma TimesNone<T>(v: T)
    ensures Times([], v) == 0
  {
  }

  lemma TimesJoin<T>(a: seq<T>, b: seq<T>, v: T)
    ensures Times(a + b, v) == Times(a, v) + Times(b, v)
  {
  }

  lemma GatherPushTimes<A, T>(f: A -> seq<T>, s: seq<A>, x: A, v: T)
    ensures Times(Gather(f, s + [x]), v) == Times(Gather(f, s), v) + Times(f(x), v)
  {
    GatherPush(f, s, x);
  }

  /** Replacing one element replaces exactly its contribution. */
  lemma {:induction false} GatherReplace<A, T>(f: A -> seq<T>, s: seq<A>, i: nat, x: A, v: T)
    requires i < |s|
    ensures Times(Gather(f, s[i := x]), v) == Times(Gather(f, s), v) - Times(f(s[i]), v) + Times(f(x), v)
  {
    var t := s[i := x];
    assert t[..i] == s[..i] && t[i + 1..] == s[i + 1..];
    GatherAround(f, s, i);
    GatherAround(f, t, i);
  }

  lemma {:induction false} SumReplace<A>(f: A -> int, s: seq<A>, i: nat, x: A)
    requires i < |s|
    ensures Sum(f, s[i := x]) == Sum(f, s) - f(s[i]) + f(x)
  {
    var a, b := s[..i], s[i + 1..];
    assert s == a + [s[i]] + b && s[i := x] == a + [x] + b;
    SumJoin(f, a + [s[i]], b);
    SumJoin(f, a + [x], b);
    SumPush(f, a, s[i]);
    SumPush(f, a, x);
  }

  lemma {:induction false} GatherNone<A, T>(f: A -> seq<T>, s: seq<A>)
    requires forall i :: 0 <= i < |s| ==> f(s[i]) == []
    ensures Gather(f, s) == []
  {
    if s != [] {
      GatherNone(f, s[..|s| - 1]);
    }
  }

  /** With a single contributor the gathered sequence is that contribution, in its own order. */
  lemma {:induction false} GatherOne<A, T>(f: A -> seq<T>, s: seq<A>, g: nat)
    requires g < |s|
    requires forall i :: 0 <= i < |s| && i != g ==> f(s[i]) == []
    ensures Gather(f, s) == f(s[g])
  {
    if g == |s| - 1 {
      GatherNone(f, s[..g]);
    } else {
      GatherOne(f, s[..|s| - 1], g);
    }
  }

  lemma {:induction false} SumAtLeast<A>(f: A -> int, s: seq<A>, i: nat)
    requires i < |s|
    requires forall j :: 0 <= j < |s| ==> 0 <= f(s[j])
    ensures f(s[i]) <= Sum(f, s)
  {
    SumNonNegative(f, s[..|s| - 1]);
    if i < |s| - 1 {
      SumAtLeast(f, s[..|s| - 1], i);
    }
  }

  lemma {:induction false} SumNonNegative<A>(f: A -> int, s: seq<A>)
    requires forall j :: 0 <= j < |s| ==> 0 <= f(s[j])
    ensures 0 <= Sum(f, s)
  {
    if s != [] {
      SumNonNegative(f, s[..|s| - 1]);
    }
  }

  lemma {:induction false} SumZero<A>(f: A -> int, s: seq<A>)
    requires forall i :: 0 <= i < |s| ==> f(s[i]) == 0
    ensures Sum(f, s) == 0
  {
    if s != [] {
      SumZero(f, s[..|s| - 1]);
    }
  }

  lemma {:induction false} SumCapped<A>(f: A -> int, s: seq<A>, cap: int)
    requires forall i :: 0 <= i < |s| ==> f(s[i]) <= cap
    ensures Sum(f, s) <= |s| * cap
  {
    if s != [] {
      SumCapped(f, s[..|s| - 1], cap);
      assert |s| * cap == (|s| - 1) * cap + cap;
    }
  }

  /** Removing the last element of `a` from `b`, wherever it stands there. */
  lemma Pluck<A>(a: seq<A>, b: seq<A>) returns (i: nat)
    requires a != [] && multiset(a) == multiset(b)
    ensures i < |b| && b[i] == a[|a| - 1]
    ensures multiset(a[..|a| - 1]) == multiset(b[..i] + b[i + 1..])
  {
    var front, x := a[..|a| - 1], a[|a| - 1];
    assert a == front + [x];
    assert x in multiset(b);
    i :| 0 <= i < |b| && b[i] == x;
    var before, after := b[..i], b[i + 1..];
    assert b == before + [x] + after;
    assert multiset(front) == multiset(a) - multiset{x} == multiset(b) - multiset{x} == multiset(before + after);
  }

  /** A sum depends only on which elements are present and how often. */
  lemma {:induction false} SumOfSameElements<A>(f: A -> int, a: seq<A>, b: seq<A>)
    requires multiset(a) == multiset(b)
    ensures Sum(f, a) == Sum(f, b)
    decreases |a|
  {
    if a == [] {
      assert |multiset(b)| == 0;
    } else {
      var i := Pluck(a, b);
      SumOfSameElements(f, a[..|a| - 1], b[..i] + b[i + 1..]);
      SumJoin(f, b[..i], b[i + 1..]);
      SumJoin(f, b[..i] + [b[i]], b[i + 1..]);
      SumPush(f, b[..i], b[i]);
      assert b == b[..i] + [b[i]] + b[i + 1..];
    }
  }

  lemma GatherMiddle<A, T>(f: A -> seq<T>, before: seq<A>, x: A, after: seq<A>)
    ensures Gather(f, before + [x] + after) == Gather(f, before) + f(x) + Gather(f, after)
  {
    hide Gather;
    GatherPush(f, before, x);
    GatherJoin(f, before + [x], after);
  }

  lemma SplitAround<A>(b: seq<A>, i: nat)
    requires i < |b|
    ensures b == b[..i] + [b[i]] + b[i + 1..]
  {
  }

  lemma GatherAround<A, T>(f: A -> seq<T>, b: seq<A>, i: nat)
    requires i < |b|
    ensures Gather(f, b) == Gather(f, b[..i]) + f(b[i]) + Gather(f, b[i + 1..])
  {
    hide Gather;
    SplitAround(b, i);
    GatherMiddle(f, b[..i], b[i], b[i + 1..]);
  }

  /** Gathering permuted elements gathers a permutation. */
  lemma {:induction false} GatherOfSameElements<A, T>(f: A -> seq<T>, a: seq<A>, b: seq<A>)
    requires multiset(a) == multiset(b)
    ensures multiset(Gather(f, a)) == multiset(Gather(f, b))
    decreases |a|
  {
    if a == [] {
      assert |multiset(b)| == 0;
    } else {
      var i := Pluck(a, b);
      var before, after := b[..i], b[i + 1..];
      GatherOfSameElements(f, a[..|a| - 1], before + after);
      GatherJoin(f, before, after);
      GatherAround(f, b, i);
    }
  }

  /** Summing over gathered pieces is summing the pieces' sums. */
  lemma {:induction false} SumOfGathered<A, T>(g: T -> int, f: A -> seq<T>, h: A -> int, s: seq<A>)
    requires forall x :: x in s ==> h(x) == Sum(g, f(x))
    ensures Sum(g, Gather(f, s)) == Sum(h, s)
  {
    if s != [] {
      var front := s[..|s| - 1];
      SumOfGathered(g, f, h, front);
      SumJoin(g, Gather(f, front), f(s[|s| - 1]));
    }
  }

  /** A sum over one sequence bounds a sum over another that is no larger position by position. */
  lemma {:induction false} SumBelow<A, B>(f: A -> int, s: seq<A>, g: B -> int, t: seq<B>)
    requires |s| == |t|
    requires forall i :: 0 <= i < |s| ==> f(s[i]) <= g(t[i])
    ensures Sum(f, s) <= Sum(g, t)
  {
    if s != [] {
      SumBelow(f, s[..|s| - 1], g, t[..|t| - 1]);
    }
  }

  /** Everything gathered was contributed by some element. */
  lemma {:induction false} GatherSource<A, T>(f: A -> seq<T>, s: seq<A>, v: T) returns (i: nat)
    requires v in Gather(f, s)
    ensures i < |s| && v in f(s[i])
  {
    if v in f(s[|s| - 1]) {
      i := |s| - 1;
    } else {
      i := GatherSource(f, s[..|s| - 1], v);
    }
  }

  /** Everything contributed is gathered. */
  lemma GatherMember<A, T>(f: A -> seq<T>, s: seq<A>, i: nat, v: T)
    requires i < |s| && v in f(s[i])
    ensures v in Gather(f, s)
  {
    GatherAround(f, s, i);
  }

  /** Gathering from gathered pieces is gathering once with the composed contribution. */
  lemma {:induction false} GatherOfGathered<A, B, T>(g: B -> seq<T>, f: A -> seq<B>, h: A -> seq<T>, s: seq<A>)
    requires forall x :: x in s ==> h(x) == Gather(g, f(x))
    ensures Gather(g, Gather(f, s)) == Gather(h, s)
  {
    if s != [] {
      var front := s[..|s| - 1];
      GatherOfGathered(g, f, h, front);
      GatherJoin(g, Gather(f, front), f(s[|s| - 1]));
    }
  }

  /** If every contribution splits in two, so does what is gathered. */
  lemma {:induction false} GatherSplits<A, T>(f: A -> seq<T>, g: A -> seq<T>, h: A -> seq<T>, s: seq<A>, v: T)
    requires forall x :: x in s ==> Times(f(x), v) == Times(g(x), v) + Times(h(x), v)
    ensures Times(Gather(f, s), v) == Times(Gather(g, s), v) + Times(Gather(h, s), v)
  {
    if s != [] {
      var front, x := s[..|s| - 1], s[|s| - 1];
      assert s == front + [x] && x in s;
      GatherSplits(f, g, h, front, v);
      GatherPushTimes(f, front, x, v);
      GatherPushTimes(g, front, x, v);
      GatherPushTimes(h, front, x, v);
    }
  }

  lemma GatherPair<A, T>(f: A -> seq<T>, p: A, q: A)
    ensures Gather(f, [p, q]) == f(p) + f(q)
  {
    GatherPush(f, [], p);
    GatherPush(f, [p], q);
    assert [] + [p] == [p] && [p] + [q] == [p, q];
  }

  lemma SumPair<A>(f: A -> int, p: A, q: A)
    ensures Sum(f, [p, q]) == f(p) + f(q)
  {
    SumPush(f, [], p);
    SumPush(f, [p], q);
    assert [] + [p] == [p] && [p] + [q] == [p, q];
  }
}
