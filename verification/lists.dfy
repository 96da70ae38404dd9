/**
 * The array operations the source relies on (`findIndex`, `filter`, a stable
 * `sort`), written once over sequences and specified here.
 */
module Lists {

  /** No element occurs twice. */
  predicate NoDup<T(==)>(s: seq<T>) {
    forall i, j :: 0 <= i < j < |s| ==> s[i] != s[j]
  }

  /**
   * `s.findIndex(x => key(x) === id)`: the position of the first element
   * whose key is `id`, or -1 when there is none.
   */
  function IndexOf<T>(s: seq<T>, key: T -> string, id: string): (r: int)
    ensures -1 <= r < |s|
    ensures r >= 0 ==> key(s[r]) == id
    ensures forall k :: 0 <= k < |s| && (r < 0 || k < r) ==> key(s[k]) != id
  {
    if s == [] then -1
    else if key(s[0]) == id then 0
    else
      var r := IndexOf(s[1..], key, id);
      if r < 0 then -1 else r + 1
  }

  /** `r` is `s` with some elements left out: what remains keeps its order. */
  predicate SubseqOf<T(==)>(r: seq<T>, s: seq<T>) {
    || r == []
    || (s != [] && ((r[0] == s[0] && SubseqOf(r[1..], s[1..])) || SubseqOf(r, s[1..])))
  }

  /** `s.filter(f)`: the elements that satisfy `f`, in their order. */
  function Filter<T(==)>(s: seq<T>, f: T -> bool): (r: seq<T>)
    ensures |r| <= |s|
    ensures forall k :: 0 <= k < |r| ==> r[k] in s && f(r[k])
    ensures forall k :: 0 <= k < |s| && f(s[k]) ==> s[k] in r
  {
    if s == [] then [] else (if f(s[0]) then [s[0]] else []) + Filter(s[1..], f)
  }

  /** Filtering keeps the order of what it keeps. */
  lemma {:induction false} FilterKeepsOrder<T>(s: seq<T>, f: T -> bool)
    ensures SubseqOf(Filter(s, f), s)
  {
    if s != [] {
      var r := Filter(s, f);
      FilterKeepsOrder(s[1..], f);
      if f(s[0]) {
        assert r[0] == s[0] && r[1..] == Filter(s[1..], f);
      } else {
        assert r == Filter(s[1..], f);
      }
    }
  }

  /** Filtering keeps every passing element as often as it occurs. */
  lemma {:induction false} FilterKeepsCount<T>(s: seq<T>, f: T -> bool, x: T)
    requires f(x)
    ensures multiset(Filter(s, f))[x] == multiset(s)[x]
  {
    if s != [] {
      FilterKeepsCount(s[1..], f, x);
      assert multiset(s) == multiset{s[0]} + multiset(s[1..]) by {
        assert s == [s[0]] + s[1..];
      }
      if f(s[0]) {
        assert Filter(s, f) == [s[0]] + Filter(s[1..], f);
      }
    }
  }

  /** Filtering distributes over concatenation: the kept elements stay in order. */
  lemma {:induction false} FilterAppend<T>(a: seq<T>, b: seq<T>, f: T -> bool)
    ensures Filter(a + b, f) == Filter(a, f) + Filter(b, f)
  {
    if a == [] {
      assert a + b == b;
    } else {
      assert (a + b)[1..] == a[1..] + b;
      FilterAppend(a[1..], b, f);
    }
  }

  /** Filtering a sequence whose every element passes changes nothing. */
  lemma {:induction false} FilterAllPass<T>(s: seq<T>, f: T -> bool)
    requires forall k :: 0 <= k < |s| ==> f(s[k])
    ensures Filter(s, f) == s
  {
    if s != [] {
      FilterAllPass(s[1..], f);
    }
  }

  /** Every element that passes the test is kept as often as it occurs. */
  lemma FilterKeepsCounts<T>(s: seq<T>, f: T -> bool)
    ensures forall k :: 0 <= k < |s| && f(s[k]) ==> multiset(Filter(s, f))[s[k]] == multiset(s)[s[k]]
  {
    forall k | 0 <= k < |s| && f(s[k]) {
      FilterKeepsCount(s, f, s[k]);
    }
  }

  /** Filtering twice by the same test is filtering once. */
  lemma FilterIdempotent<T>(s: seq<T>, f: T -> bool)
    ensures Filter(Filter(s, f), f) == Filter(s, f)
  {
    FilterAllPass(Filter(s, f), f);
  }

  /** `s.filter(x => key(x) !== id)`: every element except those keyed `id`. */
  function WithoutId<T(==)>(s: seq<T>, key: T -> string, id: string): (r: seq<T>)
    ensures forall k :: 0 <= k < |r| ==> key(r[k]) != id && r[k] in s
    ensures forall k :: 0 <= k < |s| && key(s[k]) != id ==> s[k] in r
    ensures SubseqOf(r, s)
    ensures forall k :: 0 <= k < |s| && key(s[k]) != id ==> multiset(r)[s[k]] == multiset(s)[s[k]]
  {
    FilterKeepsOrder(s, x => key(x) != id);
    FilterKeepsCounts(s, x => key(x) != id);
    Filter(s, x => key(x) != id)
  }

  /** Removing an id a second time removes nothing more. */
  lemma WithoutIdIdempotent<T>(s: seq<T>, key: T -> string, id: string)
    ensures WithoutId(WithoutId(s, key, id), key, id) == WithoutId(s, key, id)
  {
    FilterAllPass(WithoutId(s, key, id), x => key(x) != id);
  }

  /** Removing an id keeps the order of what remains: it works piecewise on a concatenation. */
  lemma WithoutIdAppend<T>(a: seq<T>, b: seq<T>, key: T -> string, id: string)
    ensures WithoutId(a + b, key, id) == WithoutId(a, key, id) + WithoutId(b, key, id)
  {
    FilterAppend(a, b, x => key(x) != id);
  }

  /** Newest first: every element's time is at least that of every later one. */
  predicate NewestFirstOrder<T>(s: seq<T>, time: T -> int) {
    forall i, j :: 0 <= i < j < |s| ==> time(s[i]) >= time(s[j])
  }

  /**
   * Inserts `x` into a newest-first sequence in front of the first element
   * that is not newer than it, so that `x` precedes its equals.
   */
  function InsertByTime<T>(x: T, s: seq<T>, time: T -> int): seq<T> {
    if s == [] then [x]
    else if time(s[0]) <= time(x) then [x] + s
    else [s[0]] + InsertByTime(x, s[1..], time)
  }

  /** Inserting an element no newer than `bound` into elements no newer than `bound` keeps them so. */
  lemma {:induction false} InsertByTimeBound<T>(x: T, s: seq<T>, time: T -> int, bound: int)
    requires time(x) <= bound
    requires forall k :: 0 <= k < |s| ==> time(s[k]) <= bound
    ensures forall k :: 0 <= k < |InsertByTime(x, s, time)| ==> time(InsertByTime(x, s, time)[k]) <= bound
  {
    if s != [] && time(s[0]) > time(x) {
      InsertByTimeBound(x, s[1..], time, bound);
    }
  }

  /** An element no older than anything in a newest-first sequence may go in front of it. */
  lemma {:induction false} ConsNewestFirst<T>(h: T, s: seq<T>, time: T -> int)
    requires NewestFirstOrder(s, time)
    requires forall k :: 0 <= k < |s| ==> time(s[k]) <= time(h)
    ensures NewestFirstOrder([h] + s, time)
  {
    var r := [h] + s;
    forall i, j | 0 <= i < j < |r|
      ensures time(r[i]) >= time(r[j])
    {
      assert r[j] == s[j - 1];
      if i > 0 {
        assert r[i] == s[i - 1];
      }
    }
  }

  lemma {:induction false} InsertByTimeMultiset<T>(x: T, s: seq<T>, time: T -> int)
    ensures multiset(InsertByTime(x, s, time)) == multiset(s) + multiset{x}
  {
    if s != [] && time(s[0]) > time(x) {
      InsertByTimeMultiset(x, s[1..], time);
      assert s == [s[0]] + s[1..];
    }
  }

  lemma {:induction false} InsertByTimeOrdered<T>(x: T, s: seq<T>, time: T -> int)
    requires NewestFirstOrder(s, time)
    ensures NewestFirstOrder(InsertByTime(x, s, time), time)
  {
    if s == [] {
    } else if time(s[0]) <= time(x) {
      ConsNewestFirst(x, s, time);
    } else {
      assert NewestFirstOrder(s[1..], time);
      InsertByTimeOrdered(x, s[1..], time);
      InsertByTimeBound(x, s[1..], time, time(s[0]));
      ConsNewestFirst(s[0], InsertByTime(x, s[1..], time), time);
    }
  }

  lemma {:induction false} InsertByTimeFacts<T>(x: T, s: seq<T>, time: T -> int)
    requires NewestFirstOrder(s, time)
    ensures multiset(InsertByTime(x, s, time)) == multiset(s) + multiset{x}
    ensures NewestFirstOrder(InsertByTime(x, s, time), time)
  {
    InsertByTimeMultiset(x, s, time);
    InsertByTimeOrdered(x, s, time);
  }

  /**
   * `s.sort((a, b) => time(b) - time(a))`: newest first; Array.prototype.sort
   * is stable, so equally timed elements keep their relative order.
   */
  function NewestFirst<T(==)>(s: seq<T>, time: T -> int): (r: seq<T>)
    ensures multiset(r) == multiset(s)
    ensures NewestFirstOrder(r, time)
  {
    if s == [] then []
    else
      var rest := NewestFirst(s[1..], time);
      InsertFirst(s, rest, time);
      InsertByTime(s[0], rest, time)
  }

  /** Inserting the head of `s` into the sorted rest of `s` sorts all of `s`. */
  lemma InsertFirst<T>(s: seq<T>, rest: seq<T>, time: T -> int)
    requires s != [] && multiset(rest) == multiset(s[1..]) && NewestFirstOrder(rest, time)
    ensures multiset(InsertByTime(s[0], rest, time)) == multiset(s)
    ensures NewestFirstOrder(InsertByTime(s[0], rest, time), time)
  {
    InsertByTimeFacts(s[0], rest, time);
    assert s == [s[0]] + s[1..];
  }

  /** Two sequences with the same multiset have the same members. */
  lemma SameMembers<T>(a: seq<T>, b: seq<T>)
    requires multiset(a) == multiset(b)
    ensures forall k :: 0 <= k < |a| ==> a[k] in b
  {
    forall k | 0 <= k < |a|
      ensures a[k] in b
    {
      assert a[k] in multiset(a);
    }
  }

  /** The elements of `s` whose time is exactly `t`, in order. */
  function AtTime<T>(s: seq<T>, time: T -> int, t: int): seq<T> {
    if s == [] then [] else (if time(s[0]) == t then [s[0]] else []) + AtTime(s[1..], time, t)
  }

  lemma {:induction false} AtTimeCons<T>(h: T, s: seq<T>, time: T -> int, t: int)
    ensures AtTime([h] + s, time, t) == (if time(h) == t then [h] else []) + AtTime(s, time, t)
  {
    assert ([h] + s)[1..] == s;
  }

  /** Inserting `x` adds it to the elements of its time just in front of them. */
  lemma {:induction false} AtTimeInsert<T>(x: T, s: seq<T>, time: T -> int, t: int)
    ensures AtTime(InsertByTime(x, s, time), time, t)
         == (if time(x) == t then [x] else []) + AtTime(s, time, t)
  {
    if s == [] {
    } else if time(s[0]) <= time(x) {
      AtTimeCons(x, s, time, t);
    } else {
      var rest := InsertByTime(x, s[1..], time);
      var tail := AtTime(s[1..], time, t);
      assert InsertByTime(x, s, time) == [s[0]] + rest;
      AtTimeCons(s[0], rest, time, t);
      AtTimeInsert(x, s[1..], time, t);
      assert AtTime(s, time, t) == (if time(s[0]) == t then [s[0]] else []) + tail;
      if time(x) == t {
        // s[0] is strictly newer than x, so it is not at time t
        assert AtTime(InsertByTime(x, s, time), time, t) == [] + ([x] + tail);
        assert [] + ([x] + tail) == [x] + ([] + tail);
      } else {
        var s0 := if time(s[0]) == t then [s[0]] else [];
        assert AtTime(InsertByTime(x, s, time), time, t) == s0 + ([] + tail);
        assert s0 + ([] + tail) == [] + (s0 + tail);
      }
    }
  }

  /** The sort is stable: for every time, the elements with that time keep their order. */
  lemma {:induction false} NewestFirstStable<T>(s: seq<T>, time: T -> int, t: int)
    ensures AtTime(NewestFirst(s, time), time, t) == AtTime(s, time, t)
  {
    if s != [] {
      NewestFirstStable(s[1..], time, t);
      AtTimeInsert(s[0], NewestFirst(s[1..], time), time, t);
    }
  }
}
