/** Orderings the dashboard relies on: JavaScript's default `sort()` on
    strings (compared character by character), "latest by timestamp", and a
    stable ascending sort by timestamp. Timestamps are the parsed dates in
    milliseconds. */
module Ordering {

  /** `a` sorts strictly before `b` under the default string comparison. */
  predicate StrLess(a: string, b: string)
    decreases |a|
  {
    if a == [] then b != []
    else if b == [] then false
    else if a[0] != b[0] then a[0] < b[0]
    else StrLess(a[1..], b[1..])
  }

  lemma {:induction false} StrLessIrreflexive(a: string)
    ensures !StrLess(a, a)
    decreases |a|
  {
    if a != [] {
      StrLessIrreflexive(a[1..]);
    }
  }

  lemma {:induction false} StrLessTransitive(a: string, b: string, c: string)
    requires StrLess(a, b) && StrLess(b, c)
    ensures StrLess(a, c)
    decreases |a|
  {
    if a != [] && a[0] == b[0] && b[0] == c[0] {
      StrLessTransitive(a[1..], b[1..], c[1..]);
    }
  }

  /** Two different strings are always ordered one way or the other. */
  lemma {:induction false} StrLessTotal(a: string, b: string)
    requires a != b
    ensures StrLess(a, b) || StrLess(b, a)
    decreases |a|
  {
    if a != [] && b != [] && a[0] == b[0] {
      assert a == [a[0]] + a[1..] && b == [b[0]] + b[1..];
      StrLessTotal(a[1..], b[1..]);
    }
  }

  /** `m` sorts before every other member of `s`. */
  predicate IsLeast(m: string, s: set<string>) {
    forall x :: x in s ==> x == m || StrLess(m, x)
  }

  lemma {:induction false} HasLeast(s: set<string>)
    requires s != {}
    ensures exists m :: m in s && IsLeast(m, s)
    decreases |s|
  {
    var y :| y in s;
    if s - {y} == {} {
      forall x | x in s
        ensures x == y
      {
        assert x !in s - {y};
      }
      assert IsLeast(y, s);
    } else {
      HasLeast(s - {y});
      var m :| m in s - {y} && IsLeast(m, s - {y});
      if StrLess(m, y) {
        assert IsLeast(m, s);
      } else {
        StrLessTotal(m, y);
        forall x | x in s
          ensures x == y || StrLess(y, x)
        {
          if x != y && x != m {
            StrLessTransitive(y, m, x);
          }
        }
        assert IsLeast(y, s);
      }
    }
  }

  lemma LeastIsUnique(s: set<string>)
    ensures forall m, n :: m in s && IsLeast(m, s) && n in s && IsLeast(n, s) ==> m == n
  {
    forall m, n | m in s && IsLeast(m, s) && n in s && IsLeast(n, s)
      ensures m == n
    {
      if m != n {
        StrLessTransitive(m, n, m);
        StrLessIrreflexive(m);
      }
    }
  }

  predicate StrictlyAscending(r: seq<string>) {
    forall i, j :: 0 <= i < j < |r| ==> StrLess(r[i], r[j])
  }

  /** The least name followed by the others in ascending order is in
      ascending order. */
  lemma LeastFirst(names: set<string>, m: string, t: seq<string>)
    requires m in names && IsLeast(m, names)
    requires StrictlyAscending(t) && forall x :: x in t <==> x in names - {m}
    ensures StrictlyAscending([m] + t)
  {
    forall i, j | 0 <= i < j < |[m] + t|
      ensures StrLess(([m] + t)[i], ([m] + t)[j])
    {
      if i == 0 {
        assert ([m] + t)[j] == t[j - 1] && t[j - 1] in names - {m};
      } else {
        assert ([m] + t)[i] == t[i - 1] && ([m] + t)[j] == t[j - 1];
      }
    }
  }

  /** `Array.from(names).sort()` / `Object.keys(...).sort()`: every name once, in
      ascending order. */
  function SortedNames(names: set<string>): (r: seq<string>)
    ensures StrictlyAscending(r)
    ensures forall x :: x in r <==> x in names
    ensures |r| == |names|
    decreases |names|
  {
    if names == {} then []
    else
      HasLeast(names);
      LeastIsUnique(names);
      var m :| m in names && IsLeast(m, names);
      var t := SortedNames(names - {m});
      LeastFirst(names, m, t);
      [m] + t
  }

  /** Index of the element a stable sort by descending `time` puts first: the
      earliest of the elements with the greatest time. */
  function LatestIndex<T>(s: seq<T>, time: T -> int): (i: nat)
    requires |s| > 0
    ensures i < |s|
    ensures forall j :: 0 <= j < |s| ==> time(s[j]) <= time(s[i])
    ensures forall j :: 0 <= j < i ==> time(s[j]) < time(s[i])
    decreases |s|
  {
    if |s| == 1 then 0
    else
      var k := LatestIndex(s[1..], time);
      if time(s[1..][k]) > time(s[0]) then k + 1 else 0
  }

  predicate AscendingBy<T>(s: seq<T>, time: T -> int) {
    forall i, j :: 0 <= i < j < |s| ==> time(s[i]) <= time(s[j])
  }

  /** An element no later than the head of a sorted sequence can go first. */
  lemma FrontAscending<T>(x: T, s: seq<T>, time: T -> int)
    requires AscendingBy(s, time) && (s == [] || time(x) <= time(s[0]))
    ensures AscendingBy([x] + s, time)
  {
    forall i, j | 0 <= i < j < |[x] + s|
      ensures time(([x] + s)[i]) <= time(([x] + s)[j])
    {
      if i == 0 {
        assert ([x] + s)[j] == s[j - 1];
      } else {
        assert ([x] + s)[i] == s[i - 1] && ([x] + s)[j] == s[j - 1];
      }
    }
  }

  /** Whatever is made of a sorted sequence's tail and a later element starts
      no earlier than its head. */
  lemma NoEarlierThanHead<T>(s: seq<T>, x: T, t: seq<T>, time: T -> int)
    requires s != [] && AscendingBy(s, time) && time(s[0]) < time(x)
    requires multiset(t) == multiset(s[1..]) + multiset{x}
    ensures t == [] || time(s[0]) <= time(t[0])
  {
    if t != [] {
      assert t[0] in multiset(t);
      if t[0] != x {
        assert t[0] in s[1..];
      }
    }
  }

  /** Inserts `x` before the first element that is not earlier than it. */
  function InsertBy<T>(x: T, s: seq<T>, time: T -> int): (r: seq<T>)
    requires AscendingBy(s, time)
    ensures AscendingBy(r, time)
    ensures multiset(r) == multiset(s) + multiset{x}
    decreases |s|
  {
    if s == [] || time(x) <= time(s[0]) then
      FrontAscending(x, s, time);
      [x] + s
    else
      var t := InsertBy(x, s[1..], time);
      assert s == [s[0]] + s[1..];
      NoEarlierThanHead(s, x, t, time);
      FrontAscending(s[0], t, time);
      [s[0]] + t
  }

  /** The array `sort` by ascending `time`: the same elements, in time order. */
  function SortBy<T>(s: seq<T>, time: T -> int): (r: seq<T>)
    ensures AscendingBy(r, time)
    ensures multiset(r) == multiset(s)
    decreases |s|
  {
    if s == [] then []
    else
      assert s == [s[0]] + s[1..];
      InsertBy(s[0], SortBy(s[1..], time), time)
  }
}
