// Values shared by every module: Option, and the few sequence operations the
// Go code performs with append and re-slicing.
module Prelude {

  datatype Option<+T> = None | Some(value: T)

  type Time = int // nanoseconds

  const SECOND: int := 1_000_000_000
  const MINUTE: int := 60 * SECOND
  const DAY: int := 24 * 60 * MINUTE

  function Min(a: int, b: int): int { if a < b then a else b }

  function Max(a: int, b: int): int { if a > b then a else b }

  // append(s[:i], s[i+1:]...)
  function RemoveAt<T>(s: seq<T>, i: nat): (r: seq<T>)
    requires i < |s|
    ensures |r| == |s| - 1
  {
    s[..i] + s[i + 1..]
  }

  lemma RemoveBeforeLast<T>(s: seq<T>, i: nat)
    requires i < |s|
    ensures RemoveAt(s, i) ==
      if i == |s| - 1 then s[..|s| - 1] else RemoveAt(s[..|s| - 1], i) + [s[|s| - 1]]
  {
  }

  lemma RemoveAtMultiset<T>(s: seq<T>, i: nat)
    requires i < |s|
    ensures multiset(s) == multiset(RemoveAt(s, i)) + multiset{s[i]}
  {
    assert s == s[..i] + [s[i]] + s[i + 1..];
  }

  // ----- adding up a list -----

  function Sum<T>(f: T -> int, s: seq<T>): int {
    if s == [] then 0 else Sum(f, s[..|s| - 1]) + f(s[|s| - 1])
  }

  lemma SumAppend<T>(f: T -> int, s: seq<T>, x: T)
    ensures Sum(f, s + [x]) == Sum(f, s) + f(x)
  {
    assert (s + [x])[..|s|] == s;
  }

  lemma {:induction false} SumRemove<T>(f: T -> int, s: seq<T>, i: nat)
    requires i < |s|
    ensures Sum(f, s) == Sum(f, RemoveAt(s, i)) + f(s[i])
  {
    var n := |s| - 1;
    RemoveBeforeLast(s, i);
    if i < n {
      SumRemove(f, s[..n], i);
      SumAppend(f, RemoveAt(s[..n], i), s[n]);
    }
  }

  lemma {:induction false} SumUpdate<T>(f: T -> int, s: seq<T>, i: nat, x: T)
    requires i < |s| && f(x) == f(s[i])
    ensures Sum(f, s[i := x]) == Sum(f, s)
  {
    var n := |s| - 1;
    if i == n {
      assert s[i := x][..n] == s[..n];
    } else {
      SumUpdate(f, s[..n], i, x);
      assert s[i := x][..n] == s[..n][i := x];
    }
  }

  // The images of a list's elements, each as often as it occurs.
  function Images<T>(f: T -> T, s: seq<T>): multiset<T> {
    if s == [] then multiset{} else Images(f, s[..|s| - 1]) + multiset{f(s[|s| - 1])}
  }

  lemma ImagesAppend<T>(f: T -> T, s: seq<T>, x: T)
    ensures Images(f, s + [x]) == Images(f, s) + multiset{f(x)}
  {
    assert (s + [x])[..|s|] == s;
  }

  lemma ImagesLast<T>(f: T -> T, s: seq<T>, front: seq<T>, last: T)
    requires s == front + [last]
    ensures Images(f, s) == Images(f, front) + multiset{f(last)}
  {
    ImagesAppend(f, front, last);
  }

  lemma SwapAdded<T>(m: multiset<T>, x: T, y: T)
    ensures m + multiset{x} + multiset{y} == m + multiset{y} + multiset{x}
  {
  }

  lemma {:induction false} ImagesRemove<T>(f: T -> T, s: seq<T>, i: nat)
    requires i < |s|
    ensures Images(f, s) == Images(f, RemoveAt(s, i)) + multiset{f(s[i])}
  {
    var n := |s| - 1;
    RemoveBeforeLast(s, i);
    ImagesLast(f, s, s[..n], s[n]);
    if i < n {
      var front := RemoveAt(s[..n], i);
      ImagesRemove(f, s[..n], i);
      ImagesLast(f, RemoveAt(s, i), front, s[n]);
      SwapAdded(Images(f, front), f(s[i]), f(s[n]));
    }
  }

  lemma {:induction false} ImagesUpdate<T>(f: T -> T, s: seq<T>, i: nat, x: T)
    requires i < |s| && f(x) == f(s[i])
    ensures Images(f, s[i := x]) == Images(f, s)
  {
    var n := |s| - 1;
    if i == n {
      assert s[i := x][..n] == s[..n];
    } else {
      ImagesUpdate(f, s[..n], i, x);
      assert s[i := x][..n] == s[..n][i := x];
    }
  }

  lemma {:induction false} ImagesSize<T>(f: T -> T, s: seq<T>)
    ensures |Images(f, s)| == |s|
  {
    if s != [] { ImagesSize(f, s[..|s| - 1]); }
  }

  ghost predicate NoDup<T>(s: seq<T>) {
    forall i, j :: 0 <= i < j < |s| ==> s[i] != s[j]
  }

  lemma AppendNoDup<T>(s: seq<T>, x: T)
    ensures NoDup(s + [x]) <==> NoDup(s) && x !in s
  {
    var t := s + [x];
    assert t[|s|] == x && forall i :: 0 <= i < |s| ==> t[i] == s[i];
    if NoDup(t) {
      assert forall i :: 0 <= i < |s| ==> t[i] != t[|s|];
    }
  }

  lemma PrependNoDup<T>(x: T, s: seq<T>)
    requires NoDup(s) && x !in s
    ensures NoDup([x] + s)
  {
  }

  // The loop that looks for x and removes it where it first stands.
  function RemoveFirst<T(==)>(s: seq<T>, x: T): seq<T> {
    if s == [] then []
    else if s[0] == x then s[1..]
    else [s[0]] + RemoveFirst(s[1..], x)
  }

  lemma {:induction false} RemovedAt<T>(s: seq<T>, x: T, i: nat)
    requires i <= |s| && forall k :: 0 <= k < i ==> s[k] != x
    ensures i == |s| ==> RemoveFirst(s, x) == s
    ensures i < |s| && s[i] == x ==> RemoveFirst(s, x) == RemoveAt(s, i)
  {
    if i > 0 {
      RemovedAt(s[1..], x, i - 1);
      assert s == [s[0]] + s[1..];
    }
  }

  lemma {:induction false} RemoveFirstMeans<T>(s: seq<T>, x: T)
    requires NoDup(s)
    ensures NoDup(RemoveFirst(s, x))
    ensures forall y :: y in RemoveFirst(s, x) <==> y in s && y != x
  {
    if s != [] && s[0] != x {
      RemoveFirstMeans(s[1..], x);
      assert s == [s[0]] + s[1..];
      PrependNoDup(s[0], RemoveFirst(s[1..], x));
    }
  }
}
