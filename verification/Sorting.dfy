// Go's sort.SliceStable and sort.Slice, for an order given by two integer keys.
module Sorting {

  function Before<T>(first: T -> int, second: T -> int, a: T, b: T): bool {
    first(a) < first(b) || (first(a) == first(b) && second(a) < second(b))
  }

  // x goes behind everything that is not after it.
  function InsertBy<T>(first: T -> int, second: T -> int, x: T, s: seq<T>): seq<T> {
    if s == [] then [x]
    else if Before(first, second, x, s[0]) then [x] + s
    else [s[0]] + InsertBy(first, second, x, s[1..])
  }

  function SortBy<T>(first: T -> int, second: T -> int, s: seq<T>): seq<T> {
    if s == [] then [] else InsertBy(first, second, s[|s| - 1], SortBy(first, second, s[..|s| - 1]))
  }

  ghost predicate Ordered<T>(first: T -> int, second: T -> int, s: seq<T>) {
    forall i, j :: 0 <= i < j < |s| ==> !Before(first, second, s[j], s[i])
  }

  // No two elements have the same pair of keys.
  ghost predicate Distinct<T>(first: T -> int, second: T -> int, s: seq<T>) {
    forall i, j :: 0 <= i < j < |s| ==> first(s[i]) != first(s[j]) || second(s[i]) != second(s[j])
  }

  lemma {:induction false} InsertByMultiset<T>(first: T -> int, second: T -> int, x: T, s: seq<T>)
    ensures multiset(InsertBy(first, second, x, s)) == multiset(s) + multiset{x}
  {
    if s != [] {
      assert s == [s[0]] + s[1..];
      InsertByMultiset(first, second, x, s[1..]);
    }
  }

  lemma {:induction false} InsertByOrdered<T>(first: T -> int, second: T -> int, x: T, s: seq<T>)
    requires Ordered(first, second, s)
    ensures Ordered(first, second, InsertBy(first, second, x, s))
  {
    if s != [] && !Before(first, second, x, s[0]) {
      var rest := InsertBy(first, second, x, s[1..]);
      InsertByOrdered(first, second, x, s[1..]);
      InsertByMultiset(first, second, x, s[1..]);
      forall j | 0 <= j < |rest| ensures !Before(first, second, rest[j], s[0]) {
        assert rest[j] in multiset(rest);
        if rest[j] != x {
          assert rest[j] in s[1..];
        }
      }
    }
  }

  // Sorting rearranges, and orders.
  lemma {:induction false} SortBySorts<T>(first: T -> int, second: T -> int, s: seq<T>)
    ensures multiset(SortBy(first, second, s)) == multiset(s)
    ensures Ordered(first, second, SortBy(first, second, s))
  {
    if s != [] {
      var front, last := s[..|s| - 1], s[|s| - 1];
      assert s == front + [last];
      SortBySorts(first, second, front);
      InsertByMultiset(first, second, last, SortBy(first, second, front));
      InsertByOrdered(first, second, last, SortBy(first, second, front));
    }
  }

  lemma TailMultiset<T>(s: seq<T>)
    requires s != []
    ensures multiset(s[1..]) == multiset(s) - multiset{s[0]}
  {
    assert s == [s[0]] + s[1..];
  }

  lemma SameHead<T>(first: T -> int, second: T -> int, a: seq<T>, b: seq<T>)
    requires Ordered(first, second, a) && Ordered(first, second, b) && Distinct(first, second, a)
    requires multiset(a) == multiset(b) && a != []
    ensures b != [] && a[0] == b[0]
  {
    assert a[0] in multiset(b);
    var i :| 0 <= i < |b| && b[i] == a[0];
    assert b[0] in multiset(a);
    var j :| 0 <= j < |a| && a[j] == b[0];
  }

  lemma SameTails<T>(first: T -> int, second: T -> int, a: seq<T>, b: seq<T>)
    requires Ordered(first, second, a) && Ordered(first, second, b) && Distinct(first, second, a)
    requires multiset(a) == multiset(b) && a != []
    ensures b != [] && a[0] == b[0] && multiset(a[1..]) == multiset(b[1..])
    ensures Ordered(first, second, a[1..]) && Ordered(first, second, b[1..]) && Distinct(first, second, a[1..])
  {
    SameHead(first, second, a, b);
    TailMultiset(a);
    TailMultiset(b);
  }

  lemma SameParts<T>(a: seq<T>, b: seq<T>)
    requires a != [] && b != [] && a[0] == b[0] && a[1..] == b[1..]
    ensures a == b
  {
    assert a == [a[0]] + a[1..] && b == [b[0]] + b[1..];
  }

  // With distinct keys there is one way to order a multiset.
  lemma {:induction false} SortByUnique<T>(first: T -> int, second: T -> int, a: seq<T>, b: seq<T>)
    requires Ordered(first, second, a) && Ordered(first, second, b) && Distinct(first, second, a)
    requires multiset(a) == multiset(b)
    ensures a == b
  {
    if a == [] {
      assert |multiset(b)| == 0;
    } else {
      SameTails(first, second, a, b);
      SortByUnique(first, second, a[1..], b[1..]);
      SameParts(a, b);
    }
  }
}
