// Left alone, the scheduler sorts: once nothing more is submitted and the ticks are far
// enough apart for the rate limits, the queue comes out in descending priority, and
// entries of equal priority in the order they were queued.
module PatrolDrain {
  import opened Prelude
  import opened PatrolTriggers

  function WithPriority(q: seq<PatrolScope>, priority: int): seq<PatrolScope> {
    if q == [] then []
    else
      var rest := WithPriority(q[1..], priority);
      if q[0].priority == priority then [q[0]] + rest else rest
  }

  ghost predicate Descending(q: seq<PatrolScope>) {
    forall i, j :: 0 <= i < j < |q| ==> q[i].priority >= q[j].priority
  }

  // The entries of q, highest priority first, ties in queue order.
  ghost predicate StableSortOf(sorted: seq<PatrolScope>, q: seq<PatrolScope>) {
    Descending(sorted) && forall p :: WithPriority(sorted, p) == WithPriority(q, p)
  }

  lemma {:induction false} WithPriorityConcat(a: seq<PatrolScope>, b: seq<PatrolScope>, p: int)
    ensures WithPriority(a + b, p) == WithPriority(a, p) + WithPriority(b, p)
  {
    if a == [] {
      assert a + b == b;
    } else {
      assert (a + b)[1..] == a[1..] + b;
      WithPriorityConcat(a[1..], b, p);
    }
  }

  lemma {:induction false} NoneWithPriority(q: seq<PatrolScope>, p: int)
    ensures WithPriority(q, p) == [] <==> forall i :: 0 <= i < |q| ==> q[i].priority != p
  {
    if q != [] {
      NoneWithPriority(q[1..], p);
      assert forall i :: 1 <= i < |q| ==> q[i] == q[1..][i - 1];
    }
  }

  lemma HeadShows(q: seq<PatrolScope>)
    requires q != []
    ensures WithPriority(q, q[0].priority) != []
  {
  }

  // The stable sort is unique.
  lemma {:induction false} StableSortUnique(a: seq<PatrolScope>, b: seq<PatrolScope>)
    requires Descending(a) && Descending(b)
    requires forall p :: WithPriority(a, p) == WithPriority(b, p)
    ensures a == b
  {
    if a == [] {
      if b != [] { HeadShows(b); }
    } else if b == [] {
      HeadShows(a);
    } else {
      NoneWithPriority(a, b[0].priority); NoneWithPriority(b, b[0].priority);
      NoneWithPriority(a, a[0].priority); NoneWithPriority(b, a[0].priority);
      assert a[0].priority == b[0].priority;
      assert WithPriority(a, a[0].priority)[0] == a[0] && WithPriority(b, a[0].priority)[0] == b[0];
      forall p ensures WithPriority(a[1..], p) == WithPriority(b[1..], p) {
        assert WithPriority(a, p) == WithPriority(b, p);
        if p == a[0].priority {
          assert WithPriority(a, p)[1..] == WithPriority(a[1..], p);
          assert WithPriority(b, p)[1..] == WithPriority(b[1..], p);
        }
      }
      StableSortUnique(a[1..], b[1..]);
      assert a == [a[0]] + a[1..] && b == [b[0]] + b[1..];
    }
  }

  ghost predicate IsFirstMax(q: seq<PatrolScope>, i: int) {
    0 <= i < |q| &&
    (forall j :: 0 <= j < |q| ==> q[j].priority <= q[i].priority) &&
    (forall j :: 0 <= j < i ==> q[j].priority < q[i].priority)
  }

  lemma TakeFirstMax(q: seq<PatrolScope>, i: nat, p: int)
    requires IsFirstMax(q, i)
    ensures WithPriority(q, p) == (if p == q[i].priority then [q[i]] else []) + WithPriority(RemoveAt(q, i), p)
  {
    assert q == q[..i] + ([q[i]] + q[i + 1..]);
    WithPriorityConcat(q[..i], [q[i]] + q[i + 1..], p);
    WithPriorityConcat([q[i]], q[i + 1..], p);
    WithPriorityConcat(q[..i], q[i + 1..], p);
    NoneWithPriority(q[..i], p);
  }

  lemma SortStep(q: seq<PatrolScope>, i: nat, sorted: seq<PatrolScope>)
    requires IsFirstMax(q, i) && StableSortOf(sorted, RemoveAt(q, i))
    ensures StableSortOf([q[i]] + sorted, q)
  {
    var rest := RemoveAt(q, i);
    forall k | 0 <= k < |sorted| ensures sorted[k].priority <= q[i].priority {
      var p := sorted[k].priority;
      NoneWithPriority(sorted, p);
      NoneWithPriority(rest, p);
      assert WithPriority(sorted, p) == WithPriority(rest, p);
      var j :| 0 <= j < |rest| && rest[j].priority == p;
      assert rest[j] == q[if j < i then j else j + 1];
    }
    forall p ensures WithPriority([q[i]] + sorted, p) == WithPriority(q, p) {
      TakeFirstMax(q, i, p);
      WithPriorityConcat([q[i]], sorted, p);
    }
  }

  // ----- ticks with no submissions in between -----

  ghost function Ticks(s: State, times: seq<Time>): (State, seq<PatrolScope>)
    decreases |times|
  {
    if times == [] then (s, [])
    else
      var (t, d) := Tick(s, times[0]);
      var (u, rest) := Ticks(t, times[1..]);
      (u, (if d.Some? then [d.value] else []) + rest)
  }

  ghost predicate Spaced(times: seq<Time>, gap: int) {
    forall k :: 0 <= k < |times| - 1 ==> times[k + 1] - times[k] >= gap
  }

  // A callback is set, every entry may run, and at the given time no limit is in force.
  ghost predicate ReadyAt(s: State, now: Time) {
    s.cfg.Valid() && s.hasCallback &&
    (s.lastGlobal.Some? ==> now - s.lastGlobal.value >= 2 * MINUTE) &&
    (forall rid :: rid in s.lastByResource ==> now - s.lastByResource[rid] >= s.cfg.minResourceInterval) &&
    (forall i :: 0 <= i < |s.pending| ==>
      s.pending[i].priority >= 0 && (s.pending[i].retryAfter.Some? ==> now >= s.pending[i].retryAfter.value))
  }

  lemma ReadyTickTakesFirstMax(s: State, now: Time)
    requires ReadyAt(s, now) && s.pending != []
    ensures var c := Choice(s, now);
      IsFirstMax(s.pending, c) && Tick(s, now).1 == Some(s.pending[c]) && Tick(s, now).0.pending == RemoveAt(s.pending, c)
  {
    ChoiceMeans(s, now);
    assert forall i :: 0 <= i < |s.pending| ==> Eligible(s, now, s.pending[i]);
    assert Eligible(s, now, s.pending[0]);
  }

  lemma StaysReady(s: State, now: Time, next: Time)
    requires ReadyAt(s, now)
    requires next - now >= 2 * MINUTE && next - now >= s.cfg.minResourceInterval
    ensures ReadyAt(Tick(s, now).0, next) && Tick(s, now).0.cfg == s.cfg
  {
    var (t, d) := Tick(s, now);
    if d.Some? {
      forall rid | rid in t.lastByResource ensures next - t.lastByResource[rid] >= s.cfg.minResourceInterval {
        StampedMeans(s.lastByResource, d.value.resourceIDs, now, rid);
      }
      var c := Choice(s, now);
      assert forall i :: 0 <= i < |t.pending| ==> t.pending[i] == s.pending[if i < c then i else i + 1];
    }
  }

  lemma EmptyTick(s: State, now: Time)
    requires s.pending == []
    ensures Tick(s, now) == (s, None)
  {
  }

  lemma SpacedTail(times: seq<Time>, gap: int)
    requires Spaced(times, gap) && times != []
    ensures Spaced(times[1..], gap)
  {
  }

  lemma {:induction false} DrainIsStableSort(s: State, times: seq<Time>)
    requires times != [] ==> ReadyAt(s, times[0])
    requires Spaced(times, 2 * MINUTE) && Spaced(times, s.cfg.minResourceInterval)
    requires |times| >= |s.pending|
    ensures Ticks(s, times).0.pending == []
    ensures StableSortOf(Ticks(s, times).1, s.pending)
    decreases |times|
  {
    if times != [] {
      var t := Tick(s, times[0]).0;
      SpacedTail(times, 2 * MINUTE);
      SpacedTail(times, s.cfg.minResourceInterval);
      if |times| > 1 {
        assert times[1] - times[0] >= 2 * MINUTE && times[1] - times[0] >= s.cfg.minResourceInterval;
        StaysReady(s, times[0], times[1]);
      }
      if s.pending == [] {
        EmptyTick(s, times[0]);
        DrainIsStableSort(t, times[1..]);
        assert [] + Ticks(t, times[1..]).1 == Ticks(t, times[1..]).1;
      } else {
        ReadyTickTakesFirstMax(s, times[0]);
        assert t.cfg == s.cfg;
        DrainIsStableSort(t, times[1..]);
        SortStep(s.pending, Choice(s, times[0]), Ticks(t, times[1..]).1);
      }
    }
  }
}
