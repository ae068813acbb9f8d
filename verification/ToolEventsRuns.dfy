// Whole streams of tool events.
module ToolEventsRuns {
  import opened Prelude
  import opened ToolEvents
  import opened Numbers

  datatype Timed = Timed(event: Event, now: int)

  function Run(names: Names, run: seq<Timed>): Tools {
    if run == [] then NO_TOOLS
    else Handled(names, Run(names, run[..|run| - 1]), run[|run| - 1].event, run[|run| - 1].now)
  }

  // ----- the order lists exactly the pending calls -----

  ghost predicate Exact(t: Tools) {
    NoDup(t.order) && forall id :: id in t.order <==> id in t.calls
  }

  // The start of a call that is pending already.
  ghost predicate Reuses(names: Names, t: Tools, e: Event) {
    e.Start? && StartId(names, t, e.id) in t.calls
  }

  lemma StartKeepsExactIff(names: Names, t: Tools, e: Event, now: int)
    requires e.Start? && Exact(t)
    ensures Exact(Started(names, t, e, now)) <==> !Reuses(names, t, e)
  {
    AppendNoDup(t.order, StartId(names, t, e.id));
  }

  lemma EndKeepsExact(names: Names, t: Tools, e: Event, now: int)
    requires e.End? && Exact(t)
    ensures Exact(Ended(names, t, e, now))
  {
    RemoveFirstMeans(t.order, EndId(names, t, e.id));
  }

  ghost predicate AlwaysExact(names: Names, run: seq<Timed>) {
    Exact(Run(names, run)) && (run != [] ==> AlwaysExact(names, run[..|run| - 1]))
  }

  ghost predicate NeverReuses(names: Names, run: seq<Timed>) {
    run != [] ==>
      NeverReuses(names, run[..|run| - 1]) && !Reuses(names, Run(names, run[..|run| - 1]), run[|run| - 1].event)
  }

  // The order lists the pending calls, each once, all along a stream exactly when no start
  // names a call that is pending.
  lemma {:induction false} OrderIsPendingIff(names: Names, run: seq<Timed>)
    ensures AlwaysExact(names, run) <==> NeverReuses(names, run)
  {
    if run != [] {
      var (front, last) := (run[..|run| - 1], run[|run| - 1]);
      OrderIsPendingIff(names, front);
      if AlwaysExact(names, front) {
        if last.event.Start? {
          StartKeepsExactIff(names, Run(names, front), last.event, last.now);
        } else {
          EndKeepsExact(names, Run(names, front), last.event, last.now);
        }
      }
    }
  }

  // For instance, a second start of call a leaves it in the order twice.
  lemma ReusedIdExample(names: Names)
    ensures var start := Timed(Start("a", "pulse_query", "", ""), 0);
      Run(names, [start, start]).order == ["a", "a"] && |Run(names, [start, start]).calls| == 1
  {
    var start := Timed(Start("a", "pulse_query", "", ""), 0);
    assert [start, start][..1] == [start] && [start][..0] == [];
    assert Run(names, [start]).order == ["a"];
    assert Run(names, [start, start]).calls.Keys == {"a"};
  }

  // An end without an identifier completes the call that has been pending longest.
  lemma UnnamedEndCompletesOldest(names: Names, t: Tools, e: Event, now: int)
    requires Exact(t) && e.End? && e.id == "" && t.order != []
    ensures var (next, oldest) := (Ended(names, t, e, now), t.order[0]);
      oldest in t.calls && next.calls == t.calls - {oldest} && next.order == t.order[1..] && next.anon == t.anon &&
      |next.completed| == |t.completed| + 1 && next.completed[..|t.completed|] == t.completed &&
      var done := next.completed[|t.completed|];
      done.id == t.calls[oldest].id && done.toolName == t.calls[oldest].toolName &&
      done.startTime == t.calls[oldest].startTime && done.endTime == now && done.success == e.success
  {
  }

  // ----- in the order of their starts -----

  // The identifiers of the starts, in order.
  function Starts(names: Names, run: seq<Timed>): seq<string> {
    if run == [] then []
    else
      var (front, e) := (run[..|run| - 1], run[|run| - 1].event);
      if e.Start? then Starts(names, front) + [StartId(names, Run(names, front), e.id)] else Starts(names, front)
  }

  function OnlyIn(s: seq<string>, ids: set<string>): seq<string> {
    if s == [] then []
    else OnlyIn(s[..|s| - 1], ids) + if s[|s| - 1] in ids then [s[|s| - 1]] else []
  }

  lemma {:induction false} OnlyInMore(s: seq<string>, ids: set<string>, id: string)
    requires id !in s
    ensures OnlyIn(s, ids + {id}) == OnlyIn(s, ids) && OnlyIn(s, ids - {id}) == OnlyIn(s, ids)
    ensures id !in OnlyIn(s, ids)
  {
    if s != [] {
      OnlyInMore(s[..|s| - 1], ids, id);
    }
  }

  lemma OnlyInAppend(s: seq<string>, ids: set<string>, id: string)
    requires id !in s
    ensures OnlyIn(s + [id], ids + {id}) == OnlyIn(s, ids) + [id]
  {
    assert (s + [id])[..|s|] == s;
    OnlyInMore(s, ids, id);
  }

  lemma {:induction false} RemoveFirstAppend(a: seq<string>, x: string, id: string)
    ensures RemoveFirst(a + [x], id) ==
      if id in a then RemoveFirst(a, id) + [x] else if x == id then a else a + [x]
  {
    if a != [] && a[0] != id {
      RemoveFirstAppend(a[1..], x, id);
      assert (a + [x])[1..] == a[1..] + [x];
      assert a == [a[0]] + a[1..];
    } else if a != [] {
      assert (a + [x])[1..] == a[1..] + [x];
    }
  }

  lemma {:induction false} NotRemoved(a: seq<string>, id: string)
    requires id !in a
    ensures RemoveFirst(a, id) == a
  {
    if a != [] {
      NotRemoved(a[1..], id);
    }
  }

  lemma {:induction false} OnlyInRemoves(s: seq<string>, ids: set<string>, id: string)
    requires NoDup(s)
    ensures RemoveFirst(OnlyIn(s, ids), id) == OnlyIn(s, ids - {id})
  {
    if s != [] {
      var (front, x) := (s[..|s| - 1], s[|s| - 1]);
      assert s == front + [x];
      AppendNoDup(front, x);
      OnlyInRemoves(front, ids, id);
      var kept := OnlyIn(front, ids);
      if x !in ids {
        assert OnlyIn(s, ids) == kept;
        assert OnlyIn(s, ids - {id}) == OnlyIn(front, ids - {id});
      } else if x == id {
        OnlyInMore(front, ids, x);
        RemoveFirstAppend(kept, x, id);
        assert OnlyIn(s, ids - {id}) == OnlyIn(front, ids - {id});
      } else {
        RemoveFirstAppend(kept, x, id);
        if id !in kept {
          NotRemoved(kept, id);
        }
        assert OnlyIn(s, ids - {id}) == OnlyIn(front, ids - {id}) + [x];
      }
    }
  }

  // With distinct identifiers the order is the starts that have not ended yet.
  lemma {:induction false} OrderIsStartOrder(names: Names, run: seq<Timed>)
    requires NoDup(Starts(names, run))
    ensures var t := Run(names, run);
      t.order == OnlyIn(Starts(names, run), t.calls.Keys) &&
      (forall id :: id in t.calls ==> id in Starts(names, run))
    ensures NeverReuses(names, run)
  {
    if run != [] {
      var (front, last) := (run[..|run| - 1], run[|run| - 1]);
      var (t, starts) := (Run(names, front), Starts(names, front));
      if last.event.Start? {
        var id := StartId(names, t, last.event.id);
        AppendNoDup(starts, id);
        OrderIsStartOrder(names, front);
        OnlyInAppend(starts, t.calls.Keys, id);
        assert Run(names, run).calls.Keys == t.calls.Keys + {id};
      } else {
        var id := EndId(names, t, last.event.id);
        OrderIsStartOrder(names, front);
        OnlyInRemoves(starts, t.calls.Keys, id);
        assert Run(names, run).calls.Keys == t.calls.Keys - {id};
      }
    }
  }

  // ----- one entry for each end -----

  function Ends(run: seq<Timed>): seq<Event>
    ensures forall k :: 0 <= k < |Ends(run)| ==> Ends(run)[k].End?
  {
    if run == [] then []
    else
      var rest := Ends(run[..|run| - 1]);
      if run[|run| - 1].event.End? then rest + [run[|run| - 1].event] else rest
  }

  // Entry k records the outcome of end k, and its output in full beside it.
  ghost predicate Recorded(t: Tools, ends: seq<Event>)
    requires forall k :: 0 <= k < |ends| ==> ends[k].End?
  {
    |t.completed| == |t.raw| == |ends| &&
    forall k :: 0 <= k < |ends| ==>
      t.raw[k] == ends[k].output && t.completed[k].success == ends[k].success &&
      t.completed[k].output == TruncateString(t.raw[k], MAX_TOOL_OUTPUT_SIZE) &&
      (ends[k].id != "" ==> t.completed[k].id == ends[k].id)
  }

  ghost predicate Labelled(t: Tools) {
    forall id :: id in t.calls ==> t.calls[id].id == id
  }

  lemma {:induction false} OneEntryPerEnd(names: Names, run: seq<Timed>)
    ensures Recorded(Run(names, run), Ends(run)) && Labelled(Run(names, run))
  {
    if run != [] {
      OneEntryPerEnd(names, run[..|run| - 1]);
    }
  }

  // The signal detection sees every output in full.
  lemma {:induction false} SignalsSeeRawOutputs(completed: seq<Call>, raw: seq<string>)
    requires |completed| <= |raw|
    requires forall k :: 0 <= k < |completed| ==> completed[k].output == TruncateString(raw[k], MAX_TOOL_OUTPUT_SIZE)
    ensures var signals := WithRawOutputs(completed, raw);
      |signals| == |completed| &&
      forall k :: 0 <= k < |completed| ==> signals[k] == completed[k].(output := raw[k])
  {
    if completed != [] {
      SignalsSeeRawOutputs(completed[..|completed| - 1], raw);
    }
  }

  // ----- conservation and time -----

  // The ends that completed a pending call.
  function Matched(names: Names, run: seq<Timed>): nat {
    if run == [] then 0
    else
      var (front, e) := (run[..|run| - 1], run[|run| - 1].event);
      var t := Run(names, front);
      Matched(names, front) + if e.End? && EndId(names, t, e.id) in t.calls then 1 else 0
  }

  lemma CallsChange(calls: map<string, Call>, id: string, c: Call)
    ensures id !in calls ==> |calls[id := c]| == |calls| + 1
    ensures |calls - {id}| == |calls| - if id in calls then 1 else 0
  {
    assert calls[id := c].Keys == calls.Keys + {id};
    assert (calls - {id}).Keys == calls.Keys - {id};
    assert |calls[id := c]| == |calls[id := c].Keys| && |calls| == |calls.Keys| && |calls - {id}| == |(calls - {id}).Keys|;
  }

  // Every started call is pending or was completed by one end.
  lemma {:induction false} NoCallIsLost(names: Names, run: seq<Timed>)
    requires NeverReuses(names, run)
    ensures |Starts(names, run)| == |Run(names, run).calls| + Matched(names, run)
  {
    if run != [] {
      var (front, last) := (run[..|run| - 1], run[|run| - 1]);
      var t := Run(names, front);
      NoCallIsLost(names, front);
      if last.event.Start? {
        var id := StartId(names, t, last.event.id);
        CallsChange(t.calls, id, Run(names, run).calls[id]);
      } else {
        CallsChange(t.calls, EndId(names, t, last.event.id), FallbackCall(last.event, 0, 0));
      }
    }
  }

  ghost predicate ClockRises(run: seq<Timed>) {
    forall i, j :: 0 <= i < j < |run| ==> run[i].now <= run[j].now
  }

  ghost predicate Timely(t: Tools, now: int) {
    (forall id :: id in t.calls ==> t.calls[id].startTime <= now) &&
    forall k :: 0 <= k < |t.completed| ==>
      t.completed[k].duration == t.completed[k].endTime - t.completed[k].startTime && t.completed[k].duration >= 0
  }

  // A duration is the time from start to end, never negative.
  lemma {:induction false} DurationsAreElapsed(names: Names, run: seq<Timed>, now: int)
    requires ClockRises(run) && (run != [] ==> run[|run| - 1].now <= now)
    ensures Timely(Run(names, run), now)
  {
    if run != [] {
      var (front, last) := (run[..|run| - 1], run[|run| - 1]);
      DurationsAreElapsed(names, front, last.now);
    }
  }

  // ----- when the identifiers are distinct -----

  // The identifiers the provider chose.
  function Chosen(run: seq<Timed>): seq<string> {
    if run == [] then []
    else
      var (rest, e) := (Chosen(run[..|run| - 1]), run[|run| - 1].event);
      if e.Start? && e.id != "" then rest + [e.id] else rest
  }

  ghost predicate Injective(names: Names) {
    forall m: nat, n: nat :: names.anon(m) == names.anon(n) ==> m == n
  }

  ghost predicate NoneMadeUp(names: Names, ids: seq<string>) {
    forall n: nat :: names.anon(n) !in ids
  }

  // Each start is one the provider chose or one made up with a number up to n.
  ghost predicate Accounted(names: Names, starts: seq<string>, chosen: seq<string>, n: nat) {
    forall id :: id in starts ==> id in chosen || exists k: nat :: k <= n && id == names.anon(k)
  }

  // Distinct identifiers from the provider, none that looks made up, keep all distinct.
  lemma {:induction false} DistinctWhenChosenDistinct(names: Names, run: seq<Timed>)
    requires Injective(names) && NoDup(Chosen(run)) && NoneMadeUp(names, Chosen(run))
    ensures NoDup(Starts(names, run))
    ensures Accounted(names, Starts(names, run), Chosen(run), Run(names, run).anon)
  {
    if run != [] {
      var (front, last) := (run[..|run| - 1], run[|run| - 1]);
      var (t, starts, chosen) := (Run(names, front), Starts(names, front), Chosen(front));
      if last.event.Start? && last.event.id != "" {
        AppendNoDup(chosen, last.event.id);
        NoneMadeUpFront(names, chosen, last.event.id);
        DistinctWhenChosenDistinct(names, front);
        ChosenIsNew(names, starts, chosen, t.anon, last.event.id);
      } else if last.event.Start? {
        DistinctWhenChosenDistinct(names, front);
        MadeUpIsNew(names, starts, chosen, t.anon);
      } else {
        DistinctWhenChosenDistinct(names, front);
      }
    }
  }

  lemma NoneMadeUpFront(names: Names, ids: seq<string>, id: string)
    requires NoneMadeUp(names, ids + [id])
    ensures NoneMadeUp(names, ids) && forall n: nat :: names.anon(n) != id
  {
    forall n: nat ensures names.anon(n) !in ids && names.anon(n) != id {
      assert names.anon(n) !in ids + [id];
    }
  }

  lemma ChosenIsNew(names: Names, starts: seq<string>, chosen: seq<string>, n: nat, id: string)
    requires NoDup(starts) && Accounted(names, starts, chosen, n)
    requires id !in chosen && forall k: nat :: names.anon(k) != id
    ensures NoDup(starts + [id]) && Accounted(names, starts + [id], chosen + [id], n)
  {
    AppendNoDup(starts, id);
    forall x | x in starts + [id] ensures x in chosen + [id] || exists k: nat :: k <= n && x == names.anon(k) {
      if x != id {
        assert x in starts;
      }
    }
  }

  lemma MadeUpIsNew(names: Names, starts: seq<string>, chosen: seq<string>, n: nat)
    requires NoDup(starts) && Accounted(names, starts, chosen, n) && Injective(names) && NoneMadeUp(names, chosen)
    ensures NoDup(starts + [names.anon(n + 1)]) && Accounted(names, starts + [names.anon(n + 1)], chosen, n + 1)
  {
    var id := names.anon(n + 1);
    AppendNoDup(starts, id);
    forall x | x in starts + [id] ensures x in chosen || exists k: nat :: k <= n + 1 && x == names.anon(k) {
      if x != id {
        assert x in starts;
      }
    }
  }

  function AnonStart(n: nat): string {
    "patrol-anon-" + Itoa(n)
  }

  function AnonEnd(n: nat): string {
    "patrol-anon-end-" + Itoa(n)
  }

  const PATROL_NAMES := Names(AnonStart, AnonEnd)

  lemma PatrolNamesInjective()
    ensures Injective(PATROL_NAMES)
  {
    forall m: nat, n: nat | AnonStart(m) == AnonStart(n) ensures m == n {
      SamePrefix("patrol-anon-", Itoa(m), Itoa(n));
      ItoaInjective(m, n);
    }
  }

  lemma SamePrefix(p: string, a: string, b: string)
    requires p + a == p + b
    ensures a == b
  {
    assert (p + a)[|p|..] == a && (p + b)[|p|..] == b;
  }
}
