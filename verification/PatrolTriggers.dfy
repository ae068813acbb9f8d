// The event-driven patrol scheduler of internal/ai/patrol_triggers.go: a bounded
// priority queue of patrol scopes with duplicate merging, lowest-priority eviction, a
// global and a per-resource rate limit, and an adaptive interval driven by a sliding
// window of recent events.
//
// The first half says what each step means, without saying how it is computed; the
// class in the second half is the code, proved against it.
module PatrolTriggers {
  import opened Prelude
  import StringOrder

  datatype PatrolDepth = Quick | Normal

  datatype PatrolScope = PatrolScope(
    resourceIDs: seq<string>,
    resourceTypes: seq<string>,
    depth: PatrolDepth,
    reason: string,
    context: string,
    priority: int,
    alertID: string,
    findingID: string,
    noStream: bool,
    retryCount: int,
    retryAfter: Option<Time>)

  datatype Config = Config(
    minResourceInterval: int,
    minGlobalInterval: int,
    maxPendingTriggers: int,
    baseInterval: int,
    busyThreshold: int,
    eventWindow: int)
  {
    predicate Valid() {
      minResourceInterval > 0 && minGlobalInterval > 0 && maxPendingTriggers > 0 &&
      baseInterval > 0 && busyThreshold > 0 && eventWindow > 0
    }
  }

  function Default(value: int, otherwise: int): int {
    if value <= 0 then otherwise else value
  }

  // NewTriggerManager replaces every non-positive setting.
  function WithDefaults(cfg: Config): (c: Config)
    ensures c.Valid()
    ensures cfg.Valid() ==> c == cfg
  {
    Config(Default(cfg.minResourceInterval, 2 * MINUTE),
           Default(cfg.minGlobalInterval, 30 * SECOND),
           Default(cfg.maxPendingTriggers, 10),
           Default(cfg.baseInterval, 15 * MINUTE),
           Default(cfg.busyThreshold, 5),
           Default(cfg.eventWindow, 5 * MINUTE))
  }

  // The lock-protected fields of TriggerManager.
  datatype State = State(
    cfg: Config,
    pending: seq<PatrolScope>,
    lastByResource: map<string, Time>,
    lastGlobal: Option<Time>,
    recent: seq<Time>,
    current: int,
    hasCallback: bool)

  function InitialState(cfg: Config): State {
    var c := WithDefaults(cfg);
    State(c, [], map[], None, [], c.baseInterval, false)
  }

  // ----- what the queue decisions mean -----

  // Same reason, and the same resources with the same multiplicities in any order.
  predicate Duplicate(a: PatrolScope, b: PatrolScope) {
    a.reason == b.reason && multiset(a.resourceIDs) == multiset(b.resourceIDs)
  }

  // i is the earliest entry of least priority, and strictly below the given priority.
  ghost predicate IsVictim(q: seq<PatrolScope>, priority: int, i: int) {
    0 <= i < |q| && q[i].priority < priority &&
    (forall j :: 0 <= j < |q| ==> q[i].priority <= q[j].priority) &&
    (forall j :: 0 <= j < i ==> q[i].priority < q[j].priority)
  }

  // The entry a full queue gives up for a newcomer of this priority, or -1.
  function Victim(q: seq<PatrolScope>, priority: int): (v: int)
    ensures -1 <= v < |q|
  {
    if q == [] then -1
    else
      var n := |q| - 1;
      var v := Victim(q[..n], priority);
      if q[n].priority < (if v < 0 then priority else q[v].priority) then n else v
  }

  lemma {:induction false} VictimMeans(q: seq<PatrolScope>, priority: int)
    ensures var v := Victim(q, priority);
      if v < 0 then forall j :: 0 <= j < |q| ==> q[j].priority >= priority else IsVictim(q, priority, v)
  {
    if q != [] {
      var front := q[..|q| - 1];
      VictimMeans(front, priority);
      assert forall j :: 0 <= j < |front| ==> front[j] == q[j];
    }
  }

  ghost predicate IsFirstDuplicate(q: seq<PatrolScope>, scope: PatrolScope, i: int) {
    0 <= i < |q| && Duplicate(q[i], scope) && forall j :: 0 <= j < i ==> !Duplicate(q[j], scope)
  }

  function FirstDuplicate(q: seq<PatrolScope>, scope: PatrolScope): (d: int)
    ensures -1 <= d < |q|
  {
    if q == [] then -1
    else
      var d := FirstDuplicate(q[..|q| - 1], scope);
      if d < 0 && Duplicate(q[|q| - 1], scope) then |q| - 1 else d
  }

  lemma {:induction false} FirstDuplicateMeans(q: seq<PatrolScope>, scope: PatrolScope)
    ensures var d := FirstDuplicate(q, scope);
      if d < 0 then forall j :: 0 <= j < |q| ==> !Duplicate(q[j], scope) else IsFirstDuplicate(q, scope, d)
  {
    if q != [] {
      var front := q[..|q| - 1];
      FirstDuplicateMeans(front, scope);
      assert forall j :: 0 <= j < |front| ==> front[j] == q[j];
    }
  }

  // The entry's own backoff has passed, and none of its resources ran too recently.
  predicate Eligible(s: State, now: Time, t: PatrolScope) {
    (t.retryAfter.Some? ==> now >= t.retryAfter.value) &&
    (forall rid :: rid in t.resourceIDs && rid in s.lastByResource ==>
      now - s.lastByResource[rid] >= s.cfg.minResourceInterval)
  }

  // i is the earliest queued entry of greatest priority among the eligible ones.
  // (Priorities below zero are never dispatched: the search starts from -1.)
  ghost predicate IsChoice(s: State, now: Time, i: int) {
    IsBestOf(s, now, |s.pending|, i)
  }

  // The same among the first n entries only.
  ghost predicate IsBestOf(s: State, now: Time, n: nat, i: int)
    requires n <= |s.pending|
  {
    0 <= i < n && Eligible(s, now, s.pending[i]) && s.pending[i].priority > -1 &&
    (forall j :: 0 <= j < n && Eligible(s, now, s.pending[j]) ==> s.pending[j].priority <= s.pending[i].priority) &&
    (forall j :: 0 <= j < i && Eligible(s, now, s.pending[j]) ==> s.pending[j].priority < s.pending[i].priority)
  }

  ghost predicate NothingToRun(s: State, now: Time, n: nat)
    requires n <= |s.pending|
  {
    forall j :: 0 <= j < n && Eligible(s, now, s.pending[j]) ==> s.pending[j].priority <= -1
  }

  // The best of the first n queued entries, or -1.
  function BestOf(s: State, now: Time, n: nat): (c: int)
    requires n <= |s.pending|
    ensures -1 <= c < n
  {
    if n == 0 then -1
    else
      var c := BestOf(s, now, n - 1);
      if Eligible(s, now, s.pending[n - 1]) && s.pending[n - 1].priority > (if c < 0 then -1 else s.pending[c].priority)
      then n - 1 else c
  }

  function Choice(s: State, now: Time): (c: int)
    ensures -1 <= c < |s.pending|
  {
    BestOf(s, now, |s.pending|)
  }

  lemma {:induction false} BestOfMeans(s: State, now: Time, n: nat)
    requires n <= |s.pending|
    ensures var c := BestOf(s, now, n);
      if c < 0 then NothingToRun(s, now, n) else IsBestOf(s, now, n, c)
  {
    if n > 0 {
      BestOfMeans(s, now, n - 1);
    }
  }

  lemma ChoiceMeans(s: State, now: Time)
    ensures var c := Choice(s, now);
      if c < 0 then NothingToRun(s, now, |s.pending|) else IsChoice(s, now, c)
  {
    BestOfMeans(s, now, |s.pending|);
  }

  // ----- the sliding window and the intervals -----

  // The events strictly later than the cutoff, in order.
  function Later(events: seq<Time>, cutoff: Time): seq<Time>
  {
    if events == [] then []
    else
      var rest := Later(events[..|events| - 1], cutoff);
      if events[|events| - 1] > cutoff then rest + [events[|events| - 1]] else rest
  }

  function IntervalFor(cfg: Config, eventCount: nat): int {
    if eventCount >= cfg.busyThreshold then 5 * MINUTE
    else if eventCount == 0 then 30 * MINUTE
    else cfg.baseInterval
  }

  // time.Duration(float64(min) * (float64(current) / float64(base))), clamped.
  function AdaptiveGlobalInterval(s: State): (d: int)
    ensures s.cfg.baseInterval > 0 ==> 10 * SECOND <= d <= 2 * MINUTE
  {
    if s.cfg.baseInterval > 0 then
      var ratio := s.current as real / s.cfg.baseInterval as real;
      var scaled := (s.cfg.minGlobalInterval as real * ratio).Floor;
      if scaled < 10 * SECOND then 10 * SECOND
      else if scaled > 2 * MINUTE then 2 * MINUTE
      else scaled
    else s.cfg.minGlobalInterval
  }

  predicate GloballyLimited(s: State, now: Time) {
    s.lastGlobal.Some? && now - s.lastGlobal.value < AdaptiveGlobalInterval(s)
  }

  // ----- the steps -----

  // What one call of TriggerPatrol did, and the state it left.
  datatype Triggered = Triggered(next: State, accepted: bool, evicted: Option<PatrolScope>, queued: bool)

  function Refreshed(s: State, now: Time): State {
    var kept := Later(s.recent, now - s.cfg.eventWindow);
    s.(recent := kept, current := IntervalFor(s.cfg, |kept|))
  }

  // Merging into a queued duplicate only raises its priority.
  function Merged(q: seq<PatrolScope>, scope: PatrolScope): seq<PatrolScope> {
    var d := FirstDuplicate(q, scope);
    if d >= 0 && scope.priority > q[d].priority then q[d := q[d].(priority := scope.priority)] else q
  }

  function Without(s: State, i: nat): State
    requires i < |s.pending|
  {
    s.(pending := RemoveAt(s.pending, i))
  }

  // Record the event, prune the window, adjust the interval, and queue the scope.
  function Appended(s: State, now: Time, scope: PatrolScope): State {
    var t := Refreshed(s.(recent := s.recent + [now]), now);
    t.(pending := t.pending + [scope])
  }

  function MergeOrQueue(s: State, now: Time, scope: PatrolScope): Triggered {
    if FirstDuplicate(s.pending, scope) >= 0 then
      Triggered(s.(pending := Merged(s.pending, scope)), true, None, false)
    else
      Triggered(Appended(s, now, scope), true, None, true)
  }

  function Trigger(s: State, now: Time, scope: PatrolScope): Triggered {
    if |s.pending| >= s.cfg.maxPendingTriggers then
      var v := Victim(s.pending, scope.priority);
      if v < 0 then Triggered(s, false, None, false)
      else
        MergeOrQueue(Without(s, v), now, scope).(evicted := Some(s.pending[v]))
    else MergeOrQueue(s, now, scope)
  }

  function Stamped(stamps: map<string, Time>, ids: seq<string>, now: Time): map<string, Time> {
    if ids == [] then stamps
    else Stamped(stamps, ids[..|ids| - 1], now)[ids[|ids| - 1] := now]
  }

  lemma {:induction false} StampedMeans(stamps: map<string, Time>, ids: seq<string>, now: Time, rid: string)
    ensures rid in Stamped(stamps, ids, now) <==> rid in stamps || rid in ids
    ensures rid in Stamped(stamps, ids, now) ==>
      Stamped(stamps, ids, now)[rid] == if rid in ids then now else stamps[rid]
  {
    if ids != [] {
      var n := |ids| - 1;
      StampedMeans(stamps, ids[..n], now, rid);
      assert ids == ids[..n] + [ids[n]];
    }
  }

  // processPendingTriggers up to the callback: the dispatched scope, if any.
  function Tick(s: State, now: Time): (State, Option<PatrolScope>) {
    if s.pending == [] || !s.hasCallback || GloballyLimited(s, now) then (s, None)
    else
      var c := Choice(s, now);
      if c < 0 then (s, None)
      else
        var t := s.pending[c];
        (s.(pending := RemoveAt(s.pending, c),
            lastGlobal := Some(now),
            lastByResource := Stamped(s.lastByResource, t.resourceIDs, now)),
         Some(t))
  }

  datatype TriggerStatus = TriggerStatus(
    pendingTriggers: nat, currentIntervalMs: int, recentEvents: nat, isBusyMode: bool)

  // ----- the code -----

  method Elementwise(a: seq<string>, b: seq<string>) returns (equal: bool)
    requires |a| == |b|
    ensures equal <==> a == b
  {
    for i := 0 to |a|
      invariant forall j :: 0 <= j < i ==> a[j] == b[j]
    {
      if a[i] != b[i] {
        return false;
      }
    }
    return true;
  }

  lemma SameMultisetSameLength(a: seq<string>, b: seq<string>)
    requires multiset(a) == multiset(b)
    ensures |a| == |b|
    ensures |a| == 1 ==> a[0] == b[0]
  {
    assert |multiset(a)| == |a| && |multiset(b)| == |b|;
    if |a| == 1 {
      assert a == [a[0]] && b == [b[0]];
      assert a[0] in multiset(b);
    }
  }

  method SlicesEqual(a: seq<string>, b: seq<string>) returns (equal: bool)
    ensures equal <==> multiset(a) == multiset(b)
  {
    if multiset(a) == multiset(b) {
      SameMultisetSameLength(a, b);
    }
    if |a| != |b| {
      return false;
    }
    if |a| == 0 {
      return true;
    }
    if |a| == 1 {
      assert a == [a[0]] && b == [b[0]];
      return a[0] == b[0];
    }
    StringOrder.SortDecidesMultisetEquality(a, b);
    equal := Elementwise(StringOrder.Sort(a), StringOrder.Sort(b));
  }

  class TriggerManager {
    const cfg: Config
    var lastPatrolByResource: map<string, Time>
    var lastGlobalPatrol: Option<Time>
    var pendingTriggers: seq<PatrolScope>
    var currentInterval: int
    var recentEvents: seq<Time>
    var hasCallback: bool

    ghost function Contents(): State
      reads this
    {
      State(cfg, pendingTriggers, lastPatrolByResource, lastGlobalPatrol, recentEvents, currentInterval, hasCallback)
    }

    constructor (c: Config)
      ensures Contents() == InitialState(c)
    {
      cfg := WithDefaults(c);
      lastPatrolByResource := map[];
      lastGlobalPatrol := None;
      pendingTriggers := [];
      currentInterval := WithDefaults(c).baseInterval;
      recentEvents := [];
      hasCallback := false;
    }

    method SetOnTrigger(present: bool)
      modifies this`hasCallback
      ensures Contents() == old(Contents()).(hasCallback := present)
    {
      hasCallback := present;
    }

    method CleanupOldEvents(now: Time)
      modifies this`recentEvents
      ensures recentEvents == Later(old(recentEvents), now - cfg.eventWindow)
    {
      var cutoff := now - cfg.eventWindow;
      var kept := [];
      for i := 0 to |recentEvents|
        invariant recentEvents == old(recentEvents)
        invariant kept == Later(recentEvents[..i], cutoff)
      {
        assert recentEvents[..i + 1][..i] == recentEvents[..i];
        if recentEvents[i] > cutoff {
          kept := kept + [recentEvents[i]];
        }
      }
      assert recentEvents[..|recentEvents|] == recentEvents;
      recentEvents := kept;
    }

    method UpdateAdaptiveInterval()
      modifies this`currentInterval
      ensures currentInterval == IntervalFor(cfg, |recentEvents|)
    {
      var eventCount := |recentEvents|;
      if eventCount >= cfg.busyThreshold {
        currentInterval := 5 * MINUTE;
      } else if eventCount == 0 {
        currentInterval := 30 * MINUTE;
      } else {
        currentInterval := cfg.baseInterval;
      }
    }

    // The two calls that always go together: prune the window, then adjust the interval.
    method Refresh(now: Time)
      modifies this`recentEvents, this`currentInterval
      ensures Contents() == Refreshed(old(Contents()), now)
    {
      CleanupOldEvents(now);
      UpdateAdaptiveInterval();
    }

    // The eviction scan of a full queue: -1 when no entry is strictly lower.
    method FindLowest(priority: int) returns (lowestIndex: int)
      ensures lowestIndex == Victim(pendingTriggers, priority)
    {
      var lowestPriority := priority;
      lowestIndex := -1;
      for i := 0 to |pendingTriggers|
        invariant lowestIndex == Victim(pendingTriggers[..i], priority)
        invariant lowestPriority == if lowestIndex < 0 then priority else pendingTriggers[lowestIndex].priority
      {
        assert pendingTriggers[..i + 1][..i] == pendingTriggers[..i];
        if pendingTriggers[i].priority < lowestPriority {
          lowestPriority := pendingTriggers[i].priority;
          lowestIndex := i;
        }
      }
      assert pendingTriggers[..|pendingTriggers|] == pendingTriggers;
    }

    // The duplicate scan, which raises the priority of the first match.
    method MergeDuplicate(scope: PatrolScope) returns (merged: bool)
      modifies this`pendingTriggers
      ensures merged <==> FirstDuplicate(old(pendingTriggers), scope) >= 0
      ensures pendingTriggers == Merged(old(pendingTriggers), scope)
      ensures !merged ==> pendingTriggers == old(pendingTriggers)
    {
      FirstDuplicateMeans(pendingTriggers, scope);
      for i := 0 to |pendingTriggers|
        invariant pendingTriggers == old(pendingTriggers)
        invariant forall j :: 0 <= j < i ==> !Duplicate(pendingTriggers[j], scope)
      {
        var same := SlicesEqual(pendingTriggers[i].resourceIDs, scope.resourceIDs);
        if pendingTriggers[i].reason == scope.reason && same {
          if scope.priority > pendingTriggers[i].priority {
            pendingTriggers := pendingTriggers[i := pendingTriggers[i].(priority := scope.priority)];
          }
          return true;
        }
      }
      return false;
    }

    method Append(scope: PatrolScope, now: Time)
      modifies this
      ensures Contents() == Appended(old(Contents()), now, scope)
    {
      recentEvents := recentEvents + [now];
      Refresh(now);
      pendingTriggers := pendingTriggers + [scope];
    }

    method AddOrMerge(scope: PatrolScope, now: Time)
      modifies this
      ensures Contents() == MergeOrQueue(old(Contents()), now, scope).next
    {
      var merged := MergeDuplicate(scope);
      if !merged {
        assert Contents() == old(Contents());
        Append(scope, now);
      }
    }

    method TriggerPatrol(scope: PatrolScope, now: Time) returns (accepted: bool)
      modifies this
      ensures Contents() == Trigger(old(Contents()), now, scope).next
      ensures accepted == Trigger(old(Contents()), now, scope).accepted
    {
      if |pendingTriggers| >= cfg.maxPendingTriggers {
        var lowestIndex := FindLowest(scope.priority);
        if lowestIndex < 0 {
          return false;
        }
        pendingTriggers := RemoveAt(pendingTriggers, lowestIndex);
      }
      AddOrMerge(scope, now);
      return true;
    }

    // The per-resource rate limit check, with its early exit.
    method CanRun(t: PatrolScope, now: Time) returns (canRun: bool)
      ensures canRun <==> forall rid :: rid in t.resourceIDs && rid in lastPatrolByResource ==>
        now - lastPatrolByResource[rid] >= cfg.minResourceInterval
    {
      for k := 0 to |t.resourceIDs|
        invariant forall m :: 0 <= m < k && t.resourceIDs[m] in lastPatrolByResource ==>
          now - lastPatrolByResource[t.resourceIDs[m]] >= cfg.minResourceInterval
      {
        var rid := t.resourceIDs[k];
        if rid in lastPatrolByResource && now - lastPatrolByResource[rid] < cfg.minResourceInterval {
          return false;
        }
      }
      return true;
    }

    method FindHighest(now: Time) returns (highestIndex: int)
      ensures highestIndex == Choice(Contents(), now)
    {
      ghost var s := Contents();
      var highestPriority := -1;
      highestIndex := -1;
      for i := 0 to |pendingTriggers|
        invariant highestIndex == BestOf(s, now, i)
        invariant highestPriority == if highestIndex < 0 then -1 else pendingTriggers[highestIndex].priority
      {
        var trigger := pendingTriggers[i];
        if trigger.retryAfter.Some? && now < trigger.retryAfter.value {
          continue;
        }
        if trigger.priority > highestPriority {
          if |trigger.resourceIDs| > 0 {
            var canRun := CanRun(trigger, now);
            if !canRun {
              continue;
            }
          }
          highestPriority := trigger.priority;
          highestIndex := i;
        }
      }
    }

    method ProcessPendingTriggers(now: Time) returns (dispatched: Option<PatrolScope>)
      modifies this
      ensures (Contents(), dispatched) == Tick(old(Contents()), now)
    {
      if |pendingTriggers| == 0 || !hasCallback {
        return None;
      }
      var adaptiveGlobalInterval := ComputeGlobalInterval();
      if lastGlobalPatrol.Some? && now - lastGlobalPatrol.value < adaptiveGlobalInterval {
        return None;
      }
      var highestIndex := FindHighest(now);
      if highestIndex < 0 {
        return None;
      }
      var trigger := pendingTriggers[highestIndex];
      pendingTriggers := RemoveAt(pendingTriggers, highestIndex);
      lastGlobalPatrol := Some(now);
      StampResources(trigger.resourceIDs, now);
      return Some(trigger);
    }

    method ComputeGlobalInterval() returns (adaptiveGlobalInterval: int)
      ensures adaptiveGlobalInterval == AdaptiveGlobalInterval(Contents())
    {
      adaptiveGlobalInterval := cfg.minGlobalInterval;
      if cfg.baseInterval > 0 {
        var ratio := currentInterval as real / cfg.baseInterval as real;
        adaptiveGlobalInterval := (cfg.minGlobalInterval as real * ratio).Floor;
        if adaptiveGlobalInterval < 10 * SECOND {
          adaptiveGlobalInterval := 10 * SECOND;
        }
        if adaptiveGlobalInterval > 2 * MINUTE {
          adaptiveGlobalInterval := 2 * MINUTE;
        }
      }
    }

    method StampResources(resourceIDs: seq<string>, now: Time)
      modifies this`lastPatrolByResource
      ensures lastPatrolByResource == Stamped(old(lastPatrolByResource), resourceIDs, now)
    {
      for k := 0 to |resourceIDs|
        invariant lastPatrolByResource == Stamped(old(lastPatrolByResource), resourceIDs[..k], now)
      {
        assert resourceIDs[..k + 1][..k] == resourceIDs[..k];
        lastPatrolByResource := lastPatrolByResource[resourceIDs[k] := now];
      }
      assert resourceIDs[..|resourceIDs|] == resourceIDs;
    }

    method GetStatus(now: Time) returns (status: TriggerStatus)
      modifies this
      ensures Contents() == Refreshed(old(Contents()), now)
      ensures status == TriggerStatus(|pendingTriggers|, currentInterval / 1_000_000, |recentEvents|,
        |recentEvents| >= cfg.busyThreshold)
    {
      Refresh(now);
      status := TriggerStatus(|pendingTriggers|, currentInterval / 1_000_000, |recentEvents|,
        |recentEvents| >= cfg.busyThreshold);
    }
  }
}
