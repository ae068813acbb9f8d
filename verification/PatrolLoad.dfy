// How fast the scheduler serves its queue, by what arrived and what was dispatched before:
// statements about runs in plain numbers (internal/ai/patrol_triggers.go:140-400).
module PatrolLoad {
  import opened Prelude
  import opened PatrolTriggers
  import opened PatrolTriggerRuns

  // ----- the settings -----

  predicate SetOr(value: int, setting: int, otherwise: int) {
    value == if setting > 0 then setting else otherwise
  }

  // In every run the settings are those asked for, and where none is asked for: two minutes
  // between patrols of a resource, thirty seconds between patrols, ten places in the queue,
  // fifteen minutes as the interval, and five events in five minutes to count as busy.
  lemma SettingsOfEveryRun(cfg: Config, start: Time, events: seq<Event>)
    ensures var c := Run(Start(cfg, start), events).m.cfg;
      SetOr(c.minResourceInterval, cfg.minResourceInterval, 120 * SECOND) &&
      SetOr(c.minGlobalInterval, cfg.minGlobalInterval, 30 * SECOND) &&
      SetOr(c.maxPendingTriggers, cfg.maxPendingTriggers, 10) &&
      SetOr(c.baseInterval, cfg.baseInterval, 900 * SECOND) &&
      SetOr(c.busyThreshold, cfg.busyThreshold, 5) &&
      SetOr(c.eventWindow, cfg.eventWindow, 300 * SECOND)
  {
    DispatchesAreSpaced(cfg, start, events);
  }

  // ----- the interval follows the arrivals -----

  // How many of the arrivals came after the cutoff.
  function Arrived(arrivals: seq<Time>, cutoff: Time): nat {
    |set k: nat | k < |arrivals| && arrivals[k] > cutoff|
  }

  lemma ArrivedMore(front: seq<Time>, last: Time, cutoff: Time)
    ensures Arrived(front + [last], cutoff) == Arrived(front, cutoff) + if last > cutoff then 1 else 0
  {
    var events := front + [last];
    var before := set k: nat | k < |front| && front[k] > cutoff;
    var after := set k: nat | k < |events| && events[k] > cutoff;
    assert after == before + if last > cutoff then {|front|} else {};
  }

  lemma {:induction false} LaterCounts(events: seq<Time>, cutoff: Time)
    ensures |Later(events, cutoff)| == Arrived(events, cutoff)
  {
    if events != [] {
      var (front, last) := (events[..|events| - 1], events[|events| - 1]);
      LaterCounts(front, cutoff);
      ArrivedMore(front, last, cutoff);
      assert front + [last] == events;
    }
  }

  // The interval for a number of arrivals in the window, once there was a cleanup.
  function IntervalAt(busy: int, base: int, arrived: Option<nat>): int {
    match arrived
    case None => base
    case Some(n) => if n >= busy then 300 * SECOND else if n > 0 then base else 1800 * SECOND
  }

  // The arrivals in the window that ended at the last cleanup.
  function InWindow(s: Sys): Option<nat> {
    if s.lastCleanup.None? then None else Some(Arrived(s.arrivals, s.lastCleanup.value - s.m.cfg.eventWindow))
  }

  // In every run the interval is five minutes when enough arrived in the window, half an
  // hour when nothing did, and the base interval otherwise and before the first arrival.
  lemma IntervalFollowsArrivals(cfg: Config, start: Time, events: seq<Event>)
    ensures var s := Run(Start(cfg, start), events);
      s.m.current == IntervalAt(s.m.cfg.busyThreshold, s.m.cfg.baseInterval, InWindow(s))
    ensures var s := Run(Start(cfg, start), events);
      (InWindow(s) == None <==> s.lastCleanup == None) && |s.m.recent| == if InWindow(s).Some? then InWindow(s).value else 0
  {
    var s := Run(Start(cfg, start), events);
    RecentEventsIsTheWindow(cfg, start, events);
    if s.lastCleanup.Some? {
      LaterCounts(s.arrivals, s.lastCleanup.value - s.m.cfg.eventWindow);
    }
  }

  // ----- the gap between dispatches -----

  // The least interval scaled by the current one, between ten seconds and two minutes.
  function Gap(min: int, current: int, base: int): int
    requires base > 0
  {
    Max(10 * SECOND, Min(120 * SECOND, min * current / base))
  }

  lemma FloorOfQuotient(x: int, b: int, q: real)
    requires b > 0 && q * (b as real) == x as real
    ensures q.Floor == x / b
  {
    var (d, r) := (x / b, x % b);
    assert x == d * b + r && 0 <= r < b;
    QuotientBetween(d, r, b, q);
  }

  lemma QuotientBetween(d: int, r: int, b: int, q: real)
    requires 0 <= r < b && q * (b as real) == (d * b + r) as real
    ensures d as real <= q < (d + 1) as real
  {
    var e := q - d as real;
    assert (d * b) as real == (d as real) * (b as real);
    assert e * (b as real) == r as real;
    if e < 0.0 {
      ProductSign(-e, b as real);
    }
    if e >= 1.0 {
      ProductGrows(e, b as real);
    }
  }

  lemma ProductSign(x: real, y: real)
    requires x > 0.0 && y > 0.0
    ensures x * y > 0.0
  {
  }

  lemma ProductGrows(x: real, y: real)
    requires x >= 1.0 && y > 0.0
    ensures x * y >= y
  {
    assert (x - 1.0) * y >= 0.0;
  }

  lemma ScaledFloor(min: int, current: int, base: int)
    requires base > 0
    ensures (min as real * (current as real / base as real)).Floor == min * current / base
  {
    var ratio := current as real / base as real;
    assert ratio * base as real == current as real;
    assert min as real * ratio * base as real == min as real * (ratio * base as real);
    assert (min * current) as real == min as real * current as real;
    FloorOfQuotient(min * current, base, min as real * ratio);
  }

  lemma GapIs(s: State)
    requires s.cfg.baseInterval > 0
    ensures AdaptiveGlobalInterval(s) == Gap(s.cfg.minGlobalInterval, s.current, s.cfg.baseInterval)
  {
    ScaledFloor(s.cfg.minGlobalInterval, s.current, s.cfg.baseInterval);
  }

  // ----- what a tick does -----

  // Its own backoff is over, and no patrol of one of its resources was dispatched within
  // the resource interval.
  ghost predicate Due(p: PatrolScope, ds: seq<Dispatch>, interval: int, now: Time) {
    p.priority >= 0 && (p.retryAfter.Some? ==> now >= p.retryAfter.value) &&
    forall k, rid :: 0 <= k < |ds| && rid in ds[k].scope.resourceIDs && rid in p.resourceIDs ==> now - ds[k].at >= interval
  }

  // Stamps are times of dispatches, the latest for each resource.
  ghost predicate StampsAre(ds: seq<Dispatch>, stamps: map<string, Time>) {
    StampsCover(ds, stamps) &&
    forall rid :: rid in stamps ==> exists k :: 0 <= k < |ds| && rid in ds[k].scope.resourceIDs && stamps[rid] == ds[k].at
  }

  lemma DueIsEligible(s: State, now: Time, p: PatrolScope, ds: seq<Dispatch>)
    requires StampsAre(ds, s.lastByResource)
    ensures Due(p, ds, s.cfg.minResourceInterval, now) <==> Eligible(s, now, p) && p.priority >= 0
  {
    if Due(p, ds, s.cfg.minResourceInterval, now) {
      forall rid | rid in p.resourceIDs && rid in s.lastByResource
        ensures now - s.lastByResource[rid] >= s.cfg.minResourceInterval
      {
        var k :| 0 <= k < |ds| && rid in ds[k].scope.resourceIDs && s.lastByResource[rid] == ds[k].at;
      }
    }
    if Eligible(s, now, p) {
      forall k, rid | 0 <= k < |ds| && rid in ds[k].scope.resourceIDs && rid in p.resourceIDs
        ensures now - ds[k].at >= s.cfg.minResourceInterval
      {
        assert rid in s.lastByResource && s.lastByResource[rid] >= ds[k].at;
      }
    }
  }

  lemma OneMoreStamp(ds: seq<Dispatch>, stamps: map<string, Time>, d: Dispatch)
    requires StampsAre(ds, stamps) && Past(ds, d.at)
    ensures StampsAre(ds + [d], Stamped(stamps, d.scope.resourceIDs, d.at))
  {
    var (more, after) := (ds + [d], Stamped(stamps, d.scope.resourceIDs, d.at));
    forall i, rid | 0 <= i < |more| && rid in more[i].scope.resourceIDs ensures rid in after && after[rid] >= more[i].at {
      StampedMeans(stamps, d.scope.resourceIDs, d.at, rid);
    }
    forall rid | rid in after ensures exists k :: 0 <= k < |more| && rid in more[k].scope.resourceIDs && after[rid] == more[k].at {
      StampedMeans(stamps, d.scope.resourceIDs, d.at, rid);
      if rid in d.scope.resourceIDs {
        assert more[|ds|] == d;
      } else {
        var k :| 0 <= k < |ds| && rid in ds[k].scope.resourceIDs && stamps[rid] == ds[k].at;
        assert more[k] == ds[k];
      }
    }
  }

  // What the tick decides by, as the run has left it.
  ghost predicate HistoryInv(s: Sys) {
    s.m.cfg.Valid() && s.m.lastGlobal == LastAt(s.dispatches) && Past(s.dispatches, s.now) &&
    StampsAre(s.dispatches, s.m.lastByResource)
  }

  lemma TickKeepsHistory(s: Sys)
    requires HistoryInv(s)
    ensures HistoryInv(Dispatched(s))
  {
    var d := Tick(s.m, s.now).1;
    if d.Some? {
      OneMoreStamp(s.dispatches, s.m.lastByResource, Dispatch(s.now, d.value));
    }
  }

  lemma ActKeepsHistory(s: Sys, action: Action)
    requires HistoryInv(s)
    ensures HistoryInv(Act(s, action))
  {
    match action
    case Submit(scope) => OfferFrame(s.(submitted := s.submitted + 1), scope);
    case TickNow => TickKeepsHistory(s);
    case Drop(i, ids, types, context) =>
      if i < |s.inFlight| && s.inFlight[i].retryCount < MAX_RETRIES {
        DropRequeues(s, i, ids, types, context);
        OfferFrame(Landed(s, i), Requeued(Edited(s, i, ids, types, context), s.now));
      } else {
        DropGivesUp(s, i, ids, types, context);
      }
    case _ =>
  }

  lemma {:induction false} HistoryIsKept(cfg: Config, start: Time, events: seq<Event>)
    ensures HistoryInv(Run(Start(cfg, start), events))
  {
    if events != [] {
      HistoryIsKept(cfg, start, events[..|events| - 1]);
      ActKeepsHistory(BeforeLast(Start(cfg, start), events), events[|events| - 1].action);
      RunUnfolds(Start(cfg, start), events);
    }
  }

  // The most urgent of the entries that are due, the earliest among equals.
  ghost predicate IsNext(q: seq<PatrolScope>, ds: seq<Dispatch>, interval: int, now: Time, i: int) {
    0 <= i < |q| && Due(q[i], ds, interval, now) &&
    forall j :: 0 <= j < |q| && Due(q[j], ds, interval, now) ==>
      q[j].priority <= q[i].priority && (j < i ==> q[j].priority < q[i].priority)
  }

  ghost predicate SomeDue(q: seq<PatrolScope>, ds: seq<Dispatch>, interval: int, now: Time) {
    exists i :: 0 <= i < |q| && Due(q[i], ds, interval, now)
  }

  lemma ChoiceIsNext(s: State, now: Time, ds: seq<Dispatch>)
    requires StampsAre(ds, s.lastByResource)
    ensures var c := Choice(s, now);
      if c < 0 then !SomeDue(s.pending, ds, s.cfg.minResourceInterval, now)
      else SomeDue(s.pending, ds, s.cfg.minResourceInterval, now) && IsNext(s.pending, ds, s.cfg.minResourceInterval, now, c)
  {
    ChoiceMeans(s, now);
    forall i | 0 <= i < |s.pending|
      ensures Due(s.pending[i], ds, s.cfg.minResourceInterval, now) <==> Eligible(s, now, s.pending[i]) && s.pending[i].priority >= 0
    {
      DueIsEligible(s, now, s.pending[i], ds);
    }
  }

  // The last dispatch is at least this long ago.
  ghost predicate Rested(ds: seq<Dispatch>, gap: int, now: Time) {
    ds == [] || now - ds[|ds| - 1].at >= gap
  }

  // What a tick leaves: nothing changes, or entry i goes from the queue to the patrols in
  // flight and the resources and the clock of the limits are stamped.
  ghost predicate Sends(s: Sys, t: Sys, i: int) {
    0 <= i < |s.m.pending| &&
    t.m.pending == s.m.pending[..i] + s.m.pending[i + 1..] && t.inFlight == s.inFlight + [s.m.pending[i]] &&
    t.dispatches == s.dispatches + [Dispatch(s.now, s.m.pending[i])] &&
    t.m.recent == s.m.recent && t.m.current == s.m.current && t.m.cfg == s.m.cfg && t.m.hasCallback == s.m.hasCallback
  }

  lemma TickSends(s: Sys)
    requires HistoryInv(s)
    ensures var t := Act(s, TickNow);
      if s.m.hasCallback && Rested(s.dispatches, Gap(s.m.cfg.minGlobalInterval, s.m.current, s.m.cfg.baseInterval), s.now) &&
        SomeDue(s.m.pending, s.dispatches, s.m.cfg.minResourceInterval, s.now)
      then exists i :: IsNext(s.m.pending, s.dispatches, s.m.cfg.minResourceInterval, s.now, i) && Sends(s, t, i)
      else t == s
  {
    GapIs(s.m);
    ChoiceIsNext(s.m, s.now, s.dispatches);
  }

  // In every run, a tick sends a patrol exactly when there is a callback, the gap since the
  // last dispatch is over and some entry is due by the dispatches made so far; it sends the
  // most urgent such entry, the earliest among equals, and otherwise changes nothing.
  lemma TickServesTheQueue(cfg: Config, start: Time, events: seq<Event>, wait: nat)
    ensures var s := Wait(Run(Start(cfg, start), events), wait); var t := Step(Run(Start(cfg, start), events), Event(wait, TickNow));
      s.m.cfg.Valid() &&
      if s.m.hasCallback && Rested(s.dispatches, Gap(s.m.cfg.minGlobalInterval, s.m.current, s.m.cfg.baseInterval), s.now) &&
        SomeDue(s.m.pending, s.dispatches, s.m.cfg.minResourceInterval, s.now)
      then exists i :: IsNext(s.m.pending, s.dispatches, s.m.cfg.minResourceInterval, s.now, i) && Sends(s, t, i)
      else t == s
  {
    HistoryIsKept(cfg, start, events);
    TickSends(Wait(Run(Start(cfg, start), events), wait));
  }

  // Nothing is dispatched before a callback was set.
  lemma {:induction false} NoCallbackNoDispatch(cfg: Config, start: Time, events: seq<Event>)
    requires forall e :: e in events ==> e.action != SetCallback(true)
    ensures !Run(Start(cfg, start), events).m.hasCallback && Run(Start(cfg, start), events).dispatches == []
  {
    if events != [] {
      var (front, e) := (events[..|events| - 1], events[|events| - 1]);
      assert e in events;
      NoCallbackNoDispatch(cfg, start, front);
      QuietWithoutCallback(BeforeLast(Start(cfg, start), events), e.action);
      RunUnfolds(Start(cfg, start), events);
    }
  }

  lemma OfferKeepsQuiet(s: Sys, scope: PatrolScope)
    requires !s.m.hasCallback && s.dispatches == []
    ensures !Offer(s, scope).m.hasCallback && Offer(s, scope).dispatches == []
  {
  }

  lemma QuietWithoutCallback(s: Sys, action: Action)
    requires !s.m.hasCallback && s.dispatches == [] && action != SetCallback(true)
    ensures !Act(s, action).m.hasCallback && Act(s, action).dispatches == []
  {
    match action
    case Submit(scope) => OfferKeepsQuiet(s.(submitted := s.submitted + 1), scope);
    case Drop(i, ids, types, context) =>
      if i < |s.inFlight| && s.inFlight[i].retryCount < MAX_RETRIES {
        DropRequeues(s, i, ids, types, context);
        OfferKeepsQuiet(Landed(s, i), Requeued(Edited(s, i, ids, types, context), s.now));
      } else {
        DropGivesUp(s, i, ids, types, context);
      }
    case _ =>
  }

  predicate AllDefault(cfg: Config) {
    cfg.minResourceInterval <= 0 && cfg.minGlobalInterval <= 0 && cfg.maxPendingTriggers <= 0 &&
    cfg.baseInterval <= 0 && cfg.busyThreshold <= 0 && cfg.eventWindow <= 0
  }

  lemma SendsOneMore(s: Sys, gap: int, interval: int)
    requires HistoryInv(s) && interval == s.m.cfg.minResourceInterval
    requires gap == Gap(s.m.cfg.minGlobalInterval, s.m.current, s.m.cfg.baseInterval)
    ensures |Act(s, TickNow).dispatches| > |s.dispatches| <==>
      s.m.hasCallback && Rested(s.dispatches, gap, s.now) && SomeDue(s.m.pending, s.dispatches, interval, s.now)
  {
    TickSends(s);
  }

  // The gap for the default settings.
  function DefaultGap(arrived: Option<nat>): int {
    if arrived == None then 30 * SECOND
    else if arrived.value >= 5 then 10 * SECOND
    else if arrived.value == 0 then 60 * SECOND
    else 30 * SECOND
  }

  lemma DefaultGapIs(arrived: Option<nat>)
    ensures Gap(30 * SECOND, IntervalAt(5, 900 * SECOND, arrived), 900 * SECOND) == DefaultGap(arrived)
  {
  }

  // At most ten entries wait, and a tick sends one exactly when there is a callback, the gap
  // for the arrivals of the last five minutes before the last cleanup is over, and an entry
  // is due whose resources have rested for two minutes.
  ghost predicate KeepsDefaultPace(before: Sys, wait: nat) {
    var (s, t) := (Wait(before, wait), Step(before, Event(wait, TickNow)));
    var arrived := if s.lastCleanup == None then None else Some(Arrived(s.arrivals, s.lastCleanup.value - 300 * SECOND));
    |s.m.pending| <= 10 &&
    (|t.dispatches| > |s.dispatches| <==>
      s.m.hasCallback && Rested(s.dispatches, DefaultGap(arrived), s.now) &&
      SomeDue(s.m.pending, s.dispatches, 120 * SECOND, s.now))
  }

  predicate DefaultSettings(c: Config) {
    c == Config(120 * SECOND, 30 * SECOND, 10, 900 * SECOND, 5, 300 * SECOND)
  }

  lemma KeepsDefaultPaceWhen(before: Sys, wait: nat)
    requires HistoryInv(before) && DefaultSettings(before.m.cfg) && |before.m.pending| <= before.m.cfg.maxPendingTriggers
    requires before.m.current == IntervalAt(before.m.cfg.busyThreshold, before.m.cfg.baseInterval, InWindow(before))
    ensures KeepsDefaultPace(before, wait)
  {
    DefaultGapIs(InWindow(before));
    SendsOneMore(Wait(before, wait), DefaultGap(InWindow(before)), 120 * SECOND);
  }

  // With the default settings every run keeps this pace: ten seconds between patrols when
  // five or more triggers arrived, a minute when none did, and thirty seconds otherwise.
  lemma DefaultPace(cfg: Config, start: Time, events: seq<Event>, wait: nat)
    requires AllDefault(cfg)
    ensures KeepsDefaultPace(Run(Start(cfg, start), events), wait)
  {
    SettingsOfEveryRun(cfg, start, events);
    IntervalFollowsArrivals(cfg, start, events);
    QueueBoundedAndDuplicateFree(cfg, start, events);
    HistoryIsKept(cfg, start, events);
    KeepsDefaultPaceWhen(Run(Start(cfg, start), events), wait);
  }
}
