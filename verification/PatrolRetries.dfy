// Where a trigger ends up in the queue, and when a dropped patrol is tried again, over whole
// runs (internal/ai/patrol_triggers.go:319-372, internal/ai/patrol_run.go:582-617).
module PatrolRetries {
  import opened Prelude
  import opened PatrolTriggers
  import opened PatrolTriggerRuns

  // ----- where a trigger ends up -----

  predicate SameWork(a: PatrolScope, b: PatrolScope) {
    a.reason == b.reason && multiset(a.resourceIDs) == multiset(b.resourceIDs)
  }

  // Behind the others, or merged into the first entry for the same work, which only gets
  // more urgent.
  ghost predicate Placed(q: seq<PatrolScope>, scope: PatrolScope, after: seq<PatrolScope>) {
    if exists i :: 0 <= i < |q| && SameWork(q[i], scope) then
      exists d :: 0 <= d < |q| && SameWork(q[d], scope) && (forall i :: 0 <= i < d ==> !SameWork(q[i], scope)) &&
        after == q[d := q[d].(priority := Max(q[d].priority, scope.priority))]
    else after == q + [scope]
  }

  // The earliest of the least urgent entries, and less urgent than the newcomer.
  ghost predicate GivesWay(q: seq<PatrolScope>, scope: PatrolScope, v: int) {
    0 <= v < |q| && q[v].priority < scope.priority &&
    forall j :: 0 <= j < |q| ==> q[v].priority <= q[j].priority && (j < v ==> q[v].priority < q[j].priority)
  }

  lemma MergeOrQueuePlaces(s: State, now: Time, scope: PatrolScope)
    ensures Placed(s.pending, scope, MergeOrQueue(s, now, scope).next.pending)
  {
    var (q, d) := (s.pending, FirstDuplicate(s.pending, scope));
    FirstDuplicateMeans(q, scope);
    MergeOrQueuePending(s, now, scope);
    if d >= 0 {
      assert SameWork(q[d], scope) && q[d] == q[d].(priority := q[d].priority);
      assert Merged(q, scope) == q[d := q[d].(priority := Max(q[d].priority, scope.priority))];
    }
  }

  // All that a trigger does to the queue, and that it leaves the limits alone.
  lemma TriggerPlaces(s: State, now: Time, scope: PatrolScope)
    ensures var t := Trigger(s, now, scope);
      t.next.cfg == s.cfg && t.next.lastByResource == s.lastByResource && t.next.lastGlobal == s.lastGlobal &&
      t.next.hasCallback == s.hasCallback
    ensures var t := Trigger(s, now, scope);
      if |s.pending| < s.cfg.maxPendingTriggers then t.accepted && Placed(s.pending, scope, t.next.pending)
      else if exists j :: 0 <= j < |s.pending| && s.pending[j].priority < scope.priority then
        t.accepted && exists v :: GivesWay(s.pending, scope, v) && Placed(s.pending[..v] + s.pending[v + 1..], scope, t.next.pending)
      else !t.accepted && t.next == s
  {
    var v := Victim(s.pending, scope.priority);
    VictimMeans(s.pending, scope.priority);
    TriggerCases(s, now, scope);
    if |s.pending| < s.cfg.maxPendingTriggers {
      MergeOrQueuePlaces(s, now, scope);
    } else if v >= 0 {
      MergeOrQueuePlaces(Without(s, v), now, scope);
      assert GivesWay(s.pending, scope, v);
    }
  }

  // ----- who is in the queue -----

  // Every entry was there before or is the newcomer, up to its priority.
  ghost predicate ComeFrom(after: seq<PatrolScope>, q: seq<PatrolScope>, scope: PatrolScope) {
    forall p :: p in after ==> Ident(p) == Ident(scope) || exists b :: b in q && Ident(p) == Ident(b)
  }

  lemma PlacedComeFrom(q: seq<PatrolScope>, scope: PatrolScope, after: seq<PatrolScope>)
    requires Placed(q, scope, after)
    ensures ComeFrom(after, q, scope)
  {
    forall p | p in after ensures Ident(p) == Ident(scope) || exists b :: b in q && Ident(p) == Ident(b) {
      var k :| 0 <= k < |after| && after[k] == p;
      if k < |q| {
        assert q[k] in q && Ident(after[k]) == Ident(q[k]);
      }
    }
  }

  lemma TriggerComesFrom(s: State, now: Time, scope: PatrolScope)
    ensures ComeFrom(Trigger(s, now, scope).next.pending, s.pending, scope)
  {
    TriggerPlaces(s, now, scope);
    var after := Trigger(s, now, scope).next.pending;
    if |s.pending| < s.cfg.maxPendingTriggers {
      PlacedComeFrom(s.pending, scope, after);
    } else if exists j :: 0 <= j < |s.pending| && s.pending[j].priority < scope.priority {
      var v :| GivesWay(s.pending, scope, v) && Placed(s.pending[..v] + s.pending[v + 1..], scope, after);
      PlacedComeFrom(s.pending[..v] + s.pending[v + 1..], scope, after);
    }
  }

  // ----- retries over runs -----

  // p is the dropped patrol tried again: five seconds after the first drop, fifteen after
  // the second, with what the run made of its lists and its context.
  predicate IsRetryOf(p: PatrolScope, was: PatrolScope, drop: Action, now: Time)
    requires drop.Drop?
  {
    p.retryCount == was.retryCount + 1 &&
    ((was.retryCount == 0 && p.retryAfter == Some(now + 5 * SECOND)) ||
     (was.retryCount == 1 && p.retryAfter == Some(now + 15 * SECOND))) &&
    p.resourceIDs == drop.resourceIDs && p.resourceTypes == drop.resourceTypes && p.context == drop.context &&
    p.depth == was.depth && p.reason == was.reason && p.alertID == was.alertID && p.findingID == was.findingID &&
    p.noStream == was.noStream
  }

  // The event at place j drops a patrol of which p is the retry.
  ghost predicate RetriesDrop(s: Sys, events: seq<Event>, j: int, p: PatrolScope) {
    0 <= j < |events| && events[j].action.Drop? &&
    var before := BeforeLast(s, events[..j + 1]);
    events[j].action.index < |before.inFlight| &&
    IsRetryOf(p, before.inFlight[events[j].action.index], events[j].action, before.now)
  }

  ghost predicate Explained(s: Sys, events: seq<Event>, p: PatrolScope) {
    p.retryCount == 0 || exists j :: RetriesDrop(s, events, j, p)
  }

  ghost predicate AllExplained(s: Sys, events: seq<Event>, q: seq<PatrolScope>) {
    forall p :: p in q ==> Explained(s, events, p)
  }

  lemma StaysExplained(s: Sys, front: seq<Event>, e: Event, p: PatrolScope)
    requires Explained(s, front, p)
    ensures Explained(s, front + [e], p)
  {
    if p.retryCount != 0 {
      var j :| RetriesDrop(s, front, j, p);
      assert (front + [e])[..j + 1] == front[..j + 1];
      assert RetriesDrop(s, front + [e], j, p);
    }
  }

  lemma AllStayExplained(s: Sys, front: seq<Event>, e: Event, q: seq<PatrolScope>)
    requires AllExplained(s, front, q)
    ensures AllExplained(s, front + [e], q)
  {
    forall p | p in q ensures Explained(s, front + [e], p) {
      StaysExplained(s, front, e, p);
    }
  }

  lemma ExplainedUpToPriority(s: Sys, events: seq<Event>, p: PatrolScope, b: PatrolScope)
    requires Explained(s, events, b) && Ident(p) == Ident(b)
    ensures Explained(s, events, p)
  {
    if p.retryCount != 0 {
      var j :| RetriesDrop(s, events, j, b);
      assert RetriesDrop(s, events, j, p);
    }
  }

  lemma TriggerStaysExplained(s: Sys, events: seq<Event>, m: State, now: Time, scope: PatrolScope)
    requires AllExplained(s, events, m.pending) && Explained(s, events, scope)
    ensures AllExplained(s, events, Trigger(m, now, scope).next.pending)
  {
    TriggerComesFrom(m, now, scope);
    forall p | p in Trigger(m, now, scope).next.pending ensures Explained(s, events, p) {
      if Ident(p) == Ident(scope) {
        ExplainedUpToPriority(s, events, p, scope);
      } else {
        var b :| b in m.pending && Ident(p) == Ident(b);
        ExplainedUpToPriority(s, events, p, b);
      }
    }
  }

  // Every scope waiting, running or dispatched is explained.
  ghost predicate RetriesInv(s: Sys, events: seq<Event>, u: Sys) {
    AllExplained(s, events, u.m.pending) && AllExplained(s, events, u.inFlight) &&
    forall d :: d in u.dispatches ==> Explained(s, events, d.scope)
  }

  lemma InvStays(s: Sys, front: seq<Event>, e: Event, u: Sys)
    requires RetriesInv(s, front, u)
    ensures RetriesInv(s, front + [e], u)
  {
    AllStayExplained(s, front, e, u.m.pending);
    AllStayExplained(s, front, e, u.inFlight);
    forall d | d in u.dispatches ensures Explained(s, front + [e], d.scope) {
      StaysExplained(s, front, e, d.scope);
    }
  }

  lemma OfferKeepsRetries(s: Sys, events: seq<Event>, u: Sys, scope: PatrolScope)
    requires RetriesInv(s, events, u) && Explained(s, events, scope)
    ensures RetriesInv(s, events, Offer(u, scope))
  {
    TriggerStaysExplained(s, events, u.m, u.now, scope);
    OfferFrame(u, scope);
    OfferLeavesInFlight(u, scope);
  }

  lemma OfferLeavesInFlight(u: Sys, scope: PatrolScope)
    ensures Offer(u, scope).inFlight == u.inFlight && Offer(u, scope).m == Trigger(u.m, u.now, scope).next
  {
  }

  lemma TickKeepsRetries(s: Sys, events: seq<Event>, u: Sys)
    requires RetriesInv(s, events, u)
    ensures RetriesInv(s, events, Dispatched(u))
  {
    TickQueue(u.m, u.now);
  }

  lemma DropIsRetried(s: Sys, front: seq<Event>, e: Event)
    requires e.action.Drop? && var u := Wait(Run(s, front), e.wait);
      e.action.index < |u.inFlight| && 0 <= u.inFlight[e.action.index].retryCount < MAX_RETRIES
    ensures var (u, a) := (Wait(Run(s, front), e.wait), e.action);
      Explained(s, front + [e], Requeued(Edited(u, a.index, a.resourceIDs, a.resourceTypes, a.context), u.now))
  {
    var (u, a, events) := (Wait(Run(s, front), e.wait), e.action, front + [e]);
    assert events[..|front| + 1] == events && events[..|events| - 1] == front;
    assert RetriesDrop(s, events, |front|, Requeued(Edited(u, a.index, a.resourceIDs, a.resourceTypes, a.context), u.now));
  }

  lemma LandKeepsRetries(s: Sys, events: seq<Event>, u: Sys, i: nat)
    requires RetriesInv(s, events, u) && i < |u.inFlight|
    ensures RetriesInv(s, events, Landed(u, i))
  {
  }

  lemma DropKeepsRetries(s: Sys, front: seq<Event>, e: Event)
    requires e.action.Drop? && RetriesInv(s, front + [e], Wait(Run(s, front), e.wait)) && RetriesBounded(Run(s, front).inFlight)
    ensures RetriesInv(s, front + [e], Act(Wait(Run(s, front), e.wait), e.action))
  {
    var (u, a) := (Wait(Run(s, front), e.wait), e.action);
    if a.index < |u.inFlight| {
      LandKeepsRetries(s, front + [e], u, a.index);
    }
    if a.index < |u.inFlight| && u.inFlight[a.index].retryCount < MAX_RETRIES {
      DropIsRetried(s, front, e);
      DropRequeues(u, a.index, a.resourceIDs, a.resourceTypes, a.context);
      OfferKeepsRetries(s, front + [e], Landed(u, a.index),
                        Requeued(Edited(u, a.index, a.resourceIDs, a.resourceTypes, a.context), u.now));
    } else {
      DropGivesUp(u, a.index, a.resourceIDs, a.resourceTypes, a.context);
    }
  }

  lemma ActKeepsRetries(s: Sys, front: seq<Event>, e: Event)
    requires RetriesInv(s, front, Run(s, front)) && RetriesBounded(Run(s, front).inFlight) && FromOutside(e)
    ensures RetriesInv(s, front + [e], Act(Wait(Run(s, front), e.wait), e.action))
  {
    var u := Wait(Run(s, front), e.wait);
    InvStays(s, front, e, Run(s, front));
    match e.action
    case Submit(scope) =>
      SubmitOffers(u, scope);
      OfferKeepsRetries(s, front + [e], u.(submitted := u.submitted + 1), scope);
    case TickNow => TickKeepsRetries(s, front + [e], u);
    case Finish(i) => if i < |u.inFlight| { LandKeepsRetries(s, front + [e], u, i); }
    case Drop(_, _, _, _) => DropKeepsRetries(s, front, e);
    case _ =>
  }

  lemma {:induction false} RetriesAreExplained(cfg: Config, start: Time, events: seq<Event>)
    requires forall e :: e in events ==> FromOutside(e)
    ensures RetriesInv(Start(cfg, start), events, Run(Start(cfg, start), events))
  {
    if events != [] {
      var (front, e) := (events[..|events| - 1], events[|events| - 1]);
      assert front + [e] == events && e in events;
      RetriesAreExplained(cfg, start, front);
      AtMostThreeDispatchesPerSubmission(cfg, start, front);
      ActKeepsRetries(Start(cfg, start), front, e);
      RunUnfolds(Start(cfg, start), events);
    }
  }

  // In every run whose scopes start with no retries, a dispatch with a retry count is that of
  // a patrol dropped before, in flight with one retry less, and comes at least five seconds
  // after the first drop and fifteen after the second.
  lemma RetriesWait(cfg: Config, start: Time, events: seq<Event>, k: nat)
    requires forall e :: e in events ==> FromOutside(e)
    requires k < |Run(Start(cfg, start), events).dispatches| && Run(Start(cfg, start), events).dispatches[k].scope.retryCount != 0
    ensures var d := Run(Start(cfg, start), events).dispatches[k];
      exists j :: RetriesDrop(Start(cfg, start), events, j, d.scope) &&
        d.at >= BeforeLast(Start(cfg, start), events[..j + 1]).now + if d.scope.retryCount == 1 then 5 * SECOND else 15 * SECOND
  {
    RetriesAreExplained(cfg, start, events);
    DispatchesAreSpaced(cfg, start, events);
    var d := Run(Start(cfg, start), events).dispatches[k];
    var j :| RetriesDrop(Start(cfg, start), events, j, d.scope);
  }

  // And every drop is tried again while retries are left: the queue gets the retry as it
  // would get a trigger. After the second retry, or for a patrol not in flight, the
  // scheduler is left alone.
  lemma DropIsOffered(s: Sys, drop: Action)
    requires drop.Drop? && (drop.index < |s.inFlight| ==> s.inFlight[drop.index].retryCount >= 0)
    ensures var t := Act(s, drop);
      if drop.index < |s.inFlight| && s.inFlight[drop.index].retryCount < 2 then
        exists p :: IsRetryOf(p, s.inFlight[drop.index], drop, s.now) && p.priority == s.inFlight[drop.index].priority &&
          t.m == Trigger(s.m, s.now, p).next
      else t.m == s.m
  {
    if drop.index < |s.inFlight| && s.inFlight[drop.index].retryCount < 2 {
      var p := Requeued(Edited(s, drop.index, drop.resourceIDs, drop.resourceTypes, drop.context), s.now);
      DropRequeues(s, drop.index, drop.resourceIDs, drop.resourceTypes, drop.context);
      assert IsRetryOf(p, s.inFlight[drop.index], drop, s.now);
    }
  }
}
