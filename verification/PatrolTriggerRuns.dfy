// Whole runs of the scheduler together with the drop-and-requeue path of
// runScopedPatrol (internal/ai/patrol_run.go:582-617). An event waits some time and then
// acts, so the clock never goes back; the list of events is otherwise arbitrary. A
// dispatched scope is in flight until the patrol either ran (Finish) or found another
// run in progress (Drop), and other events may come in between.
module PatrolTriggerRuns {
  import opened Prelude
  import opened PatrolTriggers

  const MAX_RETRIES: int := 2
  const BACKOFF1: int := 5 * SECOND
  const BACKOFF2: int := 15 * SECOND

  // The scope runScopedPatrol submits again after a drop.
  function Requeued(scope: PatrolScope, now: Time): PatrolScope {
    var count := scope.retryCount + 1;
    scope.(retryCount := count,
           retryAfter := Some(now + (if count == MAX_RETRIES then BACKOFF2 else BACKOFF1)))
  }

  // runScopedPatrol after tryStartRun said no.
  method HandleDrop(tm: TriggerManager, scope: PatrolScope, now: Time) returns (requeued: bool)
    modifies tm
    ensures requeued <==> scope.retryCount < MAX_RETRIES
    ensures tm.Contents() ==
      if requeued then Trigger(old(tm.Contents()), now, Requeued(scope, now)).next else old(tm.Contents())
  {
    if scope.retryCount >= MAX_RETRIES {
      return false;
    }
    var again := scope.(retryCount := scope.retryCount + 1);
    var backoff := BACKOFF1;
    if again.retryCount == MAX_RETRIES {
      backoff := BACKOFF2;
    }
    again := again.(retryAfter := Some(now + backoff));
    assert again == Requeued(scope, now);
    var _ := tm.TriggerPatrol(again, now);
    return true;
  }

  datatype Dispatch = Dispatch(at: Time, scope: PatrolScope)

  // The scheduler, the clock, and what happened so far.
  datatype Sys = Sys(
    m: State,
    now: Time,
    inFlight: seq<PatrolScope>,
    submitted: nat,             // calls of TriggerPatrol from outside
    direct: nat,                // patrols started without the queue
    dispatches: seq<Dispatch>,
    queued: seq<PatrolScope>,   // scopes appended to the queue
    evicted: seq<PatrolScope>,
    arrivals: seq<Time>,        // when each scope was appended
    lastCleanup: Option<Time>)  // when recentEvents was last pruned

  datatype Action =
    | Submit(scope: PatrolScope)
    // TriggerScopedPatrol called directly, as by runTargetedPatrol
    | StartDirectly(scope: PatrolScope)
    | TickNow
    | StatusNow
    | SetCallback(present: bool)
    | Finish(index: nat)
    // TriggerScopedPatrol trims the lists and may extend the context before the run.
    | Drop(index: nat, resourceIDs: seq<string>, resourceTypes: seq<string>, context: string)

  datatype Event = Event(wait: nat, action: Action)

  function Start(cfg: Config, now: Time): Sys {
    Sys(InitialState(cfg), now, [], 0, 0, [], [], [], [], None)
  }

  // The books after a call of TriggerPatrol, from what the call reports it did.
  function Booked(s: Sys, scope: PatrolScope, t: Triggered): Sys {
    s.(m := t.next,
       queued := if t.queued then s.queued + [scope] else s.queued,
       arrivals := if t.queued then s.arrivals + [s.now] else s.arrivals,
       lastCleanup := if t.queued then Some(s.now) else s.lastCleanup,
       evicted := if t.evicted.Some? then s.evicted + [t.evicted.value] else s.evicted)
  }

  ghost function Offer(s: Sys, scope: PatrolScope): Sys {
    Booked(s, scope, Trigger(s.m, s.now, scope))
  }

  // The books after a tick that left state m and dispatched d.
  function Ticked(s: Sys, m: State, d: Option<PatrolScope>): Sys {
    if d.None? then s.(m := m)
    else s.(m := m, inFlight := s.inFlight + [d.value], dispatches := s.dispatches + [Dispatch(s.now, d.value)])
  }

  ghost function Dispatched(s: Sys): Sys {
    Ticked(s, Tick(s.m, s.now).0, Tick(s.m, s.now).1)
  }

  function Landed(s: Sys, i: nat): Sys
    requires i < |s.inFlight|
  {
    s.(inFlight := RemoveAt(s.inFlight, i))
  }

  function Edited(s: Sys, i: nat, ids: seq<string>, types: seq<string>, context: string): PatrolScope
    requires i < |s.inFlight|
  {
    s.inFlight[i].(resourceIDs := ids, resourceTypes := types, context := context)
  }

  ghost function Act(s: Sys, action: Action): Sys {
    match action
    case Submit(scope) => Offer(s.(submitted := s.submitted + 1), scope)
    case StartDirectly(scope) => s.(direct := s.direct + 1, inFlight := s.inFlight + [scope])
    case TickNow => Dispatched(s)
    case StatusNow => s.(m := Refreshed(s.m, s.now), lastCleanup := Some(s.now))
    case SetCallback(present) => s.(m := s.m.(hasCallback := present))
    case Finish(i) => if i < |s.inFlight| then Landed(s, i) else s
    case Drop(i, ids, types, context) =>
      if i >= |s.inFlight| then s
      else if s.inFlight[i].retryCount >= MAX_RETRIES then Landed(s, i)
      else Offer(Landed(s, i), Requeued(Edited(s, i, ids, types, context), s.now))
  }

  function Wait(s: Sys, wait: nat): Sys {
    s.(now := s.now + wait)
  }

  ghost function Step(s: Sys, e: Event): Sys {
    Act(Wait(s, e.wait), e.action)
  }

  ghost function Run(s: Sys, events: seq<Event>): Sys {
    if events == [] then s
    else Step(Run(s, events[..|events| - 1]), events[|events| - 1])
  }

  // The state in which the last event of a run acts.
  ghost function BeforeLast(s: Sys, events: seq<Event>): Sys
    requires events != []
  {
    Wait(Run(s, events[..|events| - 1]), events[|events| - 1].wait)
  }

  lemma RunUnfolds(s: Sys, events: seq<Event>)
    requires events != []
    ensures Run(s, events) == Act(BeforeLast(s, events), events[|events| - 1].action)
  {
  }

  // What a drop amounts to, with retries left and without.
  lemma DropRequeues(s: Sys, i: nat, ids: seq<string>, types: seq<string>, context: string)
    requires i < |s.inFlight| && s.inFlight[i].retryCount < MAX_RETRIES
    ensures Act(s, Drop(i, ids, types, context)) ==
      Offer(Landed(s, i), Requeued(Edited(s, i, ids, types, context), s.now))
  {
  }

  lemma DropGivesUp(s: Sys, i: nat, ids: seq<string>, types: seq<string>, context: string)
    requires i >= |s.inFlight| || s.inFlight[i].retryCount >= MAX_RETRIES
    ensures Act(s, Drop(i, ids, types, context)) == if i < |s.inFlight| then Landed(s, i) else s
  {
  }

  lemma SubmitOffers(s: Sys, scope: PatrolScope)
    ensures Act(s, Submit(scope)) == Offer(s.(submitted := s.submitted + 1), scope)
  {
  }

  // ----- one call of TriggerPatrol -----

  lemma RejectionChangesNothing(s: State, now: Time, scope: PatrolScope)
    ensures var t := Trigger(s, now, scope);
      !t.accepted ==> t.next == s && t.evicted == None && !t.queued
    ensures var t := Trigger(s, now, scope);
      !t.accepted <==>
        (|s.pending| >= s.cfg.maxPendingTriggers &&
         forall j :: 0 <= j < |s.pending| ==> s.pending[j].priority >= scope.priority)
  {
    VictimMeans(s.pending, scope.priority);
  }

  lemma AcceptedIsCovered(s: State, now: Time, scope: PatrolScope)
    requires Trigger(s, now, scope).accepted
    ensures var q := Trigger(s, now, scope).next.pending;
      exists i :: 0 <= i < |q| && Duplicate(q[i], scope) && q[i].priority >= scope.priority
  {
    var full := |s.pending| >= s.cfg.maxPendingTriggers;
    var left := if full then RemoveAt(s.pending, Victim(s.pending, scope.priority)) else s.pending;
    var d := FirstDuplicate(left, scope);
    FirstDuplicateMeans(left, scope);
    var q := Trigger(s, now, scope).next.pending;
    if d >= 0 {
      assert Duplicate(q[d], scope);
    } else {
      assert q[|left|] == scope;
    }
  }

  // An eviction takes an entry of least priority, and one strictly below the newcomer.
  lemma EvictionIsMinimal(s: State, now: Time, scope: PatrolScope)
    ensures var t := Trigger(s, now, scope);
      t.evicted.Some? ==>
        t.evicted.value in s.pending && t.evicted.value.priority < scope.priority &&
        forall p :: p in s.pending ==> t.evicted.value.priority <= p.priority
    ensures var t := Trigger(s, now, scope);
      t.evicted.Some? <==>
        (|s.pending| >= s.cfg.maxPendingTriggers &&
         exists j :: 0 <= j < |s.pending| && s.pending[j].priority < scope.priority)
  {
    VictimMeans(s.pending, scope.priority);
  }

  // The queue is made room in before duplicates are looked for. So a full queue loses
  // an entry for nothing exactly when the newcomer's duplicate is another entry than
  // the one evicted.
  lemma EvictedForNothing(s: State, now: Time, scope: PatrolScope)
    ensures var t := Trigger(s, now, scope);
      (|t.next.pending| < |s.pending| <==>
        |s.pending| >= s.cfg.maxPendingTriggers && Victim(s.pending, scope.priority) >= 0 &&
        exists j :: 0 <= j < |s.pending| && j != Victim(s.pending, scope.priority) && Duplicate(s.pending[j], scope))
  {
    var v := Victim(s.pending, scope.priority);
    if |s.pending| >= s.cfg.maxPendingTriggers && v >= 0 {
      var left := RemoveAt(s.pending, v);
      FirstDuplicateMeans(left, scope);
      if j :| 0 <= j < |s.pending| && j != v && Duplicate(s.pending[j], scope) {
        assert left[if j < v then j else j - 1] == s.pending[j];
      } else {
        forall k | 0 <= k < |left| ensures !Duplicate(left[k], scope) {
          assert left[k] == s.pending[if k < v then k else k + 1];
        }
      }
    }
  }

  // For instance: two places, and an alert on a node queued again behind a lesser scope.
  function AlertOn(resource: string, priority: int): PatrolScope {
    PatrolScope([resource], [], Quick, "alert", "", priority, "", "", false, 0, None)
  }

  lemma LesserOfTwoEvicted(a: PatrolScope, b: PatrolScope)
    requires a.priority < b.priority
    ensures Victim([a, b], b.priority) == 0 && RemoveAt([a, b], 0) == [b]
  {
    VictimMeans([a, b], b.priority);
    assert [a, b][0].priority < b.priority;
  }

  lemma MergedIntoItself(b: PatrolScope)
    ensures FirstDuplicate([b], b) == 0
  {
    FirstDuplicateMeans([b], b);
    assert Duplicate([b][0], b);
  }

  lemma EvictedForNothingExample(s: State, now: Time)
    requires s.cfg.maxPendingTriggers == 2 && s.pending == [AlertOn("vm", 10), AlertOn("node", 50)]
    ensures Trigger(s, now, AlertOn("node", 50)) ==
      Triggered(s.(pending := [AlertOn("node", 50)]), true, Some(AlertOn("vm", 10)), false)
  {
    LesserOfTwoEvicted(AlertOn("vm", 10), AlertOn("node", 50));
    MergedIntoItself(AlertOn("node", 50));
  }

  // ----- the queue: bounded, and without duplicates -----

  ghost predicate DuplicateFree(q: seq<PatrolScope>) {
    forall i, j :: 0 <= i < j < |q| ==> !Duplicate(q[i], q[j])
  }

  ghost predicate QueueInv(m: State) {
    m.cfg.Valid() && |m.pending| <= m.cfg.maxPendingTriggers && DuplicateFree(m.pending)
  }

  lemma MergeOrQueueKeepsDuplicateFree(s: State, now: Time, scope: PatrolScope)
    requires DuplicateFree(s.pending)
    ensures DuplicateFree(MergeOrQueue(s, now, scope).next.pending)
    ensures |MergeOrQueue(s, now, scope).next.pending| <= |s.pending| + 1
  {
    var d := FirstDuplicate(s.pending, scope);
    FirstDuplicateMeans(s.pending, scope);
    var q := MergeOrQueue(s, now, scope).next.pending;
    forall i, j | 0 <= i < j < |q| ensures !Duplicate(q[i], q[j]) {
      if j < |s.pending| { assert !Duplicate(s.pending[i], s.pending[j]); }
    }
  }

  lemma TriggerKeepsQueueInv(s: State, now: Time, scope: PatrolScope)
    requires QueueInv(s)
    ensures QueueInv(Trigger(s, now, scope).next)
  {
    if |s.pending| >= s.cfg.maxPendingTriggers {
      var v := Victim(s.pending, scope.priority);
      if v >= 0 {
        var left := Without(s, v);
        assert DuplicateFree(left.pending);
        MergeOrQueueKeepsDuplicateFree(left, now, scope);
      }
    } else {
      MergeOrQueueKeepsDuplicateFree(s, now, scope);
    }
  }

  lemma OfferKeepsQueueInv(s: Sys, scope: PatrolScope)
    requires QueueInv(s.m)
    ensures QueueInv(Offer(s, scope).m)
  {
    TriggerKeepsQueueInv(s.m, s.now, scope);
  }

  lemma TickKeepsQueueInv(s: Sys)
    requires QueueInv(s.m)
    ensures QueueInv(Dispatched(s).m)
  {
  }

  lemma ActKeepsQueueInv(s: Sys, action: Action)
    requires QueueInv(s.m)
    ensures QueueInv(Act(s, action).m)
  {
    match action
    case Submit(scope) => OfferKeepsQueueInv(s.(submitted := s.submitted + 1), scope);
    case TickNow => TickKeepsQueueInv(s);
    case Drop(i, ids, types, context) =>
      if i < |s.inFlight| && s.inFlight[i].retryCount < MAX_RETRIES {
        DropRequeues(s, i, ids, types, context);
        OfferKeepsQueueInv(Landed(s, i), Requeued(Edited(s, i, ids, types, context), s.now));
      } else {
        DropGivesUp(s, i, ids, types, context);
      }
    case _ =>
  }

  lemma {:induction false} QueueBoundedAndDuplicateFree(cfg: Config, start: Time, events: seq<Event>)
    ensures QueueInv(Run(Start(cfg, start), events).m)
  {
    if events != [] {
      QueueBoundedAndDuplicateFree(cfg, start, events[..|events| - 1]);
      ActKeepsQueueInv(BeforeLast(Start(cfg, start), events), events[|events| - 1].action);
      RunUnfolds(Start(cfg, start), events);
    }
  }

  // ----- conservation: every appended scope is pending, was dispatched, or was evicted -----

  function Ident(p: PatrolScope): PatrolScope {
    p.(priority := 0)
  }

  // Which scopes a list holds, whatever priority merging has given them since.
  function Idents(q: seq<PatrolScope>): multiset<PatrolScope> {
    Images(Ident, q)
  }

  function Scopes(ds: seq<Dispatch>): (r: seq<PatrolScope>)
    ensures |r| == |ds|
  {
    if ds == [] then [] else Scopes(ds[..|ds| - 1]) + [ds[|ds| - 1].scope]
  }

  ghost predicate Balanced(queued: seq<PatrolScope>, pending: seq<PatrolScope>, ran: seq<PatrolScope>, evicted: seq<PatrolScope>) {
    Idents(queued) == Idents(pending) + Idents(ran) + Idents(evicted)
  }

  ghost predicate Conserved(s: Sys) {
    Balanced(s.queued, s.m.pending, Scopes(s.dispatches), s.evicted)
  }

  lemma BalancedQueue(queued: seq<PatrolScope>, pending: seq<PatrolScope>, ran: seq<PatrolScope>, evicted: seq<PatrolScope>, p: PatrolScope)
    requires Balanced(queued, pending, ran, evicted)
    ensures Balanced(queued + [p], pending + [p], ran, evicted)
  {
    ImagesAppend(Ident, queued, p);
    ImagesAppend(Ident, pending, p);
  }

  lemma BalancedRun(queued: seq<PatrolScope>, pending: seq<PatrolScope>, ran: seq<PatrolScope>, evicted: seq<PatrolScope>, i: nat)
    requires Balanced(queued, pending, ran, evicted) && i < |pending|
    ensures Balanced(queued, RemoveAt(pending, i), ran + [pending[i]], evicted)
    ensures Balanced(queued, RemoveAt(pending, i), ran, evicted + [pending[i]])
  {
    ImagesRemove(Ident, pending, i);
    ImagesAppend(Ident, ran, pending[i]);
    ImagesAppend(Ident, evicted, pending[i]);
  }

  lemma MergedIdents(q: seq<PatrolScope>, scope: PatrolScope)
    ensures Idents(Merged(q, scope)) == Idents(q)
  {
    var d := FirstDuplicate(q, scope);
    if d >= 0 { ImagesUpdate(Ident, q, d, q[d].(priority := scope.priority)); }
  }

  lemma AppendsConserve(m: State, now: Time, scope: PatrolScope, queued: seq<PatrolScope>, ran: seq<PatrolScope>, evicted: seq<PatrolScope>)
    requires Balanced(queued, m.pending, ran, evicted)
    ensures var t := MergeOrQueue(m, now, scope);
      Balanced(if t.queued then queued + [scope] else queued, t.next.pending, ran, evicted)
  {
    MergedIdents(m.pending, scope);
    BalancedQueue(queued, m.pending, ran, evicted, scope);
  }

  ghost predicate BalancedAfter(t: Triggered, scope: PatrolScope, queued: seq<PatrolScope>, ran: seq<PatrolScope>,
                                evicted: seq<PatrolScope>) {
    Balanced(if t.queued then queued + [scope] else queued, t.next.pending, ran,
             if t.evicted.Some? then evicted + [t.evicted.value] else evicted)
  }

  lemma EvictionConserves(m: State, now: Time, scope: PatrolScope, queued: seq<PatrolScope>,
                          ran: seq<PatrolScope>, evicted: seq<PatrolScope>, v: nat)
    requires Balanced(queued, m.pending, ran, evicted) && v < |m.pending|
    ensures BalancedAfter(MergeOrQueue(Without(m, v), now, scope).(evicted := Some(m.pending[v])), scope, queued, ran, evicted)
  {
    BalancedRun(queued, m.pending, ran, evicted, v);
    AppendsConserve(Without(m, v), now, scope, queued, ran, evicted + [m.pending[v]]);
  }

  lemma RoomConserves(m: State, now: Time, scope: PatrolScope, queued: seq<PatrolScope>, ran: seq<PatrolScope>, evicted: seq<PatrolScope>)
    requires Balanced(queued, m.pending, ran, evicted)
    ensures BalancedAfter(MergeOrQueue(m, now, scope), scope, queued, ran, evicted)
  {
    AppendsConserve(m, now, scope, queued, ran, evicted);
  }

  lemma BalancedAs(t: Triggered, u: Triggered, scope: PatrolScope, queued: seq<PatrolScope>, ran: seq<PatrolScope>,
                   evicted: seq<PatrolScope>)
    requires t == u && BalancedAfter(t, scope, queued, ran, evicted)
    ensures BalancedAfter(u, scope, queued, ran, evicted)
  {
  }

  // The three ways a call of TriggerPatrol can go.
  lemma TriggerCases(m: State, now: Time, scope: PatrolScope)
    ensures var v := Victim(m.pending, scope.priority);
      Trigger(m, now, scope) ==
        if |m.pending| < m.cfg.maxPendingTriggers then MergeOrQueue(m, now, scope)
        else if v < 0 then Triggered(m, false, None, false)
        else MergeOrQueue(Without(m, v), now, scope).(evicted := Some(m.pending[v]))
  {
  }

  lemma TriggerConserves(m: State, now: Time, scope: PatrolScope, queued: seq<PatrolScope>, ran: seq<PatrolScope>, evicted: seq<PatrolScope>)
    requires Balanced(queued, m.pending, ran, evicted)
    ensures BalancedAfter(Trigger(m, now, scope), scope, queued, ran, evicted)
  {
    var (v, t) := (Victim(m.pending, scope.priority), Trigger(m, now, scope));
    TriggerCases(m, now, scope);
    if |m.pending| < m.cfg.maxPendingTriggers {
      RoomConserves(m, now, scope, queued, ran, evicted);
      BalancedAs(MergeOrQueue(m, now, scope), t, scope, queued, ran, evicted);
    } else if v >= 0 {
      EvictionConserves(m, now, scope, queued, ran, evicted, v);
      BalancedAs(MergeOrQueue(Without(m, v), now, scope).(evicted := Some(m.pending[v])), t, scope, queued, ran, evicted);
    } else {
      BalancedAs(Triggered(m, false, None, false), t, scope, queued, ran, evicted);
    }
  }

  lemma BookedConserves(s: Sys, scope: PatrolScope, t: Triggered)
    requires BalancedAfter(t, scope, s.queued, Scopes(s.dispatches), s.evicted)
    ensures Conserved(Booked(s, scope, t))
  {
  }

  lemma OfferConserves(s: Sys, scope: PatrolScope)
    requires Conserved(s)
    ensures Conserved(Offer(s, scope))
  {
    TriggerConserves(s.m, s.now, scope, s.queued, Scopes(s.dispatches), s.evicted);
    BookedConserves(s, scope, Trigger(s.m, s.now, scope));
  }

  lemma ScopesAppend(ds: seq<Dispatch>, d: Dispatch)
    ensures Scopes(ds + [d]) == Scopes(ds) + [d.scope]
  {
    assert (ds + [d])[..|ds|] == ds;
  }

  lemma TickConserves(s: Sys)
    requires Conserved(s)
    ensures Conserved(Dispatched(s))
  {
    var d := Tick(s.m, s.now).1;
    if d.Some? {
      BalancedRun(s.queued, s.m.pending, Scopes(s.dispatches), s.evicted, Choice(s.m, s.now));
      ScopesAppend(s.dispatches, Dispatch(s.now, d.value));
    }
  }

  lemma ConservedAs(s: Sys, t: Sys)
    requires Conserved(s) && s == t
    ensures Conserved(t)
  {
  }

  lemma SubmitConserves(s: Sys, scope: PatrolScope)
    requires Conserved(s)
    ensures Conserved(Act(s, Submit(scope)))
  {
    var t := s.(submitted := s.submitted + 1);
    assert Conserved(t);
    OfferConserves(t, scope);
    SubmitOffers(s, scope);
    ConservedAs(Offer(t, scope), Act(s, Submit(scope)));
  }

  lemma DropConserves(s: Sys, i: nat, ids: seq<string>, types: seq<string>, context: string)
    requires Conserved(s)
    ensures Conserved(Act(s, Drop(i, ids, types, context)))
  {
    var t := Act(s, Drop(i, ids, types, context));
    if i < |s.inFlight| {
      LandingConserves(s, i);
    }
    if i < |s.inFlight| && s.inFlight[i].retryCount < MAX_RETRIES {
      var again := Requeued(Edited(s, i, ids, types, context), s.now);
      DropRequeues(s, i, ids, types, context);
      OfferConserves(Landed(s, i), again);
      ConservedAs(Offer(Landed(s, i), again), t);
    } else {
      DropGivesUp(s, i, ids, types, context);
      ConservedAs(if i < |s.inFlight| then Landed(s, i) else s, t);
    }
  }

  lemma QuietActConserves(s: Sys, action: Action)
    requires Conserved(s) && (action.StatusNow? || action.SetCallback? || action.Finish? || action.StartDirectly?)
    ensures Conserved(Act(s, action))
  {
  }

  lemma LandingConserves(s: Sys, i: nat)
    requires Conserved(s) && i < |s.inFlight|
    ensures Conserved(Landed(s, i))
  {
  }

  lemma ActConserves(s: Sys, action: Action)
    requires Conserved(s)
    ensures Conserved(Act(s, action))
  {
    match action
    case Submit(scope) => SubmitConserves(s, scope);
    case TickNow => TickConserves(s);
    case Drop(i, ids, types, context) => DropConserves(s, i, ids, types, context);
    case _ => QuietActConserves(s, action);
  }

  lemma {:induction false} NothingLostOrInvented(cfg: Config, start: Time, events: seq<Event>)
    ensures var s := Run(Start(cfg, start), events);
      Conserved(s) && |s.queued| == |s.m.pending| + |s.dispatches| + |s.evicted|
  {
    if events != [] {
      NothingLostOrInvented(cfg, start, events[..|events| - 1]);
      ActConserves(BeforeLast(Start(cfg, start), events), events[|events| - 1].action);
      RunUnfolds(Start(cfg, start), events);
    }
    var s := Run(Start(cfg, start), events);
    ImagesSize(Ident, s.queued);
    ImagesSize(Ident, s.m.pending);
    ImagesSize(Ident, Scopes(s.dispatches));
    ImagesSize(Ident, s.evicted);
  }

  // ----- retries: at most three dispatches per submission, two per direct start -----

  // How many more dispatches a queued scope, and one already dispatched, can cause.
  function Attempts(p: PatrolScope): int {
    MAX_RETRIES + 1 - p.retryCount
  }

  function Retries(p: PatrolScope): int {
    MAX_RETRIES - p.retryCount
  }

  ghost predicate RetriesBounded(q: seq<PatrolScope>) {
    forall i :: 0 <= i < |q| ==> 0 <= q[i].retryCount <= MAX_RETRIES
  }

  lemma {:induction false} CreditNotNegative(f: PatrolScope -> int, q: seq<PatrolScope>)
    requires forall i :: 0 <= i < |q| ==> f(q[i]) >= 0
    ensures Sum(f, q) >= 0
  {
    if q != [] { CreditNotNegative(f, q[..|q| - 1]); }
  }

  // A submission pays for three dispatches, a direct start for two.
  ghost predicate Paid(dispatches: nat, pending: seq<PatrolScope>, inFlight: seq<PatrolScope>, submitted: nat, direct: nat) {
    dispatches + Sum(Attempts, pending) + Sum(Retries, inFlight) <= 3 * submitted + 2 * direct
  }

  ghost predicate RetryInv(s: Sys) {
    RetriesBounded(s.m.pending) && RetriesBounded(s.inFlight) &&
    Paid(|s.dispatches|, s.m.pending, s.inFlight, s.submitted, s.direct)
  }

  lemma MergedCredit(q: seq<PatrolScope>, scope: PatrolScope)
    ensures Sum(Attempts, Merged(q, scope)) == Sum(Attempts, q)
    ensures RetriesBounded(q) ==> RetriesBounded(Merged(q, scope))
  {
    var d := FirstDuplicate(q, scope);
    if d >= 0 { SumUpdate(Attempts, q, d, q[d].(priority := scope.priority)); }
  }

  // The queue after one more scope: bounded, and its credit grown by the scope's at most.
  ghost predicate Credited(before: seq<PatrolScope>, after: seq<PatrolScope>, scope: PatrolScope) {
    RetriesBounded(after) && Sum(Attempts, after) <= Sum(Attempts, before) + Attempts(scope)
  }

  lemma AppendCredited(q: seq<PatrolScope>, scope: PatrolScope)
    requires RetriesBounded(q) && 0 <= scope.retryCount <= MAX_RETRIES
    ensures Credited(q, q + [scope], scope) && Credited(q, Merged(q, scope), scope) && Credited(q, q, scope)
  {
    SumAppend(Attempts, q, scope);
    MergedCredit(q, scope);
  }

  lemma MergeOrQueueCredit(s: State, now: Time, scope: PatrolScope)
    requires RetriesBounded(s.pending) && 0 <= scope.retryCount <= MAX_RETRIES
    ensures Credited(s.pending, MergeOrQueue(s, now, scope).next.pending, scope)
  {
    AppendCredited(s.pending, scope);
    MergeOrQueuePending(s, now, scope);
  }

  lemma MergeOrQueuePending(s: State, now: Time, scope: PatrolScope)
    ensures MergeOrQueue(s, now, scope).next.pending ==
      if FirstDuplicate(s.pending, scope) >= 0 then Merged(s.pending, scope) else s.pending + [scope]
  {
  }

  lemma RemoveCredited(q: seq<PatrolScope>, v: nat, after: seq<PatrolScope>, scope: PatrolScope)
    requires RetriesBounded(q) && v < |q| && Credited(RemoveAt(q, v), after, scope)
    ensures Credited(q, after, scope)
  {
    SumRemove(Attempts, q, v);
  }

  lemma TriggerCredit(s: State, now: Time, scope: PatrolScope)
    requires RetriesBounded(s.pending) && 0 <= scope.retryCount <= MAX_RETRIES
    ensures Credited(s.pending, Trigger(s, now, scope).next.pending, scope)
  {
    AppendCredited(s.pending, scope);
    if |s.pending| >= s.cfg.maxPendingTriggers {
      var v := Victim(s.pending, scope.priority);
      if v >= 0 {
        MergeOrQueueCredit(Without(s, v), now, scope);
        RemoveCredited(s.pending, v, MergeOrQueue(Without(s, v), now, scope).next.pending, scope);
      }
    } else {
      MergeOrQueueCredit(s, now, scope);
    }
  }

  // Every scope built in the repository starts with a retry count of zero.
  predicate FromOutside(e: Event) {
    (e.action.Submit? || e.action.StartDirectly?) ==> e.action.scope.retryCount == 0
  }

  lemma RunPaid(dispatches: nat, pending: seq<PatrolScope>, inFlight: seq<PatrolScope>, submitted: nat, direct: nat, c: nat)
    requires RetriesBounded(pending) && RetriesBounded(inFlight) && c < |pending|
    requires Paid(dispatches, pending, inFlight, submitted, direct)
    ensures Paid(dispatches + 1, RemoveAt(pending, c), inFlight + [pending[c]], submitted, direct)
    ensures RetriesBounded(RemoveAt(pending, c)) && RetriesBounded(inFlight + [pending[c]])
  {
    SumRemove(Attempts, pending, c);
    SumAppend(Retries, inFlight, pending[c]);
  }

  lemma TickQueue(m: State, now: Time)
    ensures var (t, d) := Tick(m, now);
      if d.None? then t == m
      else 0 <= Choice(m, now) && t.pending == RemoveAt(m.pending, Choice(m, now)) && d.value == m.pending[Choice(m, now)]
  {
  }

  lemma TickedKeepsRetryInv(s: Sys, m: State, d: Option<PatrolScope>, c: int)
    requires RetryInv(s)
    requires if d.None? then m == s.m else 0 <= c < |s.m.pending| && m.pending == RemoveAt(s.m.pending, c) && d.value == s.m.pending[c]
    ensures RetryInv(Ticked(s, m, d))
  {
    if d.Some? {
      RunPaid(|s.dispatches|, s.m.pending, s.inFlight, s.submitted, s.direct, c);
    }
  }

  lemma TickKeepsRetryInv(s: Sys)
    requires RetryInv(s)
    ensures RetryInv(Dispatched(s))
  {
    TickQueue(s.m, s.now);
    TickedKeepsRetryInv(s, Tick(s.m, s.now).0, Tick(s.m, s.now).1, Choice(s.m, s.now));
  }

  // A scope offered to the queue must be paid for.
  lemma OfferKeepsRetryInv(s: Sys, scope: PatrolScope)
    requires RetriesBounded(s.m.pending) && RetriesBounded(s.inFlight) && 0 <= scope.retryCount <= MAX_RETRIES
    requires |s.dispatches| + Sum(Attempts, s.m.pending) + Attempts(scope) + Sum(Retries, s.inFlight) <= 3 * s.submitted + 2 * s.direct
    ensures RetryInv(Offer(s, scope))
  {
    TriggerCredit(s.m, s.now, scope);
    BookedKeepsRetryInv(s, scope, Trigger(s.m, s.now, scope));
  }

  lemma BookedKeepsRetryInv(s: Sys, scope: PatrolScope, t: Triggered)
    requires RetriesBounded(s.inFlight) && Credited(s.m.pending, t.next.pending, scope)
    requires |s.dispatches| + Sum(Attempts, s.m.pending) + Attempts(scope) + Sum(Retries, s.inFlight) <= 3 * s.submitted + 2 * s.direct
    ensures RetryInv(Booked(s, scope, t))
  {
  }

  lemma SubmitKeepsRetryInv(s: Sys, scope: PatrolScope)
    requires RetryInv(s) && scope.retryCount == 0
    ensures RetryInv(Offer(s.(submitted := s.submitted + 1), scope))
  {
    OfferKeepsRetryInv(s.(submitted := s.submitted + 1), scope);
  }

  lemma LandKeepsRetryInv(s: Sys, i: nat)
    requires RetryInv(s) && i < |s.inFlight|
    ensures RetryInv(Landed(s, i)) && Sum(Retries, Landed(s, i).inFlight) == Sum(Retries, s.inFlight) - Retries(s.inFlight[i])
  {
    SumRemove(Retries, s.inFlight, i);
  }

  lemma DropKeepsRetryInv(s: Sys, i: nat, again: PatrolScope)
    requires RetryInv(s) && i < |s.inFlight|
    requires again.retryCount == s.inFlight[i].retryCount + 1 <= MAX_RETRIES
    ensures RetryInv(Offer(Landed(s, i), again))
  {
    LandKeepsRetryInv(s, i);
    OfferKeepsRetryInv(Landed(s, i), again);
  }

  lemma DirectKeepsRetryInv(s: Sys, scope: PatrolScope)
    requires RetryInv(s) && scope.retryCount == 0
    ensures RetryInv(s.(direct := s.direct + 1, inFlight := s.inFlight + [scope]))
  {
    SumAppend(Retries, s.inFlight, scope);
  }

  lemma ActKeepsRetryInv(s: Sys, action: Action)
    requires RetryInv(s) && ((action.Submit? || action.StartDirectly?) ==> action.scope.retryCount == 0)
    ensures RetryInv(Act(s, action))
  {
    match action
    case Submit(scope) => SubmitKeepsRetryInv(s, scope);
    case StartDirectly(scope) => DirectKeepsRetryInv(s, scope);
    case TickNow => TickKeepsRetryInv(s);
    case Finish(i) =>
      if i < |s.inFlight| { LandKeepsRetryInv(s, i); }
    case Drop(i, ids, types, context) =>
      if i < |s.inFlight| && s.inFlight[i].retryCount < MAX_RETRIES {
        DropRequeues(s, i, ids, types, context);
        DropKeepsRetryInv(s, i, Requeued(Edited(s, i, ids, types, context), s.now));
      } else {
        DropGivesUp(s, i, ids, types, context);
        if i < |s.inFlight| { LandKeepsRetryInv(s, i); }
      }
    case _ =>
  }

  lemma {:induction false} AtMostThreeDispatchesPerSubmission(cfg: Config, start: Time, events: seq<Event>)
    requires forall e :: e in events ==> FromOutside(e)
    ensures var s := Run(Start(cfg, start), events);
      RetryInv(s) && |s.dispatches| <= 3 * s.submitted + 2 * s.direct
  {
    if events != [] {
      assert events[|events| - 1] in events;
      AtMostThreeDispatchesPerSubmission(cfg, start, events[..|events| - 1]);
      ActKeepsRetryInv(BeforeLast(Start(cfg, start), events), events[|events| - 1].action);
      RunUnfolds(Start(cfg, start), events);
    }
    var s := Run(Start(cfg, start), events);
    CreditNotNegative(Attempts, s.m.pending);
    CreditNotNegative(Retries, s.inFlight);
  }

  // ----- rate limits -----

  ghost predicate GloballySpaced(ds: seq<Dispatch>) {
    forall i, j :: 0 <= i < j < |ds| ==> ds[j].at - ds[i].at >= 10 * SECOND
  }

  ghost predicate ResourceSpaced(ds: seq<Dispatch>, gap: int) {
    forall i, j, rid :: 0 <= i < j < |ds| && rid in ds[i].scope.resourceIDs && rid in ds[j].scope.resourceIDs ==>
      ds[j].at - ds[i].at >= gap
  }

  ghost predicate DispatchedWhenDue(ds: seq<Dispatch>) {
    forall i :: 0 <= i < |ds| ==>
      ds[i].scope.priority >= 0 &&
      (ds[i].scope.retryAfter.Some? ==> ds[i].at >= ds[i].scope.retryAfter.value)
  }

  ghost predicate StampsCover(ds: seq<Dispatch>, stamps: map<string, Time>) {
    forall i, rid :: 0 <= i < |ds| && rid in ds[i].scope.resourceIDs ==> rid in stamps && stamps[rid] >= ds[i].at
  }

  ghost predicate Past(ds: seq<Dispatch>, now: Time) {
    forall i :: 0 <= i < |ds| ==> ds[i].at <= now
  }

  function LastAt(ds: seq<Dispatch>): Option<Time> {
    if ds == [] then None else Some(ds[|ds| - 1].at)
  }

  ghost predicate Limited(ds: seq<Dispatch>, gap: int) {
    GloballySpaced(ds) && ResourceSpaced(ds, gap) && DispatchedWhenDue(ds)
  }

  ghost predicate RateInv(s: Sys) {
    s.m.cfg.Valid() && Limited(s.dispatches, s.m.cfg.minResourceInterval) &&
    s.m.lastGlobal == LastAt(s.dispatches) && Past(s.dispatches, s.now) && StampsCover(s.dispatches, s.m.lastByResource)
  }

  lemma OneMoreSpaced(ds: seq<Dispatch>, d: Dispatch)
    requires GloballySpaced(ds) && (LastAt(ds).Some? ==> d.at - LastAt(ds).value >= 10 * SECOND)
    ensures GloballySpaced(ds + [d])
  {
    var n := |ds|;
    forall i | 0 <= i < n ensures d.at - ds[i].at >= 10 * SECOND {
      assert i < n - 1 ==> ds[n - 1].at - ds[i].at >= 10 * SECOND;
    }
  }

  lemma OneMoreResourceSpaced(ds: seq<Dispatch>, gap: int, stamps: map<string, Time>, d: Dispatch)
    requires ResourceSpaced(ds, gap) && Past(ds, d.at) && StampsCover(ds, stamps)
    requires forall rid :: rid in d.scope.resourceIDs && rid in stamps ==> d.at - stamps[rid] >= gap
    ensures ResourceSpaced(ds + [d], gap)
    ensures StampsCover(ds + [d], Stamped(stamps, d.scope.resourceIDs, d.at))
  {
    forall i, rid | 0 <= i < |ds| && rid in ds[i].scope.resourceIDs && rid in d.scope.resourceIDs
      ensures d.at - ds[i].at >= gap
    {
      assert rid in stamps && stamps[rid] >= ds[i].at;
    }
    var t := Stamped(stamps, d.scope.resourceIDs, d.at);
    forall i, rid | 0 <= i < |ds| + 1 && rid in (ds + [d])[i].scope.resourceIDs
      ensures rid in t && t[rid] >= (ds + [d])[i].at
    {
      StampedMeans(stamps, d.scope.resourceIDs, d.at, rid);
    }
  }

  lemma OneMoreDispatch(ds: seq<Dispatch>, gap: int, stamps: map<string, Time>, d: Dispatch)
    requires Limited(ds, gap) && Past(ds, d.at) && StampsCover(ds, stamps)
    requires LastAt(ds).Some? ==> d.at - LastAt(ds).value >= 10 * SECOND
    requires forall rid :: rid in d.scope.resourceIDs && rid in stamps ==> d.at - stamps[rid] >= gap
    requires d.scope.priority >= 0 && (d.scope.retryAfter.Some? ==> d.at >= d.scope.retryAfter.value)
    ensures Limited(ds + [d], gap) && Past(ds + [d], d.at)
    ensures StampsCover(ds + [d], Stamped(stamps, d.scope.resourceIDs, d.at))
  {
    OneMoreSpaced(ds, d);
    OneMoreResourceSpaced(ds, gap, stamps, d);
  }

  lemma TickKeepsRateInv(s: Sys)
    requires RateInv(s)
    ensures RateInv(Dispatched(s)) && Dispatched(s).m.cfg == s.m.cfg
  {
    var d := Tick(s.m, s.now).1;
    if d.Some? {
      ChoiceMeans(s.m, s.now);
      OneMoreDispatch(s.dispatches, s.m.cfg.minResourceInterval, s.m.lastByResource, Dispatch(s.now, d.value));
    }
  }

  // Submitting a trigger touches neither the dispatches nor the rate limits.
  lemma OfferFrame(s: Sys, scope: PatrolScope)
    ensures var t := Offer(s, scope);
      t.dispatches == s.dispatches && t.now == s.now && t.m.cfg == s.m.cfg &&
      t.m.lastGlobal == s.m.lastGlobal && t.m.lastByResource == s.m.lastByResource
  {
  }

  lemma ActKeepsRateInv(s: Sys, action: Action)
    requires RateInv(s)
    ensures RateInv(Act(s, action)) && Act(s, action).m.cfg == s.m.cfg
  {
    match action
    case Submit(scope) => OfferFrame(s.(submitted := s.submitted + 1), scope);
    case TickNow => TickKeepsRateInv(s);
    case Drop(i, ids, types, context) =>
      if i < |s.inFlight| && s.inFlight[i].retryCount < MAX_RETRIES {
        DropRequeues(s, i, ids, types, context);
        OfferFrame(Landed(s, i), Requeued(Edited(s, i, ids, types, context), s.now));
      } else {
        DropGivesUp(s, i, ids, types, context);
      }
    case _ =>
  }

  lemma {:induction false} DispatchesAreSpaced(cfg: Config, start: Time, events: seq<Event>)
    ensures var s := Run(Start(cfg, start), events);
      RateInv(s) && s.m.cfg == WithDefaults(cfg)
  {
    if events != [] {
      var before := Run(Start(cfg, start), events[..|events| - 1]);
      DispatchesAreSpaced(cfg, start, events[..|events| - 1]);
      assert Past(before.dispatches, before.now + events[|events| - 1].wait);
      ActKeepsRateInv(Wait(before, events[|events| - 1].wait), events[|events| - 1].action);
      RunUnfolds(Start(cfg, start), events);
    }
  }

  lemma {:induction false} SpacingAddsUp(ds: seq<Dispatch>, i: nat, j: nat)
    requires GloballySpaced(ds) && i <= j < |ds|
    ensures ds[j].at - ds[i].at >= (j - i) * (10 * SECOND)
    decreases j - i
  {
    if i < j {
      SpacingAddsUp(ds, i, j - 1);
    }
  }

  // In any run, a stretch of time of length w holds at most w / 10s + 1 dispatches.
  lemma DispatchesPerWindow(cfg: Config, start: Time, events: seq<Event>, i: nat, j: nat, w: nat)
    requires var ds := Run(Start(cfg, start), events).dispatches;
      i <= j < |ds| && ds[j].at - ds[i].at <= w
    ensures j - i + 1 <= w / (10 * SECOND) + 1
  {
    DispatchesAreSpaced(cfg, start, events);
    var ds := Run(Start(cfg, start), events).dispatches;
    SpacingAddsUp(ds, i, j);
    assert (j - i) * (10 * SECOND) <= w;
  }

  // ----- the sliding window of recent events -----

  lemma {:induction false} LaterTwice(events: seq<Time>, first: Time, second: Time)
    requires first <= second
    ensures Later(Later(events, first), second) == Later(events, second)
  {
    if events != [] {
      var n := |events| - 1;
      LaterTwice(events[..n], first, second);
      var kept := Later(events[..n], first);
      if events[n] > first {
        assert (kept + [events[n]])[..|kept|] == kept;
      }
    }
  }

  lemma LaterAppend(events: seq<Time>, e: Time, cutoff: Time)
    ensures Later(events + [e], cutoff) == Later(events, cutoff) + (if e > cutoff then [e] else [])
  {
    assert (events + [e])[..|events|] == events;
  }

  // Discarding old entries at earlier cleanups never showed: recentEvents is the log of
  // all arrivals seen through the window that ended at the last cleanup.
  ghost predicate WindowInv(s: Sys) {
    s.m.cfg.Valid() && WindowShows(s.m.cfg, s.m.recent, s.m.current, s.arrivals, s.lastCleanup, s.now)
  }

  ghost predicate WindowShows(cfg: Config, recent: seq<Time>, current: int, arrivals: seq<Time>, lastCleanup: Option<Time>, now: Time) {
    match lastCleanup
    case None => arrivals == [] && recent == [] && current == cfg.baseInterval
    case Some(c) =>
      c <= now && recent == Later(arrivals, c - cfg.eventWindow) && current == IntervalFor(cfg, |recent|)
  }

  lemma RefreshedWindow(cfg: Config, recent: seq<Time>, current: int, arrivals: seq<Time>, lastCleanup: Option<Time>, now: Time)
    requires WindowShows(cfg, recent, current, arrivals, lastCleanup, now)
    ensures Later(recent, now - cfg.eventWindow) == Later(arrivals, now - cfg.eventWindow)
  {
    if lastCleanup.Some? {
      LaterTwice(arrivals, lastCleanup.value - cfg.eventWindow, now - cfg.eventWindow);
    }
  }

  lemma ArrivalKeepsWindow(cfg: Config, recent: seq<Time>, current: int, arrivals: seq<Time>, lastCleanup: Option<Time>, now: Time)
    requires WindowShows(cfg, recent, current, arrivals, lastCleanup, now)
    ensures Later(recent + [now], now - cfg.eventWindow) == Later(arrivals + [now], now - cfg.eventWindow)
  {
    RefreshedWindow(cfg, recent, current, arrivals, lastCleanup, now);
    LaterAppend(recent, now, now - cfg.eventWindow);
    LaterAppend(arrivals, now, now - cfg.eventWindow);
  }

  lemma StatusKeepsWindow(s: Sys)
    requires WindowInv(s)
    ensures WindowInv(Act(s, StatusNow))
  {
    RefreshedWindow(s.m.cfg, s.m.recent, s.m.current, s.arrivals, s.lastCleanup, s.now);
  }

  // What a call reports about the window, for any call.
  ghost predicate ReportsWindow(m: State, now: Time, t: Triggered) {
    t.next.cfg == m.cfg &&
    if t.queued then
      t.next.recent == Later(m.recent + [now], now - m.cfg.eventWindow) &&
      t.next.current == IntervalFor(m.cfg, |t.next.recent|)
    else t.next.recent == m.recent && t.next.current == m.current
  }

  lemma MergeOrQueueWindow(m: State, now: Time, scope: PatrolScope)
    ensures ReportsWindow(m, now, MergeOrQueue(m, now, scope))
  {
  }

  // Giving up an entry first does not show in the window.
  lemma EvictingWindow(m: State, now: Time, v: nat, t: Triggered)
    requires v < |m.pending| && ReportsWindow(Without(m, v), now, t)
    ensures ReportsWindow(m, now, t.(evicted := Some(m.pending[v])))
  {
  }

  lemma ReportsAs(m: State, now: Time, t: Triggered, same: Triggered)
    requires t == same && ReportsWindow(m, now, t)
    ensures ReportsWindow(m, now, same)
  {
  }

  // The queue's window fields change only when the scope is appended.
  lemma TriggerWindow(m: State, now: Time, scope: PatrolScope)
    ensures ReportsWindow(m, now, Trigger(m, now, scope))
  {
    var (v, t) := (Victim(m.pending, scope.priority), Trigger(m, now, scope));
    TriggerCases(m, now, scope);
    if |m.pending| < m.cfg.maxPendingTriggers {
      MergeOrQueueWindow(m, now, scope);
      ReportsAs(m, now, MergeOrQueue(m, now, scope), t);
    } else if v >= 0 {
      var queued := MergeOrQueue(Without(m, v), now, scope);
      MergeOrQueueWindow(Without(m, v), now, scope);
      EvictingWindow(m, now, v, queued);
      ReportsAs(m, now, queued.(evicted := Some(m.pending[v])), t);
    } else {
      ReportsAs(m, now, Triggered(m, false, None, false), t);
    }
  }

  lemma CleanedUpShows(cfg: Config, recent: seq<Time>, current: int, log: seq<Time>, now: Time)
    requires recent == Later(log, now - cfg.eventWindow) && current == IntervalFor(cfg, |recent|)
    ensures WindowShows(cfg, recent, current, log, Some(now), now)
  {
  }

  lemma BookedKeepsWindow(s: Sys, scope: PatrolScope, t: Triggered)
    requires WindowInv(s) && ReportsWindow(s.m, s.now, t)
    ensures WindowInv(Booked(s, scope, t))
  {
    if t.queued {
      ArrivalKeepsWindow(s.m.cfg, s.m.recent, s.m.current, s.arrivals, s.lastCleanup, s.now);
      CleanedUpShows(t.next.cfg, t.next.recent, t.next.current, s.arrivals + [s.now], s.now);
    }
  }

  lemma OfferKeepsWindow(s: Sys, scope: PatrolScope)
    requires WindowInv(s)
    ensures WindowInv(Offer(s, scope))
  {
    TriggerWindow(s.m, s.now, scope);
    BookedKeepsWindow(s, scope, Trigger(s.m, s.now, scope));
  }

  lemma WindowAs(s: Sys, t: Sys)
    requires WindowInv(s) && s == t
    ensures WindowInv(t)
  {
  }

  lemma SubmitKeepsWindow(s: Sys, scope: PatrolScope)
    requires WindowInv(s)
    ensures WindowInv(Act(s, Submit(scope)))
  {
    var t := s.(submitted := s.submitted + 1);
    assert WindowInv(t);
    OfferKeepsWindow(t, scope);
    SubmitOffers(s, scope);
    WindowAs(Offer(t, scope), Act(s, Submit(scope)));
  }

  lemma DropKeepsWindow(s: Sys, i: nat, ids: seq<string>, types: seq<string>, context: string)
    requires WindowInv(s)
    ensures WindowInv(Act(s, Drop(i, ids, types, context)))
  {
    var t := Act(s, Drop(i, ids, types, context));
    if i < |s.inFlight| {
      assert WindowInv(Landed(s, i));
    }
    if i < |s.inFlight| && s.inFlight[i].retryCount < MAX_RETRIES {
      var again := Requeued(Edited(s, i, ids, types, context), s.now);
      DropRequeues(s, i, ids, types, context);
      OfferKeepsWindow(Landed(s, i), again);
      WindowAs(Offer(Landed(s, i), again), t);
    } else {
      DropGivesUp(s, i, ids, types, context);
      WindowAs(if i < |s.inFlight| then Landed(s, i) else s, t);
    }
  }

  lemma TickLeavesWindow(m: State, now: Time)
    ensures var t := Tick(m, now).0; t.cfg == m.cfg && t.recent == m.recent && t.current == m.current
  {
  }

  lemma TickKeepsWindow(s: Sys)
    requires WindowInv(s)
    ensures WindowInv(Dispatched(s))
  {
    TickLeavesWindow(s.m, s.now);
  }

  lemma ActKeepsWindow(s: Sys, action: Action)
    requires WindowInv(s)
    ensures WindowInv(Act(s, action))
  {
    match action
    case Submit(scope) => SubmitKeepsWindow(s, scope);
    case TickNow => TickKeepsWindow(s);
    case StatusNow => StatusKeepsWindow(s);
    case Drop(i, ids, types, context) => DropKeepsWindow(s, i, ids, types, context);
    case _ =>
  }

  lemma {:induction false} RecentEventsIsTheWindow(cfg: Config, start: Time, events: seq<Event>)
    ensures WindowInv(Run(Start(cfg, start), events))
  {
    if events != [] {
      RecentEventsIsTheWindow(cfg, start, events[..|events| - 1]);
      ActKeepsWindow(BeforeLast(Start(cfg, start), events), events[|events| - 1].action);
      RunUnfolds(Start(cfg, start), events);
    }
  }

  // ----- when a tick dispatches, and what it takes -----

  lemma TickTakesTheBest(s: State, now: Time)
    ensures var d := Tick(s, now).1;
      d.Some? <==>
        (s.hasCallback && !GloballyLimited(s, now) &&
         exists i :: 0 <= i < |s.pending| && Eligible(s, now, s.pending[i]) && s.pending[i].priority >= 0)
    ensures var (t, d) := Tick(s, now);
      d.Some? ==> exists i: nat :: IsChoice(s, now, i) && d.value == s.pending[i] && t.pending == RemoveAt(s.pending, i)
    ensures var (t, d) := Tick(s, now);
      d.None? ==> t == s
  {
    var c := Choice(s, now);
    ChoiceMeans(s, now);
    if c >= 0 {
      assert IsChoice(s, now, c) && Eligible(s, now, s.pending[c]);
    }
  }
}
