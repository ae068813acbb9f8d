// Every interleaving of registrations, read-loop exits, calls and result deliveries.
module AgentServerRuns {
  import opened Prelude
  import opened AgentServer

  datatype Outcome = Returned(result: CommandResult) | NotConnected | SendFailed | TimedOut | Cancelled

  // How far one ExecuteCommand or ReadFile has come.
  datatype Phase =
    | Found                      // agent looked up, nothing registered yet
    | Sending(ch: nat)           // registered in pendingReqs
    | Waiting(ch: nat)           // request sent, blocked in the select
    | Leaving(ch: nat, outcome: Outcome) // outcome decided, deferred delete still to run
    | Done(outcome: Outcome)

  datatype Call = Call(requestID: string, phase: Phase)

  // A read loop between its lookup in pendingReqs and its send.
  datatype Delivery = Delivery(result: CommandResult, ch: nat)

  datatype Sys = Sys(shared: Shared, calls: seq<Call>, deliveries: seq<Delivery>)

  datatype Event =
    | Connect(agentID: string)
    | Disconnect(conn: nat)
    | Start(requestID: string, agentID: string)
    | AddPending(call: nat)
    | Send(call: nat, ok: bool)
    | Receive(call: nat)
    | GiveUp(call: nat, cancelled: bool)
    | Cleanup(call: nat)
    | ResultArrives(result: CommandResult)
    | Deliver(index: nat)

  const Initial := Sys(Empty, [], [])

  predicate InFlight(p: Phase) {
    p.Sending? || p.Waiting? || p.Leaving?
  }

  // References stay within the objects made so far.
  predicate WellFormed(s: Sys) {
    s.shared.WellFormed() &&
    (forall i :: 0 <= i < |s.calls| && InFlight(s.calls[i].phase) ==> s.calls[i].phase.ch < |s.shared.chans|) &&
    (forall d :: 0 <= d < |s.deliveries| ==> s.deliveries[d].ch < |s.shared.chans|)
  }

  function WithPhase(s: Sys, i: nat, p: Phase): Sys
    requires i < |s.calls|
  {
    s.(calls := s.calls[i := s.calls[i].(phase := p)])
  }

  // An event that does not fit the state changes nothing.
  function Step(s: Sys, e: Event): Sys
    requires WellFormed(s)
  {
    match e
    case Connect(id) => s.(shared := Registered(s.shared, id))
    case Disconnect(c) =>
      if c < |s.shared.conns| && s.shared.conns[c].live then s.(shared := Exited(s.shared, c)) else s
    case Start(rid, id) =>
      s.(calls := s.calls + [Call(rid, if id in s.shared.agents then Found else Done(NotConnected))])
    case AddPending(i) =>
      if i < |s.calls| && s.calls[i].phase.Found? then
        WithPhase(s, i, Sending(|s.shared.chans|)).(shared := Awaiting(s.shared, s.calls[i].requestID))
      else s
    case Send(i, ok) =>
      if i < |s.calls| && s.calls[i].phase.Sending? then
        WithPhase(s, i, if ok then Waiting(s.calls[i].phase.ch) else Leaving(s.calls[i].phase.ch, SendFailed))
      else s
    case Receive(i) =>
      if i < |s.calls| && s.calls[i].phase.Waiting? && s.shared.chans[s.calls[i].phase.ch].buffer.Some? then
        var ch := s.calls[i].phase.ch;
        WithPhase(s, i, Leaving(ch, Returned(s.shared.chans[ch].buffer.value))).(shared := Taken(s.shared, ch))
      else s
    case GiveUp(i, cancelled) =>
      if i < |s.calls| && s.calls[i].phase.Waiting? then
        WithPhase(s, i, Leaving(s.calls[i].phase.ch, if cancelled then Cancelled else TimedOut))
      else s
    case Cleanup(i) =>
      if i < |s.calls| && s.calls[i].phase.Leaving? then
        WithPhase(s, i, Done(s.calls[i].phase.outcome)).(shared := Forgotten(s.shared, s.calls[i].requestID))
      else s
    case ResultArrives(r) =>
      if r.requestID in s.shared.pendingReqs then
        s.(deliveries := s.deliveries + [Delivery(r, s.shared.pendingReqs[r.requestID])])
      else s
    case Deliver(d) =>
      if d < |s.deliveries| then
        s.(shared := Offered(s.shared, s.deliveries[d].ch, s.deliveries[d].result), deliveries := RemoveAt(s.deliveries, d))
      else s
  }

  lemma StepKeepsWellFormed(s: Sys, e: Event)
    requires WellFormed(s)
    ensures WellFormed(Step(s, e))
  {
  }

  ghost function Run(s: Sys, events: seq<Event>): (t: Sys)
    requires WellFormed(s)
    ensures WellFormed(t)
  {
    if events == [] then s
    else
      var before := Run(s, events[..|events| - 1]);
      StepKeepsWellFormed(before, events[|events| - 1]);
      Step(before, events[|events| - 1])
  }

  // ----- registrations -----

  // The connection registered last for an agent, or -1.
  function Latest(conns: seq<Conn>, id: string): (c: int)
    ensures -1 <= c < |conns|
  {
    if conns == [] then -1
    else if conns[|conns| - 1].agentID == id then |conns| - 1
    else Latest(conns[..|conns| - 1], id)
  }

  lemma {:induction false} LatestMeans(conns: seq<Conn>, id: string)
    ensures var c := Latest(conns, id);
      (c >= 0 ==> conns[c].agentID == id) && forall k :: c < k < |conns| ==> conns[k].agentID != id
  {
    if conns != [] && conns[|conns| - 1].agentID != id {
      LatestMeans(conns[..|conns| - 1], id);
    }
  }

  // Only the agent ids count.
  lemma {:induction false} LatestSameIds(a: seq<Conn>, b: seq<Conn>, id: string)
    requires |a| == |b| && forall k :: 0 <= k < |a| ==> a[k].agentID == b[k].agentID
    ensures Latest(a, id) == Latest(b, id)
  {
    if a != [] { LatestSameIds(a[..|a| - 1], b[..|b| - 1], id); }
  }

  ghost predicate AgentsAreLatest(agents: map<string, nat>, conns: seq<Conn>) {
    forall id ::
      var c := Latest(conns, id);
      (id in agents <==> c >= 0 && conns[c].live) && (id in agents ==> agents[id] == c)
  }

  predicate Current(agents: map<string, nat>, conns: seq<Conn>, c: nat)
    requires c < |conns|
  {
    conns[c].agentID in agents && agents[conns[c].agentID] == c
  }

  // A done channel is closed at most once; a connection in the map has it open; and a
  // running read loop whose connection is no longer in the map has been told to stop.
  ghost predicate ClosedOnce(agents: map<string, nat>, conns: seq<Conn>) {
    forall c :: 0 <= c < |conns| ==>
      conns[c].closes <= 1 &&
      (Current(agents, conns, c) ==> conns[c].closes == 0) &&
      (conns[c].live && !Current(agents, conns, c) ==> conns[c].closes == 1)
  }

  ghost predicate RegistrationInv(s: Shared) {
    AgentsAreLatest(s.agents, s.conns) && ClosedOnce(s.agents, s.conns)
  }

  lemma LatestAfterRegister(s: Shared, agentID: string, id: string)
    requires s.WellFormed()
    ensures Latest(Registered(s, agentID).conns, id) == if id == agentID then |s.conns| else Latest(s.conns, id)
  {
    LatestSameIds(Registered(s, agentID).conns[..|s.conns|], s.conns, id);
  }

  lemma RegisterKeepsLatest(s: Shared, agentID: string)
    requires s.WellFormed() && AgentsAreLatest(s.agents, s.conns)
    ensures AgentsAreLatest(Registered(s, agentID).agents, Registered(s, agentID).conns)
  {
    forall id
      ensures Latest(Registered(s, agentID).conns, id) == if id == agentID then |s.conns| else Latest(s.conns, id)
      ensures Latest(s.conns, id) >= 0 ==> s.conns[Latest(s.conns, id)].agentID == id
    {
      LatestAfterRegister(s, agentID, id);
      LatestMeans(s.conns, id);
    }
  }

  lemma RegisterClosesOnce(s: Shared, agentID: string)
    requires s.WellFormed() && RegistrationInv(s)
    ensures ClosedOnce(Registered(s, agentID).agents, Registered(s, agentID).conns)
  {
    if agentID in s.agents {
      assert s.agents[agentID] == Latest(s.conns, agentID);
      LatestMeans(s.conns, agentID);
    }
  }

  lemma LatestAfterExit(s: Shared, c: nat, id: string)
    requires c < |s.conns|
    ensures Latest(Exited(s, c).conns, id) == Latest(s.conns, id)
    ensures Latest(s.conns, id) >= 0 ==> s.conns[Latest(s.conns, id)].agentID == id
  {
    LatestSameIds(Exited(s, c).conns, s.conns, id);
    LatestMeans(s.conns, id);
  }

  lemma ExitKeepsInv(s: Shared, c: nat)
    requires RegistrationInv(s) && c < |s.conns| && s.conns[c].live
    ensures RegistrationInv(Exited(s, c))
  {
    forall id
      ensures Latest(Exited(s, c).conns, id) == Latest(s.conns, id)
      ensures Latest(s.conns, id) >= 0 ==> s.conns[Latest(s.conns, id)].agentID == id
    {
      LatestAfterExit(s, c, id);
    }
  }

  lemma CallsLeaveRegistrationsAlone(s: Sys, e: Event)
    requires WellFormed(s) && !e.Connect? && !e.Disconnect?
    ensures Step(s, e).shared.agents == s.shared.agents && Step(s, e).shared.conns == s.shared.conns
  {
  }

  lemma StepKeepsRegistrationInv(s: Sys, e: Event)
    requires WellFormed(s) && RegistrationInv(s.shared)
    ensures RegistrationInv(Step(s, e).shared)
  {
    match e
    case Connect(id) =>
      RegisterKeepsLatest(s.shared, id);
      RegisterClosesOnce(s.shared, id);
    case Disconnect(c) =>
      if c < |s.shared.conns| && s.shared.conns[c].live { ExitKeepsInv(s.shared, c); }
    case _ => CallsLeaveRegistrationsAlone(s, e);
  }

  lemma {:induction false} AgentsMapIsAlwaysTheLatest(events: seq<Event>)
    ensures RegistrationInv(Run(Initial, events).shared)
  {
    if events != [] {
      AgentsMapIsAlwaysTheLatest(events[..|events| - 1]);
      StepKeepsRegistrationInv(Run(Initial, events[..|events| - 1]), events[|events| - 1]);
    }
  }

  // The late cleanup of a replaced connection leaves its successor in place.
  lemma LateCleanupSparesSuccessor(events: seq<Event>, replaced: nat, successor: nat)
    requires var s := Run(Initial, events).shared;
      replaced < successor < |s.conns| && s.conns[replaced].agentID == s.conns[successor].agentID && s.conns[replaced].live
    ensures Exited(Run(Initial, events).shared, replaced).agents == Run(Initial, events).shared.agents
  {
    AgentsMapIsAlwaysTheLatest(events);
    var s := Run(Initial, events).shared;
    LatestMeans(s.conns, s.conns[replaced].agentID);
  }

  // ----- requests and results -----

  // Channels, buffered results and results on their way all carry the request id the
  // channel was made for.
  ghost predicate PendingMatched(s: Shared)
    requires s.WellFormed()
  {
    forall rid :: rid in s.pendingReqs ==> s.chans[s.pendingReqs[rid]].requestID == rid
  }

  ghost predicate BuffersMatched(chans: seq<Chan>) {
    forall k :: 0 <= k < |chans| && chans[k].buffer.Some? ==> chans[k].buffer.value.requestID == chans[k].requestID
  }

  ghost predicate DeliveriesMatched(s: Sys)
    requires WellFormed(s)
  {
    forall d :: 0 <= d < |s.deliveries| ==>
      s.deliveries[d].result.requestID == s.shared.chans[s.deliveries[d].ch].requestID
  }

  ghost predicate CallsMatched(s: Sys)
    requires WellFormed(s)
  {
    forall i :: 0 <= i < |s.calls| && InFlight(s.calls[i].phase) ==>
      s.shared.chans[s.calls[i].phase.ch].requestID == s.calls[i].requestID
  }

  ghost predicate Matched(s: Sys) {
    WellFormed(s) && PendingMatched(s.shared) && BuffersMatched(s.shared.chans) && DeliveriesMatched(s) && CallsMatched(s)
  }

  function OutcomeOf(p: Phase): Option<Outcome> {
    match p
    case Leaving(_, o) => Some(o)
    case Done(o) => Some(o)
    case _ => None
  }

  ghost predicate OwnResultsOnly(s: Sys) {
    forall i :: 0 <= i < |s.calls| && OutcomeOf(s.calls[i].phase).Some? && OutcomeOf(s.calls[i].phase).value.Returned? ==>
      OutcomeOf(s.calls[i].phase).value.result.requestID == s.calls[i].requestID
  }

  // No two calls in flight share a channel.
  ghost predicate PrivateChannels(s: Sys) {
    forall i, j :: 0 <= i < j < |s.calls| && InFlight(s.calls[i].phase) && InFlight(s.calls[j].phase) ==>
      s.calls[i].phase.ch != s.calls[j].phase.ch
  }

  // Channels are only ever added, and keep the request id they were made for.
  lemma ChannelsKeepTheirIds(s: Sys, e: Event)
    requires WellFormed(s)
    ensures var t := Step(s, e).shared;
      |s.shared.chans| <= |t.chans| &&
      forall k :: 0 <= k < |s.shared.chans| ==> t.chans[k].requestID == s.shared.chans[k].requestID
  {
  }

  lemma StepKeepsPendingMatched(s: Sys, e: Event)
    requires WellFormed(s) && WellFormed(Step(s, e)) && PendingMatched(s.shared)
    ensures PendingMatched(Step(s, e).shared)
  {
    ChannelsKeepTheirIds(s, e);
  }

  lemma StepKeepsBuffersMatched(s: Sys, e: Event)
    requires WellFormed(s) && BuffersMatched(s.shared.chans) && DeliveriesMatched(s)
    ensures BuffersMatched(Step(s, e).shared.chans)
  {
  }

  lemma StepKeepsDeliveriesMatched(s: Sys, e: Event)
    requires WellFormed(s) && WellFormed(Step(s, e)) && PendingMatched(s.shared) && DeliveriesMatched(s)
    ensures DeliveriesMatched(Step(s, e))
  {
    ChannelsKeepTheirIds(s, e);
  }

  lemma StepKeepsCallsMatched(s: Sys, e: Event)
    requires WellFormed(s) && WellFormed(Step(s, e)) && CallsMatched(s)
    ensures CallsMatched(Step(s, e))
  {
    ChannelsKeepTheirIds(s, e);
  }

  lemma StepKeepsMatched(s: Sys, e: Event)
    requires Matched(s)
    ensures Matched(Step(s, e))
  {
    StepKeepsWellFormed(s, e);
    StepKeepsPendingMatched(s, e);
    StepKeepsBuffersMatched(s, e);
    StepKeepsDeliveriesMatched(s, e);
    StepKeepsCallsMatched(s, e);
  }

  lemma StepKeepsOwnResults(s: Sys, e: Event)
    requires Matched(s) && OwnResultsOnly(s)
    ensures OwnResultsOnly(Step(s, e))
  {
  }

  lemma StepKeepsPrivate(s: Sys, e: Event)
    requires WellFormed(s) && PrivateChannels(s)
    ensures PrivateChannels(Step(s, e))
  {
  }

  lemma {:induction false} CallsGetTheirOwnResult(events: seq<Event>)
    ensures var s := Run(Initial, events);
      Matched(s) && OwnResultsOnly(s) && PrivateChannels(s)
  {
    if events != [] {
      var before := Run(Initial, events[..|events| - 1]);
      CallsGetTheirOwnResult(events[..|events| - 1]);
      StepKeepsMatched(before, events[|events| - 1]);
      StepKeepsOwnResults(before, events[|events| - 1]);
      StepKeepsPrivate(before, events[|events| - 1]);
    }
  }

  lemma OutcomeStays(s: Sys, e: Event, i: nat)
    requires WellFormed(s) && i < |s.calls| && OutcomeOf(s.calls[i].phase).Some?
    ensures i < |Step(s, e).calls| && OutcomeOf(Step(s, e).calls[i].phase) == OutcomeOf(s.calls[i].phase)
    ensures Step(s, e).calls[i].requestID == s.calls[i].requestID
  {
  }

  // An outcome, once decided, never changes, whatever happens from then on.
  lemma {:induction false} OutcomeIsFinal(s: Sys, events: seq<Event>, i: nat)
    requires WellFormed(s) && i < |s.calls| && OutcomeOf(s.calls[i].phase).Some?
    ensures var t := Run(s, events);
      i < |t.calls| && OutcomeOf(t.calls[i].phase) == OutcomeOf(s.calls[i].phase) && t.calls[i].requestID == s.calls[i].requestID
  {
    if events != [] {
      OutcomeIsFinal(s, events[..|events| - 1], i);
      OutcomeStays(Run(s, events[..|events| - 1]), events[|events| - 1], i);
    }
  }

  // The event in which call i takes a result from its channel.
  predicate Takes(s: Sys, e: Event, i: nat)
    requires WellFormed(s)
  {
    e == Receive(i) && i < |s.calls| && s.calls[i].phase.Waiting? && s.shared.chans[s.calls[i].phase.ch].buffer.Some?
  }

  ghost function TakesIn(events: seq<Event>, i: nat): nat {
    if events == [] then 0
    else
      var (front, e) := (events[..|events| - 1], events[|events| - 1]);
      TakesIn(front, i) + if Takes(Run(Initial, front), e, i) then 1 else 0
  }

  predicate HasReturned(s: Sys, i: nat) {
    i < |s.calls| && OutcomeOf(s.calls[i].phase).Some? && OutcomeOf(s.calls[i].phase).value.Returned?
  }

  lemma TakingReturns(s: Sys, e: Event, i: nat)
    requires WellFormed(s)
    ensures Takes(s, e, i) ==> !HasReturned(s, i) && HasReturned(Step(s, e), i)
    ensures !Takes(s, e, i) ==> (HasReturned(Step(s, e), i) <==> HasReturned(s, i))
  {
  }

  // In every run a call that returned a result took exactly one, and any other took none.
  lemma {:induction false} TakesAtMostOne(events: seq<Event>, i: nat)
    ensures TakesIn(events, i) == if HasReturned(Run(Initial, events), i) then 1 else 0
  {
    if events != [] {
      TakesAtMostOne(events[..|events| - 1], i);
      TakingReturns(Run(Initial, events[..|events| - 1]), events[|events| - 1], i);
    }
  }

  // ----- delivery -----

  // Call i is waiting and a result lies in its channel.
  predicate Served(s: Sys, i: nat)
    requires WellFormed(s)
  {
    i < |s.calls| && s.calls[i].phase.Waiting? && s.shared.chans[s.calls[i].phase.ch].buffer.Some?
  }

  lemma DeliverStep(s: Sys, d: nat, i: nat)
    requires Matched(s) && d < |s.deliveries| && i < |s.calls| && s.calls[i].phase == Waiting(s.deliveries[d].ch)
    ensures var (t, ch) := (Step(s, Deliver(d)), s.deliveries[d].ch);
      t.deliveries == RemoveAt(s.deliveries, d) && t.calls == s.calls && ch < |t.shared.chans| &&
      t.shared.chans[ch].buffer == (if s.shared.chans[ch].buffer.Some? then s.shared.chans[ch].buffer else Some(s.deliveries[d].result)) &&
      t.shared.chans[ch].buffer.value.requestID == s.calls[i].requestID
  {
  }

  lemma ReceiveTakes(t: Sys, i: nat, ch: nat)
    requires WellFormed(t) && i < |t.calls| && t.calls[i].phase == Waiting(ch) && ch < |t.shared.chans| && t.shared.chans[ch].buffer.Some?
    ensures i < |Step(t, Receive(i)).calls|
    ensures OutcomeOf(Step(t, Receive(i)).calls[i].phase) == Some(Returned(t.shared.chans[ch].buffer.value))
    ensures ch < |Step(t, Receive(i)).shared.chans| && Step(t, Receive(i)).shared.chans[ch].buffer == None
  {
  }

  // In every run a read loop gets rid of its result in one step, even when the channel is
  // full; afterwards the waiting call has a result with its own id in the channel, the one
  // delivered unless another was there before. Taking it is the call's outcome, and empties
  // the channel.
  lemma DeliveryNeverBlocks(events: seq<Event>, d: nat, i: nat)
    requires var s := Run(Initial, events);
      d < |s.deliveries| && i < |s.calls| && s.calls[i].phase == Waiting(s.deliveries[d].ch)
    ensures var (s, t) := (Run(Initial, events), Run(Initial, events + [Deliver(d)])); var ch := s.deliveries[d].ch;
      t.deliveries == RemoveAt(s.deliveries, d) && Served(t, i) && t.calls == s.calls &&
      t.shared.chans[ch].buffer.value.requestID == s.calls[i].requestID &&
      (s.shared.chans[ch].buffer.None? ==> t.shared.chans[ch].buffer == Some(s.deliveries[d].result)) &&
      (s.shared.chans[ch].buffer.Some? ==> Served(s, i) && t.shared.chans[ch].buffer == s.shared.chans[ch].buffer)
    ensures var t := Run(Initial, events + [Deliver(d)]);
      OutcomeOf(Step(t, Receive(i)).calls[i].phase) ==
        Some(Returned(t.shared.chans[Run(Initial, events).deliveries[d].ch].buffer.value)) &&
      Step(t, Receive(i)).shared.chans[Run(Initial, events).deliveries[d].ch].buffer == None
  {
    CallsGetTheirOwnResult(events);
    RunOneMore(events, Deliver(d));
    DeliverStep(Run(Initial, events), d, i);
    ReceiveTakes(Run(Initial, events + [Deliver(d)]), i, Run(Initial, events).deliveries[d].ch);
  }

  lemma RunOneMore(events: seq<Event>, e: Event)
    ensures Run(Initial, events + [e]) == Step(Run(Initial, events), e)
  {
    assert (events + [e])[..|events|] == events;
  }

  // Call i has an outcome in t, or still waits on its channel, which holds what it held.
  predicate StillServed(s: Sys, t: Sys, i: nat)
    requires WellFormed(s) && Served(s, i)
  {
    var ch := s.calls[i].phase.ch;
    i < |t.calls| &&
    (OutcomeOf(t.calls[i].phase).Some? ||
     (t.calls[i] == s.calls[i] && ch < |t.shared.chans| && t.shared.chans[ch].buffer == s.shared.chans[ch].buffer))
  }

  lemma ServedStep(s: Sys, e: Event, i: nat)
    requires WellFormed(s) && PrivateChannels(s) && Served(s, i)
    ensures StillServed(s, Step(s, e), i)
  {
  }

  // A result in the channel of a waiting call is not lost: it stays there until the call
  // has an outcome.
  lemma {:induction false} ResultWaitsForTheCall(s: Sys, events: seq<Event>, i: nat)
    requires WellFormed(s) && PrivateChannels(s) && Served(s, i)
    ensures StillServed(s, Run(s, events), i) && PrivateChannels(Run(s, events))
  {
    if events != [] {
      var (before, e) := (Run(s, events[..|events| - 1]), events[|events| - 1]);
      ResultWaitsForTheCall(s, events[..|events| - 1], i);
      StepKeepsPrivate(before, e);
      if OutcomeOf(before.calls[i].phase).Some? {
        OutcomeStays(before, e, i);
      } else {
        ServedStep(before, e, i);
      }
    }
  }

  // ----- the pending map -----

  predicate HasPending(s: Sys, i: nat, rid: string) {
    i < |s.calls| && InFlight(s.calls[i].phase) && s.calls[i].requestID == rid
  }

  ghost predicate DistinctInFlight(s: Sys) {
    forall i: nat, j: nat, rid :: HasPending(s, i, rid) && HasPending(s, j, rid) ==> i == j
  }

  // pendingReqs holds the channel of every call in flight, and nothing else.
  ghost predicate PendingExact(s: Sys) {
    (forall i: nat, rid :: HasPending(s, i, rid) ==> rid in s.shared.pendingReqs && s.shared.pendingReqs[rid] == s.calls[i].phase.ch) &&
    (forall rid :: rid in s.shared.pendingReqs ==> exists i: nat :: HasPending(s, i, rid))
  }

  // Only registering a call and its cleanup change who is in flight, or the map.
  lemma OtherStepsKeepPending(s: Sys, e: Event)
    requires WellFormed(s) && !e.AddPending? && !e.Cleanup?
    ensures Step(s, e).shared.pendingReqs == s.shared.pendingReqs
    ensures forall i: nat, rid :: HasPending(Step(s, e), i, rid) <==> HasPending(s, i, rid)
    ensures forall i: nat, rid :: HasPending(s, i, rid) ==> Step(s, e).calls[i].phase.ch == s.calls[i].phase.ch
  {
  }

  lemma AddPendingKeepsExact(s: Sys, c: nat)
    requires WellFormed(s) && PendingExact(s) && DistinctInFlight(Step(s, AddPending(c)))
    requires c < |s.calls| && s.calls[c].phase.Found?
    ensures PendingExact(Step(s, AddPending(c)))
  {
    var t := Step(s, AddPending(c));
    assert HasPending(t, c, s.calls[c].requestID);
    forall rid | rid in t.shared.pendingReqs ensures exists i: nat :: HasPending(t, i, rid) {
      if rid != s.calls[c].requestID {
        var i: nat :| HasPending(s, i, rid);
        assert HasPending(t, i, rid);
      }
    }
    forall i: nat, rid | HasPending(t, i, rid) && i != c ensures HasPending(s, i, rid) && rid != s.calls[c].requestID {
    }
  }

  lemma CleanupKeepsExact(s: Sys, c: nat)
    requires WellFormed(s) && PendingExact(s) && DistinctInFlight(s)
    requires c < |s.calls| && s.calls[c].phase.Leaving?
    ensures PendingExact(Step(s, Cleanup(c)))
  {
    var t := Step(s, Cleanup(c));
    assert HasPending(s, c, s.calls[c].requestID);
    forall rid | rid in t.shared.pendingReqs ensures exists i: nat :: HasPending(t, i, rid) {
      var i: nat :| HasPending(s, i, rid);
      assert HasPending(t, i, rid);
    }
    forall i: nat, rid | HasPending(t, i, rid) ensures HasPending(s, i, rid) && rid != s.calls[c].requestID {
      assert i != c && HasPending(s, i, rid);
    }
  }

  lemma StepKeepsPending(s: Sys, e: Event)
    requires WellFormed(s) && PendingExact(s) && DistinctInFlight(s) && DistinctInFlight(Step(s, e))
    ensures PendingExact(Step(s, e))
  {
    match e
    case AddPending(c) => if c < |s.calls| && s.calls[c].phase.Found? { AddPendingKeepsExact(s, c); }
    case Cleanup(c) => if c < |s.calls| && s.calls[c].phase.Leaving? { CleanupKeepsExact(s, c); }
    case _ =>
      OtherStepsKeepPending(s, e);
      forall rid | rid in s.shared.pendingReqs ensures exists i: nat :: HasPending(Step(s, e), i, rid) {
        var i: nat :| HasPending(s, i, rid);
        assert HasPending(Step(s, e), i, rid);
      }
  }

  // Along a run, the map is exact at every moment if and only if no two calls in flight
  // ever carry the same request id.
  lemma {:induction false} PendingExactIffDistinct(events: seq<Event>)
    ensures (forall n :: 0 <= n <= |events| ==> PendingExact(Run(Initial, events[..n]))) <==>
            (forall n :: 0 <= n <= |events| ==> DistinctInFlight(Run(Initial, events[..n])))
  {
    if forall n :: 0 <= n <= |events| ==> DistinctInFlight(Run(Initial, events[..n])) {
      forall n | 0 <= n <= |events| ensures PendingExact(Run(Initial, events[..n])) {
        ExactWhileDistinct(events, n);
      }
    }
    if forall n :: 0 <= n <= |events| ==> PendingExact(Run(Initial, events[..n])) {
      forall n | 0 <= n <= |events| ensures DistinctInFlight(Run(Initial, events[..n])) {
        CallsGetTheirOwnResult(events[..n]);
        ExactMeansDistinct(Run(Initial, events[..n]));
      }
    }
  }

  lemma ExactMeansDistinct(s: Sys)
    requires PendingExact(s) && PrivateChannels(s)
    ensures DistinctInFlight(s)
  {
    forall i: nat, j: nat, rid | HasPending(s, i, rid) && HasPending(s, j, rid) ensures i == j {
      assert s.calls[i].phase.ch == s.calls[j].phase.ch;
    }
  }

  lemma {:induction false} ExactWhileDistinct(events: seq<Event>, n: nat)
    requires n <= |events|
    requires forall k :: 0 <= k <= n ==> DistinctInFlight(Run(Initial, events[..k]))
    ensures PendingExact(Run(Initial, events[..n]))
    decreases n
  {
    if n > 0 {
      assert events[..n][..n - 1] == events[..n - 1];
      ExactWhileDistinct(events, n - 1);
      StepKeepsPending(Run(Initial, events[..n - 1]), events[n - 1]);
    }
  }

  // ----- what a shared request id costs -----

  // Nothing in the system can still put a result into the call's channel.
  ghost predicate Stranded(s: Sys, i: nat) {
    WellFormed(s) && i < |s.calls| && s.calls[i].phase.Waiting? &&
    s.shared.chans[s.calls[i].phase.ch].buffer.None? &&
    (forall d :: 0 <= d < |s.deliveries| ==> s.deliveries[d].ch != s.calls[i].phase.ch) &&
    (forall rid :: rid in s.shared.pendingReqs ==> s.shared.pendingReqs[rid] != s.calls[i].phase.ch)
  }

  ghost predicate NeverReturns(s: Sys, i: nat) {
    i < |s.calls| && !(OutcomeOf(s.calls[i].phase).Some? && OutcomeOf(s.calls[i].phase).value.Returned?)
  }

  lemma StrandedSharedStep(s: Sys, e: Event, i: nat)
    requires Stranded(s, i) && PrivateChannels(s)
    ensures var t := Step(s, e); var ch := s.calls[i].phase.ch;
      WellFormed(t) && ch < |t.shared.chans| && t.shared.chans[ch].buffer.None? &&
      (forall d :: 0 <= d < |t.deliveries| ==> t.deliveries[d].ch != ch) &&
      (forall rid :: rid in t.shared.pendingReqs ==> t.shared.pendingReqs[rid] != ch)
  {
    StepKeepsWellFormed(s, e);
  }

  lemma StrandedStep(s: Sys, e: Event, i: nat)
    requires Stranded(s, i) && PrivateChannels(s)
    ensures Stranded(Step(s, e), i) || (NeverReturns(Step(s, e), i) && OutcomeOf(Step(s, e).calls[i].phase).Some?)
  {
    StrandedSharedStep(s, e, i);
  }

  // A stranded call can only time out or be cancelled, whatever results still arrive.
  lemma {:induction false} StrandedForever(s: Sys, i: nat, events: seq<Event>)
    requires Stranded(s, i) && PrivateChannels(s)
    ensures NeverReturns(Run(s, events), i) && PrivateChannels(Run(s, events))
    ensures Stranded(Run(s, events), i) || OutcomeOf(Run(s, events).calls[i].phase).Some?
  {
    if events != [] {
      var before := Run(s, events[..|events| - 1]);
      StrandedForever(s, i, events[..|events| - 1]);
      StepKeepsPrivate(before, events[|events| - 1]);
      if OutcomeOf(before.calls[i].phase).Some? {
        OutcomeStays(before, events[|events| - 1], i);
      } else {
        StrandedStep(before, events[|events| - 1], i);
      }
    }
  }

  // ----- a run of eight steps in which that happens -----

  function OneChannel(rid: string, id: string): Shared {
    Shared(map[id := 0], [Conn(id, 0, true)], map[rid := 0], [Chan(rid, None)])
  }

  function TwoChannels(rid: string, id: string): Shared {
    Shared(map[id := 0], [Conn(id, 0, true)], map[rid := 1], [Chan(rid, None), Chan(rid, None)])
  }

  function Connected(id: string): Shared {
    Shared(map[id := 0], [Conn(id, 0, true)], map[], [])
  }

  lemma ConnectStep(id: string)
    ensures Step(Initial, Connect(id)) == Sys(Connected(id), [], [])
  {
  }

  lemma StartStep(shared: Shared, calls: seq<Call>, rid: string, id: string)
    requires WellFormed(Sys(shared, calls, [])) && id in shared.agents
    ensures Step(Sys(shared, calls, []), Start(rid, id)) == Sys(shared, calls + [Call(rid, Found)], [])
  {
  }

  lemma FirstAddStep(rid: string, id: string)
    ensures Step(Sys(Connected(id), [Call(rid, Found)], []), AddPending(0)) == Sys(OneChannel(rid, id), [Call(rid, Sending(0))], [])
  {
  }

  lemma FirstSendStep(rid: string, id: string)
    ensures Step(Sys(OneChannel(rid, id), [Call(rid, Sending(0))], []), Send(0, true)) ==
      Sys(OneChannel(rid, id), [Call(rid, Waiting(0))], [])
  {
  }

  lemma SecondAddStep(rid: string, id: string)
    ensures Step(Sys(OneChannel(rid, id), [Call(rid, Waiting(0)), Call(rid, Found)], []), AddPending(1)) ==
      Sys(TwoChannels(rid, id), [Call(rid, Waiting(0)), Call(rid, Sending(1))], [])
  {
  }

  lemma SecondSendStep(rid: string, id: string)
    ensures Step(Sys(TwoChannels(rid, id), [Call(rid, Waiting(0)), Call(rid, Sending(1))], []), Send(1, false)) ==
      Sys(TwoChannels(rid, id), [Call(rid, Waiting(0)), Call(rid, Leaving(1, SendFailed))], [])
  {
  }

  lemma SecondCleanupStep(rid: string, id: string)
    ensures Stranded(Step(Sys(TwoChannels(rid, id), [Call(rid, Waiting(0)), Call(rid, Leaving(1, SendFailed))], []), Cleanup(1)), 0)
  {
  }

  lemma Extend(events: seq<Event>, e: Event, s: Sys, t: Sys)
    requires WellFormed(s) && Run(Initial, events) == s && Step(s, e) == t
    ensures Run(Initial, events + [e]) == t
  {
    RunOneMore(events, e);
  }

  function FirstCall(rid: string, id: string): seq<Event> {
    [] + [Connect(id)] + [Start(rid, id)] + [AddPending(0)] + [Send(0, true)]
  }

  lemma FirstCallWaits(rid: string, id: string)
    ensures Run(Initial, FirstCall(rid, id)) == Sys(OneChannel(rid, id), [Call(rid, Waiting(0))], [])
  {
    ConnectStep(id);
    Extend([], Connect(id), Initial, Sys(Connected(id), [], []));
    StartStep(Connected(id), [], rid, id);
    Extend([] + [Connect(id)], Start(rid, id), Sys(Connected(id), [], []), Sys(Connected(id), [] + [Call(rid, Found)], []));
    FirstAddStep(rid, id);
    Extend([] + [Connect(id)] + [Start(rid, id)], AddPending(0), Sys(Connected(id), [Call(rid, Found)], []),
           Sys(OneChannel(rid, id), [Call(rid, Sending(0))], []));
    FirstSendStep(rid, id);
    Extend([] + [Connect(id)] + [Start(rid, id)] + [AddPending(0)], Send(0, true),
           Sys(OneChannel(rid, id), [Call(rid, Sending(0))], []), Sys(OneChannel(rid, id), [Call(rid, Waiting(0))], []));
  }

  lemma SecondCallLeaves(events: seq<Event>, rid: string, id: string)
    requires Run(Initial, events) == Sys(OneChannel(rid, id), [Call(rid, Waiting(0))], [])
    ensures Stranded(Run(Initial, events + [Start(rid, id)] + [AddPending(1)] + [Send(1, false)] + [Cleanup(1)]), 0)
  {
    var (one, two, first) := (OneChannel(rid, id), TwoChannels(rid, id), Call(rid, Waiting(0)));
    StartStep(one, [first], rid, id);
    Extend(events, Start(rid, id), Sys(one, [first], []), Sys(one, [first] + [Call(rid, Found)], []));
    SecondAddStep(rid, id);
    Extend(events + [Start(rid, id)], AddPending(1), Sys(one, [first, Call(rid, Found)], []), Sys(two, [first, Call(rid, Sending(1))], []));
    SecondSendStep(rid, id);
    Extend(events + [Start(rid, id)] + [AddPending(1)], Send(1, false), Sys(two, [first, Call(rid, Sending(1))], []),
           Sys(two, [first, Call(rid, Leaving(1, SendFailed))], []));
    SecondCleanupStep(rid, id);
    RunOneMore(events + [Start(rid, id)] + [AddPending(1)] + [Send(1, false)], Cleanup(1));
  }

  // Two calls with the same id: the second one's cleanup strands the first.
  lemma SharedIdStrandsTheFirstCall(rid: string, id: string)
    ensures Stranded(Run(Initial, FirstCall(rid, id) + [Start(rid, id)] + [AddPending(1)] + [Send(1, false)] + [Cleanup(1)]), 0)
  {
    FirstCallWaits(rid, id);
    SecondCallLeaves(FirstCall(rid, id), rid, id);
  }
}
