// Where the outcome of a call comes from, in every interleaving
// (internal/agentexec/server.go:150-400).
module AgentResults {
  import opened Prelude
  import opened AgentServer
  import opened AgentServerRuns

  // ----- results -----

  ghost predicate BufferedArrived(chans: seq<Chan>, events: seq<Event>) {
    forall k :: 0 <= k < |chans| && chans[k].buffer.Some? ==> ResultArrives(chans[k].buffer.value) in events
  }

  ghost predicate DeliveriesArrived(ds: seq<Delivery>, events: seq<Event>) {
    forall d :: 0 <= d < |ds| ==> ResultArrives(ds[d].result) in events
  }

  ghost predicate ReturnedArrived(calls: seq<Call>, events: seq<Event>) {
    forall i, r :: 0 <= i < |calls| && OutcomeOf(calls[i].phase) == Some(Returned(r)) ==> ResultArrives(r) in events
  }

  // Every result in a channel, on its way to one or returned by a call arrived before.
  ghost predicate AllArrived(s: Sys, events: seq<Event>) {
    BufferedArrived(s.shared.chans, events) && DeliveriesArrived(s.deliveries, events) && ReturnedArrived(s.calls, events)
  }

  lemma StepKeepsBuffered(s: Sys, events: seq<Event>, e: Event)
    requires WellFormed(s) && BufferedArrived(s.shared.chans, events) && DeliveriesArrived(s.deliveries, events)
    ensures BufferedArrived(Step(s, e).shared.chans, events + [e])
  {
  }

  lemma StepKeepsDeliveries(s: Sys, events: seq<Event>, e: Event)
    requires WellFormed(s) && DeliveriesArrived(s.deliveries, events)
    ensures DeliveriesArrived(Step(s, e).deliveries, events + [e])
  {
    assert e in events + [e];
  }

  lemma StepKeepsReturned(s: Sys, events: seq<Event>, e: Event)
    requires WellFormed(s) && BufferedArrived(s.shared.chans, events) && ReturnedArrived(s.calls, events)
    ensures ReturnedArrived(Step(s, e).calls, events + [e])
  {
  }

  lemma StepKeepsArrived(s: Sys, events: seq<Event>, e: Event)
    requires WellFormed(s) && AllArrived(s, events)
    ensures AllArrived(Step(s, e), events + [e])
  {
    StepKeepsBuffered(s, events, e);
    StepKeepsDeliveries(s, events, e);
    StepKeepsReturned(s, events, e);
  }

  lemma {:induction false} ResultsArrived(events: seq<Event>)
    ensures AllArrived(Run(Initial, events), events)
  {
    if events != [] {
      var (front, e) := (events[..|events| - 1], events[|events| - 1]);
      ResultsArrived(front);
      StepKeepsArrived(Run(Initial, front), front, e);
      assert front + [e] == events;
    }
  }

  // ----- outcomes -----

  // What must have happened for call i to end this way.
  ghost predicate Accounts(o: Outcome, i: nat, requestID: string, events: seq<Event>) {
    match o
    case Returned(r) => Receive(i) in events && ResultArrives(r) in events && r.requestID == requestID
    case NotConnected => exists id :: Start(requestID, id) in events
    case SendFailed => Send(i, false) in events
    case TimedOut => GiveUp(i, false) in events
    case Cancelled => GiveUp(i, true) in events
  }

  ghost predicate AllAccounted(s: Sys, events: seq<Event>) {
    forall i: nat :: i < |s.calls| && OutcomeOf(s.calls[i].phase).Some? ==>
      Accounts(OutcomeOf(s.calls[i].phase).value, i, s.calls[i].requestID, events)
  }

  lemma StaysAccounted(o: Outcome, i: nat, requestID: string, events: seq<Event>, e: Event)
    requires Accounts(o, i, requestID, events)
    ensures Accounts(o, i, requestID, events + [e])
  {
    if o.NotConnected? {
      var id :| Start(requestID, id) in events;
      assert Start(requestID, id) in events + [e];
    }
  }

  lemma OutcomeAccounted(s: Sys, events: seq<Event>, e: Event, i: nat)
    requires Matched(s) && AllArrived(s, events) && i < |Step(s, e).calls| && OutcomeOf(Step(s, e).calls[i].phase).Some?
    requires i < |s.calls| ==> OutcomeOf(s.calls[i].phase).None?
    ensures Accounts(OutcomeOf(Step(s, e).calls[i].phase).value, i, Step(s, e).calls[i].requestID, events + [e])
  {
    assert e in events + [e];
  }

  lemma StepKeepsAccounted(s: Sys, events: seq<Event>, e: Event)
    requires Matched(s) && AllArrived(s, events) && AllAccounted(s, events)
    ensures AllAccounted(Step(s, e), events + [e])
  {
    forall i: nat | i < |Step(s, e).calls| && OutcomeOf(Step(s, e).calls[i].phase).Some?
      ensures Accounts(OutcomeOf(Step(s, e).calls[i].phase).value, i, Step(s, e).calls[i].requestID, events + [e])
    {
      if i < |s.calls| && OutcomeOf(s.calls[i].phase).Some? {
        OutcomeStays(s, e, i);
        StaysAccounted(OutcomeOf(s.calls[i].phase).value, i, s.calls[i].requestID, events, e);
      } else {
        OutcomeAccounted(s, events, e, i);
      }
    }
  }

  // In every run a call returns only a result that arrived with its own request id, and fails
  // for the reason it names: its send failed, it timed out, it was cancelled, or its agent was
  // not there when it started.
  lemma {:induction false} OutcomesAreAccounted(events: seq<Event>)
    ensures AllAccounted(Run(Initial, events), events)
  {
    if events != [] {
      var (front, e) := (events[..|events| - 1], events[|events| - 1]);
      OutcomesAreAccounted(front);
      ResultsArrived(front);
      CallsGetTheirOwnResult(front);
      StepKeepsAccounted(Run(Initial, front), front, e);
      assert front + [e] == events;
    }
  }

  // ----- who is connected -----

  // The read loop of the connection made last for the agent is still running.
  ghost predicate Connected(conns: seq<Conn>, id: string) {
    exists c :: IsLatest(conns, id, c) && conns[c].live
  }

  predicate IsLatest(conns: seq<Conn>, id: string, c: int) {
    0 <= c < |conns| && conns[c].agentID == id && forall later :: c < later < |conns| ==> conns[later].agentID != id
  }

  lemma LatestIsOne(conns: seq<Conn>, id: string, c: int, d: int)
    requires IsLatest(conns, id, c) && IsLatest(conns, id, d)
    ensures c == d
  {
  }

  lemma ConnectedMeans(conns: seq<Conn>, id: string)
    ensures Connected(conns, id) <==> Latest(conns, id) >= 0 && conns[Latest(conns, id)].live
  {
    var c := Latest(conns, id);
    LatestMeans(conns, id);
    assert c >= 0 ==> IsLatest(conns, id, c);
    if d :| IsLatest(conns, id, d) && conns[d].live {
      if c >= 0 {
        LatestIsOne(conns, id, c, d);
      }
    }
  }

  lemma InMapIffConnected(agents: map<string, nat>, conns: seq<Conn>, id: string)
    requires AgentsAreLatest(agents, conns)
    ensures id in agents <==> Connected(conns, id)
  {
    ConnectedMeans(conns, id);
  }

  lemma StartAdds(s: Sys, requestID: string, id: string)
    requires WellFormed(s)
    ensures Step(s, Start(requestID, id)).calls ==
      s.calls + [Call(requestID, if id in s.shared.agents then Found else Done(NotConnected))]
  {
  }

  // In every run a call is refused exactly when the agent's latest connection is gone.
  lemma RefusedIffNotConnected(events: seq<Event>, requestID: string, id: string)
    ensures var s := Run(Initial, events);
      Step(s, Start(requestID, id)).calls ==
        s.calls + [Call(requestID, if Connected(s.shared.conns, id) then Found else Done(NotConnected))]
  {
    var s := Run(Initial, events);
    AgentsMapIsAlwaysTheLatest(events);
    InMapIffConnected(s.shared.agents, s.shared.conns, id);
    StartAdds(s, requestID, id);
  }
}
