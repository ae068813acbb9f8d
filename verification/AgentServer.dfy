// The agent connection server of internal/agentexec/server.go. Every critical section of
// Server.mu is one step; connections and response channels are numbered, the numbers
// standing for the pointers the Go maps hold. Other handlers run freely between steps.
module AgentServer {
  import opened Prelude

  datatype CommandResult = CommandResult(
    requestID: string, success: bool, stdout: string, stderr: string, exitCode: int, error: string, duration: int)

  // An agent connection: how often its done channel was closed (a second close panics),
  // and whether its read loop is still running.
  datatype Conn = Conn(agentID: string, closes: nat, live: bool)

  // A response channel with room for one result.
  datatype Chan = Chan(requestID: string, buffer: Option<CommandResult>)

  // What the lock protects, plus the objects the maps point to.
  datatype Shared = Shared(
    agents: map<string, nat>,
    conns: seq<Conn>,
    pendingReqs: map<string, nat>,
    chans: seq<Chan>)
  {
    predicate WellFormed() {
      (forall id :: id in agents ==> agents[id] < |conns|) &&
      (forall rid :: rid in pendingReqs ==> pendingReqs[rid] < |chans|)
    }
  }

  const Empty := Shared(map[], [], map[], [])

  // server.go:162-169
  function Registered(s: Shared, agentID: string): Shared
    requires s.WellFormed()
  {
    var closed :=
      if agentID in s.agents
      then var e := s.agents[agentID]; s.conns[e := s.conns[e].(closes := s.conns[e].closes + 1)]
      else s.conns;
    s.(agents := s.agents[agentID := |s.conns|], conns := closed + [Conn(agentID, 0, true)])
  }

  // server.go:198-204
  function Exited(s: Shared, c: nat): Shared
    requires c < |s.conns|
  {
    var id := s.conns[c].agentID;
    var gone := s.(conns := s.conns[c := s.conns[c].(live := false)]);
    if id in s.agents && s.agents[id] == c then gone.(agents := s.agents - {id}) else gone
  }

  // server.go:332-335 and 386-389
  function Awaiting(s: Shared, requestID: string): Shared {
    s.(pendingReqs := s.pendingReqs[requestID := |s.chans|], chans := s.chans + [Chan(requestID, None)])
  }

  // server.go:337-341 and 391-395
  function Forgotten(s: Shared, requestID: string): Shared {
    s.(pendingReqs := s.pendingReqs - {requestID})
  }

  // server.go:255-259: the send that is dropped when the channel is full
  function Offered(s: Shared, ch: nat, result: CommandResult): Shared
    requires ch < |s.chans|
  {
    if s.chans[ch].buffer.None? then s.(chans := s.chans[ch := s.chans[ch].(buffer := Some(result))]) else s
  }

  function Taken(s: Shared, ch: nat): Shared
    requires ch < |s.chans|
  {
    s.(chans := s.chans[ch := s.chans[ch].(buffer := None)])
  }

  class Server {
    var agents: map<string, nat>
    var conns: seq<Conn>
    var pendingReqs: map<string, nat>
    var chans: seq<Chan>

    ghost function Contents(): Shared
      reads this
    {
      Shared(agents, conns, pendingReqs, chans)
    }

    constructor ()
      ensures Contents() == Empty
    {
      agents, conns, pendingReqs, chans := map[], [], map[], [];
    }

    method Register(agentID: string) returns (ac: nat)
      requires Contents().WellFormed()
      modifies this
      ensures Contents() == Registered(old(Contents()), agentID) && Contents().WellFormed()
      ensures ac == |old(conns)|
    {
      if agentID in agents {
        var existing := agents[agentID];
        conns := conns[existing := conns[existing].(closes := conns[existing].closes + 1)];
      }
      ac := |conns|;
      conns := conns + [Conn(agentID, 0, true)];
      agents := agents[agentID := ac];
    }

    method ExitReadLoop(ac: nat)
      requires Contents().WellFormed() && ac < |conns|
      modifies this
      ensures Contents() == Exited(old(Contents()), ac) && Contents().WellFormed()
    {
      var id := conns[ac].agentID;
      if id in agents && agents[id] == ac {
        agents := agents - {id};
      }
      conns := conns[ac := conns[ac].(live := false)];
    }

    method AddPending(requestID: string) returns (respCh: nat)
      requires Contents().WellFormed()
      modifies this
      ensures Contents() == Awaiting(old(Contents()), requestID) && Contents().WellFormed()
      ensures respCh == |old(chans)|
    {
      respCh := |chans|;
      chans := chans + [Chan(requestID, None)];
      pendingReqs := pendingReqs[requestID := respCh];
    }

    method RemovePending(requestID: string)
      requires Contents().WellFormed()
      modifies this
      ensures Contents() == Forgotten(old(Contents()), requestID) && Contents().WellFormed()
    {
      pendingReqs := pendingReqs - {requestID};
    }

    method LookupPending(result: CommandResult) returns (ch: Option<nat>)
      ensures ch == if result.requestID in pendingReqs then Some(pendingReqs[result.requestID]) else None
    {
      ch := None;
      if result.requestID in pendingReqs {
        ch := Some(pendingReqs[result.requestID]);
      }
    }

    // Never waits: a full channel drops the result.
    method TrySend(ch: nat, result: CommandResult) returns (sent: bool)
      requires Contents().WellFormed() && ch < |chans|
      modifies this
      ensures Contents() == Offered(old(Contents()), ch, result) && Contents().WellFormed()
      ensures sent <==> old(chans[ch].buffer.None?)
    {
      sent := false;
      if chans[ch].buffer.None? {
        chans := chans[ch := chans[ch].(buffer := Some(result))];
        sent := true;
      }
    }

    method Receive(ch: nat) returns (result: Option<CommandResult>)
      requires Contents().WellFormed() && ch < |chans|
      modifies this
      ensures Contents() == Taken(old(Contents()), ch) && Contents().WellFormed()
      ensures result == old(chans[ch].buffer)
    {
      result := chans[ch].buffer;
      chans := chans[ch := chans[ch].(buffer := None)];
    }
  }
}
