// The live stream fan-out of internal/ai/patrol_run.go:1118-1225. Channels are numbered;
// a channel remembers everything ever sent on it and how much its reader has taken, so
// its buffer is the rest.
module PatrolStream {
  datatype StreamEvent =
    | PhaseEvent(phase: string)
    | ContentEvent(content: string)
    | OtherEvent(kind: string, payload: string)

  const CAPACITY: nat := 100
  const IDLE: string := "idle"

  datatype Chan = Chan(sent: seq<StreamEvent>, taken: nat, claimed: bool, closes: nat)
  {
    // A send in a select with a default goes through exactly when there is room.
    predicate Room() {
      |sent| - taken < CAPACITY
    }

    function Send(e: StreamEvent): Chan {
      this.(sent := sent + [e])
    }

    // closed.CompareAndSwap(false, true), then close(ch): only the first caller closes.
    function Close(): Chan {
      if claimed then this else this.(claimed := true, closes := closes + 1)
    }
  }

  datatype Stream = Stream(subscribers: set<nat>, output: string, phase: string, chans: seq<Chan>)
  {
    predicate WellFormed() {
      forall ch :: ch in subscribers ==> ch < |chans|
    }
  }

  const Fresh := Stream({}, "", IDLE, [])

  // What a subscriber finds in its channel when it joins.
  function CatchUp(output: string, phase: string): (events: seq<StreamEvent>)
    ensures |events| <= 2
  {
    if phase == IDLE then []
    else [PhaseEvent(phase)] + (if |output| > 0 then [ContentEvent(output)] else [])
  }

  function Subscribed(s: Stream): Stream {
    s.(subscribers := s.subscribers + {|s.chans|},
       chans := s.chans + [Chan(CatchUp(s.output, s.phase), 0, false, 0)])
  }

  function Detached(s: Stream, ch: nat): Stream {
    s.(subscribers := s.subscribers - {ch})
  }

  function Closed(s: Stream, ch: nat): Stream
    requires ch < |s.chans|
  {
    s.(chans := s.chans[ch := s.chans[ch].Close()])
  }

  // Every subscriber with room gets the event; every other one is dropped and closed.
  ghost predicate IsBroadcast(s: Stream, e: StreamEvent, t: Stream)
    requires s.WellFormed()
  {
    t.output == s.output && t.phase == s.phase && |t.chans| == |s.chans| &&
    (forall ch :: ch in t.subscribers <==> ch in s.subscribers && s.chans[ch].Room()) &&
    (forall ch: nat :: ch < |s.chans| ==>
      t.chans[ch] ==
        if ch !in s.subscribers then s.chans[ch]
        else if s.chans[ch].Room() then s.chans[ch].Send(e)
        else s.chans[ch].Close())
  }

  function Broadcasted(s: Stream, e: StreamEvent): (t: Stream)
    requires s.WellFormed()
    ensures IsBroadcast(s, e, t)
  {
    Stream((set ch | ch in s.subscribers && s.chans[ch].Room()), s.output, s.phase,
           seq(|s.chans|, ch requires 0 <= ch < |s.chans| =>
             if ch !in s.subscribers then s.chans[ch]
             else if s.chans[ch].Room() then s.chans[ch].Send(e)
             else s.chans[ch].Close()))
  }

  lemma BroadcastIsDetermined(s: Stream, e: StreamEvent, t: Stream)
    requires s.WellFormed() && IsBroadcast(s, e, t)
    ensures t == Broadcasted(s, e)
  {
    var u := Broadcasted(s, e);
    assert t.subscribers == u.subscribers;
    assert t.chans == u.chans;
  }

  function Written(s: Stream, text: string): Stream {
    s.(output := s.output + text)
  }

  function PhaseChanged(s: Stream, phase: string): Stream {
    s.(phase := phase, output := if phase == IDLE then "" else s.output)
  }

  class PatrolStreamer {
    var subscribers: set<nat>
    var currentOutput: string
    var streamPhase: string
    var chans: seq<Chan>

    ghost function Contents(): Stream
      reads this
    {
      Stream(subscribers, currentOutput, streamPhase, chans)
    }

    constructor ()
      ensures Contents() == Fresh
    {
      subscribers, currentOutput, streamPhase, chans := {}, "", IDLE, [];
    }

    // The two sends on the new channel find an empty buffer, so they cannot block.
    method SubscribeToStream() returns (ch: nat)
      requires Contents().WellFormed()
      modifies this
      ensures Contents() == Subscribed(old(Contents())) && Contents().WellFormed()
      ensures ch == |old(chans)|
    {
      ch := |chans|;
      var sub := Chan([], 0, false, 0);
      subscribers := subscribers + {ch};
      if streamPhase != IDLE {
        assert sub.Room();
        sub := sub.Send(PhaseEvent(streamPhase));
        if |currentOutput| > 0 {
          assert sub.Room();
          sub := sub.Send(ContentEvent(currentOutput));
        }
      }
      assert sub.sent == CatchUp(currentOutput, streamPhase);
      chans := chans + [sub];
    }

    method Detach(ch: nat) returns (existed: bool)
      requires Contents().WellFormed()
      modifies this
      ensures Contents() == Detached(old(Contents()), ch) && Contents().WellFormed()
      ensures existed <==> ch in old(subscribers)
    {
      existed := ch in subscribers;
      subscribers := subscribers - {ch};
    }

    method CloseOnce(ch: nat)
      requires Contents().WellFormed() && ch < |chans|
      modifies this
      ensures Contents() == Closed(old(Contents()), ch) && Contents().WellFormed()
    {
      if !chans[ch].claimed {
        chans := chans[ch := chans[ch].(claimed := true, closes := chans[ch].closes + 1)];
      }
    }

    method UnsubscribeFromStream(ch: nat)
      requires Contents().WellFormed() && ch < |chans|
      modifies this
      ensures Contents() == if ch in old(subscribers) then Closed(Detached(old(Contents()), ch), ch) else old(Contents())
    {
      var existed := Detach(ch);
      if existed {
        CloseOnce(ch);
      } else {
        assert subscribers == old(subscribers);
      }
    }

    // First the sends, in any order; then the channels found full are removed and closed.
    method Broadcast(event: StreamEvent)
      requires Contents().WellFormed()
      modifies this
      ensures Contents() == Broadcasted(old(Contents()), event) && Contents().WellFormed()
    {
      ghost var s := Contents();
      var todo := subscribers;
      var stale: set<nat> := {};
      while todo != {}
        invariant todo <= subscribers == s.subscribers
        invariant currentOutput == s.output && streamPhase == s.phase && |chans| == |s.chans|
        invariant forall ch :: ch in stale <==> ch in subscribers && ch !in todo && !s.chans[ch].Room()
        invariant forall ch: nat :: ch < |chans| ==>
          chans[ch] == if ch in subscribers && ch !in todo && s.chans[ch].Room() then s.chans[ch].Send(event) else s.chans[ch]
        decreases todo
      {
        var ch :| ch in todo;
        if chans[ch].Room() {
          chans := chans[ch := chans[ch].Send(event)];
        } else {
          stale := stale + {ch};
        }
        todo := todo - {ch};
      }
      var left := stale;
      while left != {}
        invariant left <= stale
        invariant currentOutput == s.output && streamPhase == s.phase && |chans| == |s.chans|
        invariant subscribers == s.subscribers - (stale - left)
        invariant forall ch: nat :: ch < |chans| ==>
          chans[ch] == if ch !in s.subscribers then s.chans[ch]
                       else if s.chans[ch].Room() then s.chans[ch].Send(event)
                       else if ch in left then s.chans[ch] else s.chans[ch].Close()
        decreases left
      {
        var ch :| ch in left;
        subscribers := subscribers - {ch};
        if !chans[ch].claimed {
          chans := chans[ch := chans[ch].(claimed := true, closes := chans[ch].closes + 1)];
        }
        left := left - {ch};
      }
      BroadcastIsDetermined(s, event, Contents());
    }

    method WriteOutput(content: string)
      modifies this`currentOutput
      ensures Contents() == Written(old(Contents()), content)
    {
      currentOutput := currentOutput + content;
    }

    method AppendStreamContent(content: string)
      requires Contents().WellFormed()
      modifies this
      ensures Contents() == Broadcasted(Written(old(Contents()), content), ContentEvent(content))
    {
      WriteOutput(content);
      Broadcast(ContentEvent(content));
    }

    method ChangePhase(phase: string) returns (oldPhase: string)
      modifies this`streamPhase, this`currentOutput
      ensures Contents() == PhaseChanged(old(Contents()), phase)
      ensures oldPhase == old(streamPhase)
    {
      oldPhase := streamPhase;
      streamPhase := phase;
      if phase == IDLE {
        currentOutput := "";
      }
    }

    method SetStreamPhase(phase: string)
      requires Contents().WellFormed()
      modifies this
      ensures var t := PhaseChanged(old(Contents()), phase);
        Contents() == if phase != IDLE && phase != old(streamPhase) then Broadcasted(t, PhaseEvent(phase)) else t
    {
      var oldPhase := ChangePhase(phase);
      if phase != IDLE && phase != oldPhase {
        Broadcast(PhaseEvent(phase));
      }
    }
  }
}
