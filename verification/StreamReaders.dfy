// What a reader of the live stream sees when it joins, when it is dropped, and what phase the
// stream is in, in every interleaving (internal/ai/patrol_run.go:1118-1225).
module StreamReaders {
  import opened Prelude
  import opened PatrolStream
  import opened PatrolStreamRuns

  // ----- joining -----

  // A reader that joined an idle stream starts with what is broadcast next; any other one is
  // told the phase first, and then the output so far if there is any.
  ghost predicate StartsWithCatchUp(sent: seq<StreamEvent>, phase: string, output: string) {
    phase != "idle" ==>
      |sent| >= 1 && sent[0] == PhaseEvent(phase) && (output != "" ==> |sent| >= 2 && sent[1] == ContentEvent(output))
  }

  // In every run each channel holds its catch-up, in full, before the broadcasts since the join.
  lemma JoinersCatchUp(events: seq<Event>, ch: nat)
    requires ch < |Run(Initial, events).joins|
    ensures var s := Run(Initial, events); var j := s.joins[ch]; var c := s.stream.chans[ch];
      StartsWithCatchUp(c.sent, j.phase, j.output) &&
      |c.sent| == (if j.phase == "idle" then 0 else if j.output == "" then 1 else 2) + Until(j, |s.log|) - j.at
  {
    FanOutIsGapFree(events);
    var s := Run(Initial, events);
    assert GapFree(s.stream.chans[ch], s.joins[ch], s.log);
  }

  // And it joins with the phase and the output the stream has then.
  lemma JoinSeesTheStream(events: seq<Event>)
    ensures var (s, t) := (Run(Initial, events), Step(Run(Initial, events), Subscribe));
      var ch := |s.stream.chans|;
      |t.stream.chans| == ch + 1 && t.stream.subscribers == s.stream.subscribers + {ch} && t.stream.chans[..ch] == s.stream.chans &&
      t.stream.output == s.stream.output && t.stream.phase == s.stream.phase && t.log == s.log &&
      t.stream.chans[ch].sent ==
        if s.stream.phase == "idle" then []
        else if s.stream.output == "" then [PhaseEvent(s.stream.phase)]
        else [PhaseEvent(s.stream.phase), ContentEvent(s.stream.output)]
  {
  }

  // ----- being dropped -----

  // What a reader has not taken yet.
  function Unread(c: Chan): int {
    |c.sent| - c.taken
  }

  lemma BroadcastDropsFull(s: Stream, e: StreamEvent, ch: nat)
    requires s.WellFormed() && ch in s.subscribers && Unread(s.chans[ch]) <= 100
    ensures ch !in Broadcasted(s, e).subscribers <==> Unread(s.chans[ch]) == 100
  {
  }

  // A release and an emission are broadcasts.
  predicate Broadcasts(s: Sys, e: Event) {
    e.Emit? || (e.Release? && e.index < |s.outgoing|)
  }

  lemma BroadcastStep(s: Sys, e: Event) returns (event: StreamEvent)
    requires WellFormed(s) && Broadcasts(s, e)
    ensures Step(s, e).stream == Broadcasted(s.stream, event)
  {
    match e
    case Emit(emitted) => event := emitted;
    case Release(i) =>
      match s.outgoing[i]
      case Text(k) => event := ContentEvent(s.texts[k]);
      case Phase(p) => event := PhaseEvent(p);
  }

  lemma OtherStep(s: Sys, e: Event, ch: nat)
    requires WellFormed(s) && !Broadcasts(s, e) && ch in s.stream.subscribers
    ensures ch !in Step(s, e).stream.subscribers <==> e == Unsubscribe(ch)
  {
  }

  lemma StepDropsFull(s: Sys, e: Event, ch: nat)
    requires WellFormed(s) && ch in s.stream.subscribers && Unread(s.stream.chans[ch]) <= 100
    ensures ch !in Step(s, e).stream.subscribers <==>
      e == Unsubscribe(ch) || (Unread(s.stream.chans[ch]) == 100 && (e.Emit? || (e.Release? && e.index < |s.outgoing|)))
  {
    if Broadcasts(s, e) {
      var event := BroadcastStep(s, e);
      BroadcastDropsFull(s.stream, event, ch);
    } else {
      OtherStep(s, e, ch);
    }
  }

  // In every run a reader leaves the stream exactly when it asks to, or when something is
  // broadcast while it has one hundred events unread; it never has more.
  lemma OnlySlowReadersAreDropped(events: seq<Event>, e: Event, ch: nat)
    requires ch in Run(Initial, events).stream.subscribers
    ensures var s := Run(Initial, events);
      ch < |s.stream.chans| && 0 <= Unread(s.stream.chans[ch]) <= 100 &&
      (ch !in Step(s, e).stream.subscribers <==>
        e == Unsubscribe(ch) || (Unread(s.stream.chans[ch]) == 100 && (e.Emit? || (e.Release? && e.index < |s.outgoing|))))
  {
    FanOutIsGapFree(events);
    var s := Run(Initial, events);
    assert Lifecycle(s.stream.chans[ch], s.joins[ch], true, ch in s.closing);
    StepDropsFull(s, e, ch);
  }

  // ----- the phase -----

  // The phase set last, and the changes to another phase than idle, in order.
  function LastPhase(events: seq<Event>): string {
    if events == [] then "idle"
    else
      var e := events[|events| - 1];
      if e.ChangePhase? then e.phase else LastPhase(events[..|events| - 1])
  }

  function Changes(events: seq<Event>): seq<string> {
    if events == [] then []
    else
      var (front, e) := (events[..|events| - 1], events[|events| - 1]);
      if e.ChangePhase? && e.phase != LastPhase(front) && e.phase != "idle" then Changes(front) + [e.phase] else Changes(front)
  }

  // The phases broadcast by releases, in order.
  ghost function Announcements(events: seq<Event>): seq<string> {
    if events == [] then []
    else
      var (front, e) := (events[..|events| - 1], events[|events| - 1]);
      var s := Run(Initial, front);
      if e.Release? && e.index < |s.outgoing| && s.outgoing[e.index].Phase?
      then Announcements(front) + [s.outgoing[e.index].phase] else Announcements(front)
  }

  // The stream is in the phase set last, and each change to this phase was broadcast or waits
  // for its broadcast, once.
  ghost predicate PhaseKept(s: Sys, events: seq<Event>, phase: string) {
    s.stream.phase == LastPhase(events) && Balanced(Changes(events), Announcements(events), s.outgoing, phase)
  }

  predicate Balanced(changes: seq<string>, announced: seq<string>, outgoing: seq<Outgoing>, phase: string) {
    multiset(changes)[phase] == multiset(announced)[phase] + multiset(outgoing)[Phase(phase)]
  }

  lemma TextQueued(changes: seq<string>, announced: seq<string>, outgoing: seq<Outgoing>, k: nat, phase: string)
    requires Balanced(changes, announced, outgoing, phase)
    ensures Balanced(changes, announced, outgoing + [Text(k)], phase)
  {
  }

  lemma ChangeQueued(changes: seq<string>, announced: seq<string>, outgoing: seq<Outgoing>, to: string, phase: string)
    requires Balanced(changes, announced, outgoing, phase)
    ensures Balanced(changes + [to], announced, outgoing + [Phase(to)], phase)
  {
  }

  lemma Released(changes: seq<string>, announced: seq<string>, outgoing: seq<Outgoing>, i: nat, phase: string)
    requires Balanced(changes, announced, outgoing, phase) && i < |outgoing|
    ensures Balanced(changes, if outgoing[i].Phase? then announced + [outgoing[i].phase] else announced, RemoveAt(outgoing, i), phase)
  {
    RemoveAtMultiset(outgoing, i);
  }

  lemma StepKeepsOutgoing(s: Sys, e: Event)
    requires WellFormed(s)
    ensures Step(s, e).outgoing ==
      if e.WriteText? then s.outgoing + [Text(|s.texts|)]
      else if e.ChangePhase? && e.phase != IDLE && e.phase != s.stream.phase then s.outgoing + [Phase(e.phase)]
      else if e.Release? && e.index < |s.outgoing| then RemoveAt(s.outgoing, e.index)
      else s.outgoing
    ensures Step(s, e).stream.phase == if e.ChangePhase? then e.phase else s.stream.phase
  {
  }

  // The three logs after one more event.
  lemma LogsAfter(front: seq<Event>, e: Event, s: Sys)
    requires s == Run(Initial, front)
    ensures LastPhase(front + [e]) == if e.ChangePhase? then e.phase else LastPhase(front)
    ensures Changes(front + [e]) ==
      if e.ChangePhase? && e.phase != LastPhase(front) && e.phase != "idle" then Changes(front) + [e.phase] else Changes(front)
    ensures Announcements(front + [e]) ==
      if e.Release? && e.index < |s.outgoing| && s.outgoing[e.index].Phase?
      then Announcements(front) + [s.outgoing[e.index].phase] else Announcements(front)
  {
    assert (front + [e])[..|front|] == front;
  }

  lemma PhaseAfter(front: seq<Event>, e: Event, s: Sys, phase: string)
    requires WellFormed(s) && s == Run(Initial, front) && PhaseKept(s, front, phase)
    ensures PhaseKept(Step(s, e), front + [e], phase)
  {
    var (c, a, o) := (Changes(front), Announcements(front), s.outgoing);
    LogsAfter(front, e, s);
    StepKeepsOutgoing(s, e);
    TextQueued(c, a, o, |s.texts|, phase);
    if e.ChangePhase? {
      ChangeQueued(c, a, o, e.phase, phase);
    } else if e.Release? && e.index < |o| {
      Released(c, a, o, e.index, phase);
    }
  }

  lemma RunAfter(front: seq<Event>, e: Event)
    ensures WellFormed(Run(Initial, front)) && Run(Initial, front + [e]) == Step(Run(Initial, front), e)
  {
    assert (front + [e])[..|front|] == front;
  }

  ghost predicate KeptBy(events: seq<Event>, phase: string) {
    PhaseKept(Run(Initial, events), events, phase)
  }

  lemma KeptAfter(front: seq<Event>, e: Event, phase: string)
    requires KeptBy(front, phase)
    ensures KeptBy(front + [e], phase)
  {
    RunAfter(front, e);
    PhaseAfter(front, e, Run(Initial, front), phase);
  }

  lemma KeptAtFirst(phase: string)
    ensures KeptBy([], phase)
  {
  }

  // In every run the stream is in the phase set last, and each change to another phase than
  // idle is announced exactly once, or waits to be.
  lemma {:induction false} EveryPhaseIsAnnounced(events: seq<Event>, phase: string)
    ensures KeptBy(events, phase)
  {
    if events == [] {
      KeptAtFirst(phase);
    } else {
      var (front, e) := (events[..|events| - 1], events[|events| - 1]);
      EveryPhaseIsAnnounced(front, phase);
      KeptAfter(front, e, phase);
      assert front + [e] == events;
    }
  }
}
