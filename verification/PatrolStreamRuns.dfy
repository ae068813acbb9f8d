// Every interleaving of subscribers, readers and writers of the live stream. Writers are
// two steps each, as in the code: appendStreamContent and setStreamPhase first change the
// shared state, release the lock, and broadcast later; Unsubscribe first detaches and
// later closes.
module PatrolStreamRuns {
  import opened Prelude
  import opened PatrolStream
  import T = Text

  // What was true when a channel was handed out, and when it stopped receiving.
  datatype Join = Join(at: nat, texts: nat, runStart: nat, output: string, phase: string, left: Option<nat>)

  datatype Outgoing = Text(index: nat) | Phase(phase: string)

  datatype Sys = Sys(
    stream: Stream,
    log: seq<StreamEvent>,       // every event broadcast so far
    texts: seq<string>,          // every text appended to the output so far
    sentAt: seq<Option<nat>>,    // where in the log each text was broadcast
    runStart: nat,               // texts before this one were wiped by an idle phase
    joins: seq<Join>,
    outgoing: seq<Outgoing>,     // broadcasts not made yet
    closing: seq<nat>)           // detached channels not closed yet

  datatype Event =
    | Subscribe
    | Unsubscribe(ch: nat)
    | FinishClose(index: nat)
    | Consume(ch: nat)
    | WriteText(text: string)
    | ChangePhase(phase: string)
    | Release(index: nat)
    | Emit(event: StreamEvent)

  const Initial := Sys(Fresh, [], [], [], 0, [], [], [])

  predicate WellFormed(s: Sys) {
    s.stream.WellFormed() && |s.joins| == |s.stream.chans| && |s.sentAt| == |s.texts| &&
    (forall i :: 0 <= i < |s.closing| ==> s.closing[i] < |s.stream.chans|) &&
    (forall i :: 0 <= i < |s.outgoing| && s.outgoing[i].Text? ==> s.outgoing[i].index < |s.texts|)
  }

  function Leave(j: Join, now: nat): Join {
    j.(left := Some(now))
  }

  function Announced(s: Sys, e: StreamEvent): Sys
    requires WellFormed(s)
  {
    s.(stream := Broadcasted(s.stream, e), log := s.log + [e],
       joins := seq(|s.joins|, ch requires 0 <= ch < |s.joins| =>
         if ch in s.stream.subscribers && !s.stream.chans[ch].Room() then Leave(s.joins[ch], |s.log|) else s.joins[ch]))
  }

  function Step(s: Sys, e: Event): Sys
    requires WellFormed(s)
  {
    match e
    case Subscribe =>
      s.(stream := Subscribed(s.stream),
         joins := s.joins + [Join(|s.log|, |s.texts|, s.runStart, s.stream.output, s.stream.phase, None)])
    case Unsubscribe(ch) =>
      if ch in s.stream.subscribers then
        s.(stream := Detached(s.stream, ch), joins := s.joins[ch := Leave(s.joins[ch], |s.log|)], closing := s.closing + [ch])
      else s
    case FinishClose(i) =>
      if i < |s.closing| then s.(stream := Closed(s.stream, s.closing[i]), closing := RemoveAt(s.closing, i)) else s
    case Consume(ch) =>
      if ch < |s.stream.chans| && s.stream.chans[ch].taken < |s.stream.chans[ch].sent| then
        s.(stream := s.stream.(chans := s.stream.chans[ch := s.stream.chans[ch].(taken := s.stream.chans[ch].taken + 1)]))
      else s
    case WriteText(text) =>
      s.(stream := Written(s.stream, text), texts := s.texts + [text], sentAt := s.sentAt + [None],
         outgoing := s.outgoing + [Text(|s.texts|)])
    case ChangePhase(phase) =>
      s.(stream := PhaseChanged(s.stream, phase),
         runStart := if phase == IDLE then |s.texts| else s.runStart,
         outgoing := if phase != IDLE && phase != s.stream.phase then s.outgoing + [Phase(phase)] else s.outgoing)
    case Release(i) =>
      if i < |s.outgoing| then
        var t := s.(outgoing := RemoveAt(s.outgoing, i));
        match s.outgoing[i]
        case Text(k) => Announced(t, ContentEvent(s.texts[k])).(sentAt := s.sentAt[k := Some(|s.log|)])
        case Phase(p) => Announced(t, PhaseEvent(p))
      else s
    case Emit(event) => Announced(s, event)
  }

  lemma StepKeepsWellFormed(s: Sys, e: Event)
    requires WellFormed(s)
    ensures WellFormed(Step(s, e))
  {
  }

  ghost function Run(s: Sys, events: seq<Event>): (t: Sys)
    requires WellFormed(s)
    ensures WellFormed(t)
  {
    if events == [] then s
    else
      var before := Run(s, events[..|events| - 1]);
      StepKeepsWellFormed(before, events[|events| - 1]);
      Step(before, events[|events| - 1])
  }

  // ----- what each channel receives -----

  function Until(j: Join, now: nat): nat {
    if j.left.Some? then j.left.value else now
  }

  // The catch-up events, then every broadcast between joining and leaving, none missing.
  ghost predicate GapFree(c: Chan, j: Join, log: seq<StreamEvent>) {
    j.at <= Until(j, |log|) <= |log| &&
    c.sent == CatchUp(j.output, j.phase) + log[j.at..Until(j, |log|)]
  }

  // The buffer fits; a subscribed channel is open; a channel is closed at most once, and
  // a channel no longer subscribed is closed or about to be.
  ghost predicate Lifecycle(c: Chan, j: Join, subscribed: bool, aboutToClose: bool) {
    c.taken <= |c.sent| <= c.taken + CAPACITY &&
    (subscribed <==> j.left.None?) &&
    (subscribed ==> !c.claimed) &&
    c.closes == (if c.claimed then 1 else 0) &&
    (!subscribed && !c.claimed ==> aboutToClose)
  }

  ghost predicate ChannelsInv(s: Sys)
    requires WellFormed(s)
  {
    forall ch: nat :: ch < |s.joins| ==>
      GapFree(s.stream.chans[ch], s.joins[ch], s.log) &&
      Lifecycle(s.stream.chans[ch], s.joins[ch], ch in s.stream.subscribers, ch in s.closing)
  }

  // One channel's share of a broadcast.
  lemma AnnounceOne(c: Chan, j: Join, log: seq<StreamEvent>, e: StreamEvent, subscribed: bool, aboutToClose: bool)
    requires GapFree(c, j, log) && Lifecycle(c, j, subscribed, aboutToClose)
    ensures !subscribed ==> GapFree(c, j, log + [e])
    ensures subscribed && c.Room() ==>
      GapFree(c.Send(e), j, log + [e]) && Lifecycle(c.Send(e), j, subscribed, aboutToClose)
    ensures subscribed && !c.Room() ==>
      GapFree(c.Close(), Leave(j, |log|), log + [e]) && Lifecycle(c.Close(), Leave(j, |log|), false, aboutToClose)
  {
    assert (log + [e])[j.at..Until(j, |log|)] == log[j.at..Until(j, |log|)];
    if subscribed {
      assert (log + [e])[j.at..|log| + 1] == log[j.at..|log|] + [e];
    }
  }

  lemma AnnounceKeepsChannels(s: Sys, e: StreamEvent)
    requires WellFormed(s) && ChannelsInv(s)
    ensures WellFormed(Announced(s, e)) && ChannelsInv(Announced(s, e))
  {
    var t := Announced(s, e);
    forall ch: nat | ch < |s.joins|
      ensures GapFree(t.stream.chans[ch], t.joins[ch], t.log)
      ensures Lifecycle(t.stream.chans[ch], t.joins[ch], ch in t.stream.subscribers, ch in t.closing)
    {
      AnnounceOne(s.stream.chans[ch], s.joins[ch], s.log, e, ch in s.stream.subscribers, ch in s.closing);
    }
  }

  lemma SubscriptionsKeepChannels(s: Sys, e: Event)
    requires WellFormed(s) && ChannelsInv(s)
    requires e.Subscribe? || e.Unsubscribe? || e.Consume? || e.WriteText? || e.ChangePhase?
    ensures ChannelsInv(Step(s, e))
  {
    var t := Step(s, e);
    forall ch: nat | ch < |t.joins|
      ensures GapFree(t.stream.chans[ch], t.joins[ch], t.log)
      ensures Lifecycle(t.stream.chans[ch], t.joins[ch], ch in t.stream.subscribers, ch in t.closing)
    {
      if ch < |s.joins| {
        assert GapFree(s.stream.chans[ch], s.joins[ch], s.log);
        assert Lifecycle(s.stream.chans[ch], s.joins[ch], ch in s.stream.subscribers, ch in s.closing);
      }
    }
  }

  lemma CloseKeepsChannels(s: Sys, i: nat)
    requires WellFormed(s) && ChannelsInv(s) && i < |s.closing|
    requires s.closing[i] !in s.stream.subscribers
    ensures ChannelsInv(Step(s, FinishClose(i)))
  {
    var t := Step(s, FinishClose(i));
    forall ch: nat | ch < |t.joins|
      ensures GapFree(t.stream.chans[ch], t.joins[ch], t.log)
      ensures Lifecycle(t.stream.chans[ch], t.joins[ch], ch in t.stream.subscribers, ch in t.closing)
    {
      assert GapFree(s.stream.chans[ch], s.joins[ch], s.log);
      assert Lifecycle(s.stream.chans[ch], s.joins[ch], ch in s.stream.subscribers, ch in s.closing);
      if ch in s.closing && ch != s.closing[i] {
        var k :| 0 <= k < |s.closing| && s.closing[k] == ch;
        assert t.closing[if k < i then k else k - 1] == ch;
      }
    }
  }

  ghost predicate ClosingDetached(s: Sys) {
    forall i :: 0 <= i < |s.closing| ==> s.closing[i] < |s.stream.chans| && s.closing[i] !in s.stream.subscribers
  }

  lemma StepKeepsClosingDetached(s: Sys, e: Event)
    requires WellFormed(s) && ClosingDetached(s)
    ensures ClosingDetached(Step(s, e))
  {
  }

  lemma StepKeepsChannels(s: Sys, e: Event)
    requires WellFormed(s) && ChannelsInv(s) && ClosingDetached(s)
    ensures WellFormed(Step(s, e)) && ChannelsInv(Step(s, e))
  {
    StepKeepsWellFormed(s, e);
    match e
    case Release(i) =>
      if i < |s.outgoing| {
        AnnounceKeepsChannels(s.(outgoing := RemoveAt(s.outgoing, i)),
          match s.outgoing[i] case Text(k) => ContentEvent(s.texts[k]) case Phase(p) => PhaseEvent(p));
      }
    case Emit(event) => AnnounceKeepsChannels(s, event);
    case FinishClose(i) => if i < |s.closing| { CloseKeepsChannels(s, i); }
    case _ => SubscriptionsKeepChannels(s, e);
  }

  lemma {:induction false} FanOutIsGapFree(events: seq<Event>)
    ensures var s := Run(Initial, events);
      ChannelsInv(s) && ClosingDetached(s)
  {
    if events != [] {
      var before := Run(Initial, events[..|events| - 1]);
      FanOutIsGapFree(events[..|events| - 1]);
      StepKeepsClosingDetached(before, events[|events| - 1]);
      StepKeepsChannels(before, events[|events| - 1]);
    }
  }

  // Broadcast only ever sends to subscribers, and those are open: no send hits a closed
  // channel.
  lemma NoSendOnClosed(events: seq<Event>, ch: nat)
    requires ch in Run(Initial, events).stream.subscribers
    ensures ch < |Run(Initial, events).stream.chans| && Run(Initial, events).stream.chans[ch].closes == 0
  {
    FanOutIsGapFree(events);
    var s := Run(Initial, events);
    assert Lifecycle(s.stream.chans[ch], s.joins[ch], ch in s.stream.subscribers, ch in s.closing);
  }

  // ----- which texts reach a joiner -----

  // The output buffer is the texts of this run; a joiner saw the ones written before it.
  ghost predicate OutputInv(s: Sys) {
    s.runStart <= |s.texts| && s.stream.output == T.Concat(s.texts[s.runStart..]) &&
    forall ch :: 0 <= ch < |s.joins| ==>
      s.joins[ch].runStart <= s.joins[ch].texts <= |s.texts| &&
      s.joins[ch].output == T.Concat(s.texts[s.joins[ch].runStart..s.joins[ch].texts])
  }

  // A text is broadcast as itself, and after every join that came before it was written.
  ghost predicate SentInv(s: Sys) {
    |s.sentAt| == |s.texts| &&
    (forall k :: 0 <= k < |s.texts| && s.sentAt[k].Some? ==>
      s.sentAt[k].value < |s.log| && s.log[s.sentAt[k].value] == ContentEvent(s.texts[k])) &&
    (forall ch, k :: 0 <= ch < |s.joins| && s.joins[ch].texts <= k < |s.texts| && s.sentAt[k].Some? ==>
      s.joins[ch].at <= s.sentAt[k].value) &&
    (forall ch :: 0 <= ch < |s.joins| ==> s.joins[ch].at <= |s.log| && s.joins[ch].texts <= |s.texts|)
  }

  lemma WriteKeepsOutput(s: Sys, text: string)
    requires WellFormed(s) && OutputInv(s)
    ensures OutputInv(Step(s, WriteText(text)))
  {
    var texts := s.texts + [text];
    assert texts[s.runStart..] == s.texts[s.runStart..] + [text];
    assert (s.texts[s.runStart..] + [text])[..|s.texts| - s.runStart] == s.texts[s.runStart..];
    forall ch | 0 <= ch < |s.joins|
      ensures texts[s.joins[ch].runStart..s.joins[ch].texts] == s.texts[s.joins[ch].runStart..s.joins[ch].texts]
    {
    }
  }

  // What a broadcast leaves alone.
  lemma AnnounceFrame(s: Sys, e: StreamEvent)
    requires WellFormed(s)
    ensures var t := Announced(s, e);
      t.stream.output == s.stream.output && t.texts == s.texts && t.runStart == s.runStart && t.sentAt == s.sentAt &&
      |t.joins| == |s.joins| &&
      forall ch :: 0 <= ch < |s.joins| ==>
        t.joins[ch].at == s.joins[ch].at && t.joins[ch].texts == s.joins[ch].texts &&
        t.joins[ch].runStart == s.joins[ch].runStart && t.joins[ch].output == s.joins[ch].output
  {
  }

  lemma ReleaseFrame(s: Sys, i: nat)
    requires WellFormed(s) && i < |s.outgoing|
    ensures var t := Step(s, Release(i));
      t.stream.output == s.stream.output && t.texts == s.texts && t.runStart == s.runStart &&
      |t.joins| == |s.joins| &&
      forall ch :: 0 <= ch < |s.joins| ==>
        t.joins[ch].at == s.joins[ch].at && t.joins[ch].texts == s.joins[ch].texts &&
        t.joins[ch].runStart == s.joins[ch].runStart && t.joins[ch].output == s.joins[ch].output
  {
    AnnounceFrame(s.(outgoing := RemoveAt(s.outgoing, i)),
      match s.outgoing[i] case Text(k) => ContentEvent(s.texts[k]) case Phase(p) => PhaseEvent(p));
  }

  lemma OtherStepsKeepOutput(s: Sys, e: Event)
    requires WellFormed(s) && OutputInv(s)
    requires e.Subscribe? || e.Unsubscribe? || e.FinishClose? || e.Consume? || e.ChangePhase?
    ensures OutputInv(Step(s, e))
  {
    assert s.texts[s.runStart..|s.texts|] == s.texts[s.runStart..];
    assert s.texts[|s.texts|..] == [];
  }

  lemma StepKeepsOutput(s: Sys, e: Event)
    requires WellFormed(s) && OutputInv(s)
    ensures OutputInv(Step(s, e))
  {
    match e
    case WriteText(text) => WriteKeepsOutput(s, text);
    case Release(i) => if i < |s.outgoing| { ReleaseFrame(s, i); }
    case Emit(event) => AnnounceFrame(s, event);
    case _ => OtherStepsKeepOutput(s, e);
  }

  lemma ReleaseKeepsSent(s: Sys, i: nat)
    requires WellFormed(s) && SentInv(s) && i < |s.outgoing|
    ensures SentInv(Step(s, Release(i)))
  {
    ReleaseFrame(s, i);
    var t := Step(s, Release(i));
    if s.outgoing[i].Text? {
      var k := s.outgoing[i].index;
      assert t.log == s.log + [ContentEvent(s.texts[k])] && t.sentAt == s.sentAt[k := Some(|s.log|)];
    } else {
      assert t.sentAt == s.sentAt && t.log == s.log + [PhaseEvent(s.outgoing[i].phase)];
    }
  }

  lemma OtherStepsKeepSent(s: Sys, e: Event)
    requires WellFormed(s) && SentInv(s) && !e.Release? && !e.Emit?
    ensures SentInv(Step(s, e))
  {
  }

  lemma StepKeepsSent(s: Sys, e: Event)
    requires WellFormed(s) && SentInv(s)
    ensures SentInv(Step(s, e))
  {
    match e
    case Release(i) => if i < |s.outgoing| { ReleaseKeepsSent(s, i); }
    case Emit(event) => AnnounceFrame(s, event);
    case _ => OtherStepsKeepSent(s, e);
  }

  lemma {:induction false} TextBookkeeping(events: seq<Event>)
    ensures var s := Run(Initial, events);
      OutputInv(s) && SentInv(s)
  {
    if events != [] {
      var before := Run(Initial, events[..|events| - 1]);
      TextBookkeeping(events[..|events| - 1]);
      StepKeepsOutput(before, events[|events| - 1]);
      StepKeepsSent(before, events[|events| - 1]);
    }
  }

  // The joiner's catch-up content includes the text.
  ghost predicate InCatchUp(s: Sys, ch: nat, k: nat)
    requires WellFormed(s) && ch < |s.joins|
  {
    var j := s.joins[ch];
    j.phase != IDLE && j.runStart <= k < j.texts <= |s.texts| &&
    |s.stream.chans[ch].sent| >= 2 &&
    s.stream.chans[ch].sent[1] ==
      ContentEvent(T.Concat(s.texts[j.runStart..k]) + s.texts[k] + T.Concat(s.texts[k + 1..j.texts]))
  }

  // The text came through a broadcast the joiner received.
  ghost predicate InBroadcasts(s: Sys, ch: nat, k: nat)
    requires WellFormed(s) && ch < |s.joins|
  {
    var j := s.joins[ch];
    k < |s.texts| && s.sentAt[k].Some? && j.at <= s.sentAt[k].value < Until(j, |s.log|) &&
    var at := |CatchUp(j.output, j.phase)| + s.sentAt[k].value - j.at;
    at < |s.stream.chans[ch].sent| && s.stream.chans[ch].sent[at] == ContentEvent(s.texts[k])
  }

  lemma CatchUpContains(s: Sys, ch: nat, k: nat)
    requires WellFormed(s) && ChannelsInv(s) && OutputInv(s) && ch < |s.joins|
    requires s.joins[ch].phase != IDLE && s.joins[ch].runStart <= k < s.joins[ch].texts && s.texts[k] != ""
    ensures InCatchUp(s, ch, k)
  {
    var j := s.joins[ch];
    var all := s.texts[j.runStart..j.texts];
    assert all == s.texts[j.runStart..k] + ([s.texts[k]] + s.texts[k + 1..j.texts]);
    T.ConcatSplit(s.texts[j.runStart..k], [s.texts[k]] + s.texts[k + 1..j.texts]);
    T.ConcatSplit([s.texts[k]], s.texts[k + 1..j.texts]);
    assert [s.texts[k]][..0] == [];
    assert T.Concat([s.texts[k]]) == "" + s.texts[k] == s.texts[k];
    assert GapFree(s.stream.chans[ch], j, s.log);
    assert j.output == T.Concat(s.texts[j.runStart..k]) + (s.texts[k] + T.Concat(s.texts[k + 1..j.texts]));
    assert j.output == T.Concat(s.texts[j.runStart..k]) + s.texts[k] + T.Concat(s.texts[k + 1..j.texts]);
  }

  lemma BroadcastContains(s: Sys, ch: nat, k: nat)
    requires WellFormed(s) && ChannelsInv(s) && SentInv(s) && ch < |s.joins| && k < |s.texts|
    requires s.sentAt[k].Some? && s.joins[ch].at <= s.sentAt[k].value < Until(s.joins[ch], |s.log|)
    ensures InBroadcasts(s, ch, k)
  {
    assert GapFree(s.stream.chans[ch], s.joins[ch], s.log);
  }

  // ----- texts on their way -----

  // A text waits to be broadcast exactly once, until it is.
  ghost predicate PendingOnce(s: Sys)
    requires WellFormed(s)
  {
    forall k: nat :: k < |s.texts| ==> multiset(s.outgoing)[Text(k)] == if s.sentAt[k].None? then 1 else 0
  }

  lemma NotYetOutgoing(s: Sys)
    requires WellFormed(s)
    ensures multiset(s.outgoing)[Text(|s.texts|)] == 0
  {
    var next := Text(|s.texts|);
    assert next !in s.outgoing;
    assert next in multiset(s.outgoing) <==> next in s.outgoing;
  }

  lemma WriteKeepsPending(s: Sys, text: string)
    requires WellFormed(s) && PendingOnce(s)
    ensures WellFormed(Step(s, WriteText(text))) && PendingOnce(Step(s, WriteText(text)))
  {
    StepKeepsWellFormed(s, WriteText(text));
    NotYetOutgoing(s);
  }

  lemma ReleaseKeepsPending(s: Sys, i: nat)
    requires WellFormed(s) && PendingOnce(s) && i < |s.outgoing|
    ensures WellFormed(Step(s, Release(i))) && PendingOnce(Step(s, Release(i)))
  {
    StepKeepsWellFormed(s, Release(i));
    RemoveAtMultiset(s.outgoing, i);
    ReleaseFrame(s, i);
    if s.outgoing[i].Text? {
      assert Step(s, Release(i)).sentAt == s.sentAt[s.outgoing[i].index := Some(|s.log|)];
    }
  }

  lemma OtherStepsKeepPending(s: Sys, e: Event)
    requires WellFormed(s) && PendingOnce(s) && !e.WriteText? && !e.Release?
    ensures WellFormed(Step(s, e)) && PendingOnce(Step(s, e))
  {
    StepKeepsWellFormed(s, e);
    assert e.ChangePhase? ==>
      forall k: nat :: multiset(s.outgoing + [Phase(e.phase)])[Text(k)] == multiset(s.outgoing)[Text(k)];
  }

  // In every run a text is either broadcast already or waits for it exactly once.
  lemma {:induction false} NoTextIsLost(events: seq<Event>)
    ensures PendingOnce(Run(Initial, events))
  {
    if events != [] {
      var (before, e) := (Run(Initial, events[..|events| - 1]), events[|events| - 1]);
      NoTextIsLost(events[..|events| - 1]);
      match e
      case WriteText(text) => WriteKeepsPending(before, text);
      case Release(i) => if i < |before.outgoing| { ReleaseKeepsPending(before, i); }
      case _ => OtherStepsKeepPending(before, e);
    }
  }

  // The joiner left, or was dropped, before the text was broadcast.
  predicate LeftBefore(s: Sys, ch: nat, k: nat)
    requires WellFormed(s) && ch < |s.joins| && k < |s.texts|
  {
    s.sentAt[k].Some? && s.joins[ch].left.Some? && s.joins[ch].left.value <= s.sentAt[k].value
  }

  lemma TextReaches(s: Sys, ch: nat, k: nat)
    requires WellFormed(s) && ChannelsInv(s) && OutputInv(s) && SentInv(s) && PendingOnce(s)
    requires ch < |s.joins| && s.joins[ch].phase != IDLE && s.joins[ch].runStart <= k < |s.texts| && s.texts[k] != ""
    ensures InCatchUp(s, ch, k) <==> k < s.joins[ch].texts
    ensures InBroadcasts(s, ch, k) <==>
      (s.sentAt[k].Some? && s.joins[ch].at <= s.sentAt[k].value && !LeftBefore(s, ch, k))
    ensures k >= s.joins[ch].texts ==>
      InBroadcasts(s, ch, k) || LeftBefore(s, ch, k) || multiset(s.outgoing)[Text(k)] == 1
  {
    if k < s.joins[ch].texts {
      CatchUpContains(s, ch, k);
    }
    if s.sentAt[k].Some? && s.joins[ch].at <= s.sentAt[k].value && !LeftBefore(s, ch, k) {
      BroadcastContains(s, ch, k);
    }
  }

  // A subscriber who joined in the middle of a run, whether or not it is still there, got
  // each text of that run written before it joined through the catch-up, and gets each later
  // one through a broadcast, unless it left first or the broadcast is still to come. A text
  // comes twice exactly when it was written before the join and broadcast between the join
  // and the leaving.
  lemma TextReachesMidRunJoiner(events: seq<Event>, ch: nat, k: nat)
    requires var s := Run(Initial, events);
      ch < |s.joins| && s.joins[ch].phase != IDLE && s.joins[ch].runStart <= k < |s.texts| && s.texts[k] != ""
    ensures var s := Run(Initial, events);
      if k < s.joins[ch].texts then InCatchUp(s, ch, k)
      else InBroadcasts(s, ch, k) || LeftBefore(s, ch, k) || multiset(s.outgoing)[Text(k)] == 1
    ensures var s := Run(Initial, events);
      (InCatchUp(s, ch, k) && InBroadcasts(s, ch, k)) <==>
        (k < s.joins[ch].texts && s.sentAt[k].Some? && s.joins[ch].at <= s.sentAt[k].value && !LeftBefore(s, ch, k))
  {
    FanOutIsGapFree(events);
    TextBookkeeping(events);
    NoTextIsLost(events);
    TextReaches(Run(Initial, events), ch, k);
  }
}
