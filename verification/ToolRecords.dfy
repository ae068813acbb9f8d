// What a recorded tool call says about the events it was made from
// (internal/ai/patrol_ai.go:337-446).
module ToolRecords {
  import opened Prelude
  import opened ToolEvents
  import opened ToolEventsRuns

  // s in full when it has at most n characters, and its start with three dots otherwise.
  predicate CutShort(r: string, s: string, n: nat) {
    if |s| <= n then r == s else n >= 3 && |r| == n && r[..n - 3] == s[..n - 3] && r[n - 3..] == "..."
  }

  lemma TruncateCuts(s: string, n: nat)
    requires n >= 3
    ensures CutShort(TruncateString(s, n), s, n)
  {
    if |s| > n {
      assert (s[..n - 3] + "...")[..n - 3] == s[..n - 3] && (s[..n - 3] + "...")[n - 3..] == "...";
    }
  }

  // The raw input counts when there is one.
  predicate InputOf(input: string, e: Event) {
    input == if e.rawInput == "" then e.input else e.rawInput
  }

  // The call is pending since this start.
  ghost predicate StartedBy(c: Call, start: Timed) {
    start.event.Start? && c.toolName == start.event.name && c.startTime == start.now &&
    (start.event.id != "" ==> c.id == start.event.id) &&
    exists input :: InputOf(input, start.event) && CutShort(c.input, input, 1024)
  }

  // The call was completed by this end: its output cut at 2048 characters, and its own input
  // when it has one.
  ghost predicate EndedBy(c: Call, end: Timed) {
    end.event.End? && c.success == end.event.success && CutShort(c.output, end.event.output, 2048) && c.endTime == end.now
  }

  ghost predicate OwnInput(c: Call, end: Timed) {
    exists input :: InputOf(input, end.event) && input != "" && CutShort(c.input, input, 1024)
  }

  ghost predicate NoInput(end: Timed) {
    InputOf("", end.event)
  }

  // The name, the start time and, without an input of its own, the input of this start.
  ghost predicate FromStart(c: Call, run: seq<Timed>, i: int, j: int) {
    0 <= i < j < |run| && run[i].event.Start? && c.toolName == run[i].event.name && c.startTime == run[i].now &&
    (run[i].event.id != "" ==> c.id == run[i].event.id) &&
    c.duration == run[j].now - run[i].now && (OwnInput(c, run[j]) || (NoInput(run[j]) && StartedBy(c, run[i])))
  }

  ghost predicate OnItsOwn(c: Call, end: Timed) {
    end.event.End? && c.toolName == end.event.name && c.startTime == end.now && c.duration == 0 &&
    (OwnInput(c, end) || (NoInput(end) && c.input == ""))
  }

  // An entry for an end: of the call pending under its id, or of its own.
  ghost predicate Describes(c: Call, run: seq<Timed>, j: int) {
    0 <= j < |run| && EndedBy(c, run[j]) && ((exists i :: FromStart(c, run, i, j)) || OnItsOwn(c, run[j]))
  }

  ghost predicate Told(c: Call, run: seq<Timed>) {
    exists j :: Describes(c, run, j)
  }

  ghost predicate AllTold(completed: seq<Call>, run: seq<Timed>) {
    forall k :: 0 <= k < |completed| ==> Told(completed[k], run)
  }

  ghost predicate PendingTell(t: Tools, run: seq<Timed>) {
    forall id :: id in t.calls ==> exists i :: 0 <= i < |run| && StartedBy(t.calls[id], run[i])
  }

  ghost predicate CompletedTell(t: Tools, run: seq<Timed>) {
    AllTold(t.completed, run)
  }

  lemma StartTells(names: Names, t: Tools, e: Event, now: int)
    requires e.Start?
    ensures var id := StartId(names, t, e.id);
      id in Started(names, t, e, now).calls && StartedBy(Started(names, t, e, now).calls[id], Timed(e, now)) &&
      Started(names, t, e, now).calls == t.calls[id := Started(names, t, e, now).calls[id]]
  {
    TruncateCuts(ChosenInput(e.input, e.rawInput), 1024);
    assert InputOf(ChosenInput(e.input, e.rawInput), e);
  }

  lemma StaysDescribed(c: Call, front: seq<Timed>, last: Timed, j: int)
    requires Describes(c, front, j)
    ensures Describes(c, front + [last], j)
  {
    var run := front + [last];
    assert run[j] == front[j];
    if i :| FromStart(c, front, i, j) {
      assert run[i] == front[i];
      assert FromStart(c, run, i, j);
    }
  }

  lemma CompletionEnds(t: Tools, id: string, e: Event, now: int)
    requires e.End?
    ensures EndedBy(Completion(t, id, e, now), Timed(e, now))
    ensures var c := Completion(t, id, e, now);
      OwnInput(c, Timed(e, now)) || (NoInput(Timed(e, now)) && c.input == if id in t.calls then t.calls[id].input else "")
    ensures var c := Completion(t, id, e, now);
      if id in t.calls then
        c.id == t.calls[id].id && c.toolName == t.calls[id].toolName && c.startTime == t.calls[id].startTime &&
        c.duration == now - c.startTime
      else c.toolName == e.name && c.startTime == now && c.duration == 0
  {
    var input := ChosenInput(e.input, e.rawInput);
    TruncateCuts(input, 1024);
    TruncateCuts(e.output, 2048);
    assert InputOf(input, e);
  }

  lemma CompletionIsDescribed(t: Tools, id: string, front: seq<Timed>, last: Timed)
    requires last.event.End? && PendingTell(t, front)
    ensures Describes(Completion(t, id, last.event, last.now), front + [last], |front|)
  {
    var (c, run) := (Completion(t, id, last.event, last.now), front + [last]);
    CompletionEnds(t, id, last.event, last.now);
    assert run[|front|] == last;
    if id in t.calls {
      var i :| 0 <= i < |front| && StartedBy(t.calls[id], front[i]);
      assert run[i] == front[i];
      if c.input == t.calls[id].input {
        SameStart(c, t.calls[id], front[i]);
      }
      assert FromStart(c, run, i, |front|);
    }
  }

  lemma SameStart(c: Call, d: Call, start: Timed)
    requires StartedBy(d, start) && c.id == d.id && c.toolName == d.toolName && c.startTime == d.startTime && c.input == d.input
    ensures StartedBy(c, start)
  {
  }

  lemma PendingStaysTold(t: Tools, front: seq<Timed>, last: Timed)
    requires PendingTell(t, front)
    ensures PendingTell(t, front + [last])
  {
    forall id | id in t.calls ensures exists i :: 0 <= i < |front + [last]| && StartedBy(t.calls[id], (front + [last])[i]) {
      var i :| 0 <= i < |front| && StartedBy(t.calls[id], front[i]);
      assert (front + [last])[i] == front[i];
    }
  }

  lemma AllStayTold(completed: seq<Call>, front: seq<Timed>, last: Timed)
    requires AllTold(completed, front)
    ensures AllTold(completed, front + [last])
  {
    forall k | 0 <= k < |completed| ensures Told(completed[k], front + [last]) {
      var j :| Describes(completed[k], front, j);
      StaysDescribed(completed[k], front, last, j);
    }
  }

  lemma OneMoreTold(completed: seq<Call>, c: Call, run: seq<Timed>, j: int)
    requires AllTold(completed, run) && Describes(c, run, j)
    ensures AllTold(completed + [c], run)
  {
  }

  // In every stream, a recorded call has the outcome of an end and either the name, the start
  // time and, when the end brings none, the input of a start before it, or those of the end.
  lemma {:induction false} RecordsTellTheirEvents(names: Names, run: seq<Timed>)
    ensures PendingTell(Run(names, run), run) && CompletedTell(Run(names, run), run)
  {
    if run != [] {
      var (front, last) := (run[..|run| - 1], run[|run| - 1]);
      var t := Run(names, front);
      assert front + [last] == run;
      RecordsTellTheirEvents(names, front);
      PendingStaysTold(t, front, last);
      AllStayTold(t.completed, front, last);
      if last.event.Start? {
        StartTells(names, t, last.event, last.now);
        assert run[|front|] == last;
      } else {
        var c := Completion(t, EndId(names, t, last.event.id), last.event, last.now);
        CompletionIsDescribed(t, EndId(names, t, last.event.id), front, last);
        OneMoreTold(t.completed, c, run, |front|);
      }
    }
  }

  // ----- one look at the infrastructure -----

  predicate LooksAtInfrastructure(name: string) {
    name == "pulse_query" || name == "pulse_metrics" || name == "pulse_storage" || name == "pulse_read"
  }

  // What is recorded when no tool has looked at the infrastructure: a query with the input,
  // the output and the success of the fallback, and the time it took.
  predicate IsFallback(c: Call, e: Event, start: int, end: int)
    requires e.End?
  {
    c.id == e.id && c.toolName == "pulse_query" && CutShort(c.input, e.input, 1024) && CutShort(c.output, e.output, 2048) &&
    c.success == e.success && c.startTime == start && c.endTime == end && c.duration == end - start
  }

  // After a patrol with an executor some recorded call looked at the infrastructure: one of
  // the patrol's own, and the fallback exactly when there was none.
  lemma OneLookIsRecorded(completed: seq<Call>, fallback: Event, start: int, end: int)
    requires fallback.End?
    ensures Investigated(completed) <==> exists i :: 0 <= i < |completed| && LooksAtInfrastructure(completed[i].toolName)
    ensures IsFallback(FallbackCall(fallback, start, end), fallback, start, end)
    ensures Investigated(completed + [FallbackCall(fallback, start, end)])
  {
    TruncateCuts(fallback.input, 1024);
    TruncateCuts(fallback.output, 2048);
    if i :| 0 <= i < |completed| && LooksAtInfrastructure(completed[i].toolName) {
      assert IsInvestigationTool(completed[i].toolName);
    }
    assert IsInvestigationTool((completed + [FallbackCall(fallback, start, end)])[|completed|].toolName);
  }
}
