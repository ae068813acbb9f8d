// Pairing the tool start and tool end events of a patrol stream, and making sure one tool
// looked at the infrastructure (internal/ai/patrol_ai.go:299-470 and 685-773).
module ToolEvents {
  import opened Prelude

  const MAX_TOOL_INPUT_SIZE: nat := 1024
  const MAX_TOOL_OUTPUT_SIZE: nat := 2048

  // internal/ai/service.go:4021-4026
  function TruncateString(s: string, maxLen: nat): string
    requires maxLen >= 3
  {
    if |s| <= maxLen then s else s[..maxLen - 3] + "..."
  }

  datatype Call = Call(id: string, toolName: string, input: string, output: string, success: bool,
    startTime: int, endTime: int, duration: int)

  // The decoded events; times are in milliseconds.
  datatype Event =
    | Start(id: string, name: string, input: string, rawInput: string)
    | End(id: string, name: string, input: string, rawInput: string, output: string, success: bool)

  // The identifiers made up for the n-th event without one.
  datatype Names = Names(anon: nat -> string, anonEnd: nat -> string)

  datatype Tools = Tools(calls: map<string, Call>, order: seq<string>, anon: nat,
    completed: seq<Call>, raw: seq<string>)

  const NO_TOOLS := Tools(map[], [], 0, [], [])

  function ChosenInput(input: string, rawInput: string): string {
    if rawInput != "" then rawInput else input
  }

  function StartId(names: Names, t: Tools, id: string): string {
    if id == "" then names.anon(t.anon + 1) else id
  }

  function Started(names: Names, t: Tools, e: Event, now: int): Tools
    requires e.Start?
  {
    var id := StartId(names, t, e.id);
    var input := TruncateString(ChosenInput(e.input, e.rawInput), MAX_TOOL_INPUT_SIZE);
    t.(order := t.order + [id],
       calls := t.calls[id := Call(id, e.name, input, "", false, now, 0, 0)],
       anon := if e.id == "" then t.anon + 1 else t.anon)
  }

  function EndId(names: Names, t: Tools, id: string): string {
    if id != "" then id else if t.order != [] then t.order[0] else names.anonEnd(t.anon + 1)
  }

  // What the end of call id completes.
  function Completion(t: Tools, id: string, e: Event, now: int): Call
    requires e.End?
  {
    var input := ChosenInput(e.input, e.rawInput);
    var output := TruncateString(e.output, MAX_TOOL_OUTPUT_SIZE);
    if id in t.calls then
      var pending := t.calls[id];
      pending.(input := if input != "" then TruncateString(input, MAX_TOOL_INPUT_SIZE) else pending.input,
               output := output, success := e.success, endTime := now, duration := now - pending.startTime)
    else Call(id, e.name, TruncateString(input, MAX_TOOL_INPUT_SIZE), output, e.success, now, now, 0)
  }

  function Ended(names: Names, t: Tools, e: Event, now: int): Tools
    requires e.End?
  {
    var id := EndId(names, t, e.id);
    Tools(t.calls - {id}, RemoveFirst(t.order, id),
      if e.id == "" && t.order == [] then t.anon + 1 else t.anon,
      t.completed + [Completion(t, id, e, now)], t.raw + [e.output])
  }

  function Handled(names: Names, t: Tools, e: Event, now: int): Tools {
    if e.Start? then Started(names, t, e, now) else Ended(names, t, e, now)
  }

  class ToolTracker {
    const names: Names
    var pendingToolCalls: map<string, Call>
    var pendingToolOrder: seq<string>
    var anonToolCounter: nat
    var completedToolCalls: seq<Call>
    var rawToolOutputs: seq<string>

    ghost function State(): Tools
      reads this
    {
      Tools(pendingToolCalls, pendingToolOrder, anonToolCounter, completedToolCalls, rawToolOutputs)
    }

    constructor (names: Names)
      ensures this.names == names && State() == NO_TOOLS
    {
      this.names := names;
      pendingToolCalls, pendingToolOrder, anonToolCounter := map[], [], 0;
      completedToolCalls, rawToolOutputs := [], [];
    }

    method OnToolStart(e: Event, now: int)
      requires e.Start?
      modifies this
      ensures State() == Started(names, old(State()), e, now)
    {
      var id := e.id;
      if id == "" {
        anonToolCounter := anonToolCounter + 1;
        id := names.anon(anonToolCounter);
      }
      var input := e.input;
      if e.rawInput != "" {
        input := e.rawInput;
      }
      pendingToolOrder := pendingToolOrder + [id];
      pendingToolCalls := pendingToolCalls[
        id := Call(id, e.name, TruncateString(input, MAX_TOOL_INPUT_SIZE), "", false, now, 0, 0)];
    }

    // Takes the identifier out of the order; an event without one means the oldest start.
    method Unqueue(eventId: string) returns (id: string)
      modifies `pendingToolOrder, `anonToolCounter
      ensures id == EndId(names, old(State()), eventId)
      ensures pendingToolOrder == RemoveFirst(old(pendingToolOrder), id)
      ensures anonToolCounter == old(anonToolCounter) + if eventId == "" && old(pendingToolOrder) == [] then 1 else 0
    {
      id := eventId;
      if id == "" {
        if |pendingToolOrder| > 0 {
          id := pendingToolOrder[0];
          pendingToolOrder := pendingToolOrder[1..];
        } else {
          anonToolCounter := anonToolCounter + 1;
          id := names.anonEnd(anonToolCounter);
        }
      } else if |pendingToolOrder| > 0 {
        RemovedAt(pendingToolOrder, id, 0);
        for i := 0 to |pendingToolOrder|
          invariant pendingToolOrder == old(pendingToolOrder)
          invariant forall k :: 0 <= k < i ==> pendingToolOrder[k] != id
        {
          if pendingToolOrder[i] == id {
            RemovedAt(pendingToolOrder, id, i);
            pendingToolOrder := RemoveAt(pendingToolOrder, i);
            return;
          }
        }
        RemovedAt(pendingToolOrder, id, |pendingToolOrder|);
      }
    }

    method OnToolEnd(e: Event, now: int)
      requires e.End?
      modifies this
      ensures State() == Ended(names, old(State()), e, now)
    {
      var id := Unqueue(e.id);
      var input := e.input;
      if e.rawInput != "" {
        input := e.rawInput;
      }
      if id in pendingToolCalls {
        var pending := pendingToolCalls[id];
        if input != "" {
          pending := pending.(input := TruncateString(input, MAX_TOOL_INPUT_SIZE));
        }
        pending := pending.(output := TruncateString(e.output, MAX_TOOL_OUTPUT_SIZE));
        pending := pending.(success := e.success);
        pending := pending.(endTime := now);
        pending := pending.(duration := now - pending.startTime);
        completedToolCalls := completedToolCalls + [pending];
        rawToolOutputs := rawToolOutputs + [e.output];
        pendingToolCalls := pendingToolCalls - {id};
      } else {
        assert pendingToolCalls - {id} == pendingToolCalls;
        completedToolCalls := completedToolCalls +
          [Call(id, e.name, TruncateString(input, MAX_TOOL_INPUT_SIZE),
                TruncateString(e.output, MAX_TOOL_OUTPUT_SIZE), e.success, now, now, 0)];
        rawToolOutputs := rawToolOutputs + [e.output];
      }
    }

    // present: there is an executor; the fallback's identifier, input, output and success
    // are the tool's, which the source runs between the two clock readings.
    method EnsureInvestigationToolCall(present: bool, fallback: Event, start: int, end: int)
      requires fallback.End?
      modifies `completedToolCalls, `rawToolOutputs
      ensures completedToolCalls == if present && !Investigated(old(completedToolCalls))
        then old(completedToolCalls) + [FallbackCall(fallback, start, end)] else old(completedToolCalls)
      ensures rawToolOutputs == if present && !Investigated(old(completedToolCalls))
        then old(rawToolOutputs) + [fallback.output] else old(rawToolOutputs)
      ensures present ==> Investigated(completedToolCalls)
    {
      if !present {
        return;
      }
      var needsInvestigation := true;
      for i := 0 to |completedToolCalls|
        invariant needsInvestigation
        invariant forall k :: 0 <= k < i ==> !IsInvestigationTool(completedToolCalls[k].toolName)
      {
        if IsInvestigationTool(completedToolCalls[i].toolName) {
          needsInvestigation := false;
          break;
        }
      }
      if !needsInvestigation {
        return;
      }
      completedToolCalls := completedToolCalls + [FallbackCall(fallback, start, end)];
      rawToolOutputs := rawToolOutputs + [fallback.output];
      assert IsInvestigationTool(completedToolCalls[|completedToolCalls| - 1].toolName);
    }

    // The calls with their outputs in full, for the signal detection.
    method SignalToolCalls() returns (signals: seq<Call>)
      ensures signals == WithRawOutputs(completedToolCalls, rawToolOutputs)
    {
      signals := [];
      for i := 0 to |completedToolCalls|
        invariant signals == WithRawOutputs(completedToolCalls[..i], rawToolOutputs)
      {
        assert completedToolCalls[..i + 1][..i] == completedToolCalls[..i];
        var tc := completedToolCalls[i];
        if i < |rawToolOutputs| && rawToolOutputs[i] != "" {
          tc := tc.(output := rawToolOutputs[i]);
        }
        signals := signals + [tc];
      }
      assert completedToolCalls[..|completedToolCalls|] == completedToolCalls;
    }
  }

  predicate IsInvestigationTool(name: string) {
    name in ["pulse_query", "pulse_metrics", "pulse_storage", "pulse_read"]
  }

  ghost predicate Investigated(completed: seq<Call>) {
    exists i :: 0 <= i < |completed| && IsInvestigationTool(completed[i].toolName)
  }

  function FallbackCall(e: Event, start: int, end: int): Call
    requires e.End?
  {
    Call(e.id, "pulse_query", TruncateString(e.input, MAX_TOOL_INPUT_SIZE),
      TruncateString(e.output, MAX_TOOL_OUTPUT_SIZE), e.success, start, end, end - start)
  }

  function WithRawOutputs(completed: seq<Call>, raw: seq<string>): seq<Call> {
    if completed == [] then []
    else
      var (i, tc) := (|completed| - 1, completed[|completed| - 1]);
      WithRawOutputs(completed[..i], raw) + [if i < |raw| && raw[i] != "" then tc.(output := raw[i]) else tc]
  }
}
