// Resolving the findings a patrol was told about and did not report again
// (internal/ai/patrol_ai.go:2582-2635).
module StaleFindings {
  import opened Prelude
  import opened Findings
  import opened FindingsStore
  import opened FindingLaws

  // The findings among ids that a patrol seeded with them must close.
  function ToClose(findings: map<string, Finding>, ids: seq<string>, reported: seq<string>, resolved: seq<string>,
                   now: Time): set<string>
  {
    set id | id in ids && id !in reported && id !in resolved && id in findings && findings[id].IsActive(now)
  }

  function Closed(f: Finding, now: Time): Finding {
    f.(resolvedAt := Some(now), autoResolved := true, resolveReason := "No longer detected by patrol")
  }

  function AllClosed(findings: map<string, Finding>, ids: set<string>, now: Time): map<string, Finding> {
    map id | id in findings :: if id in ids then Closed(findings[id], now) else findings[id]
  }

  lemma CloseOneMore(findings: map<string, Finding>, ids: seq<string>, i: nat, reported: seq<string>, resolved: seq<string>,
                     now: Time)
    requires i < |ids|
    ensures var (before, after) :=
        (ToClose(findings, ids[..i], reported, resolved, now), ToClose(findings, ids[..i + 1], reported, resolved, now));
      var current := AllClosed(findings, before, now);
      if ids[i] !in reported && ids[i] !in resolved && ids[i] in current && current[ids[i]].IsActive(now)
      then
        ids[i] !in before && after == before + {ids[i]} &&
        AllClosed(findings, after, now) == current[ids[i] := Closed(current[ids[i]], now)]
      else after == before
  {
    assert forall id :: id in ids[..i + 1] <==> id in ids[..i] || id == ids[i];
  }

  // Exactly the seeded findings that are active and were neither reported nor resolved in
  // the patrol are resolved; a patrol with errors resolves none.
  method ReconcileStaleFindings(store: FindingsStore, reportedIDs: seq<string>, resolvedIDs: seq<string>,
                                seededFindingIDs: seq<string>, runHadErrors: bool, now: Time)
    returns (count: nat)
    modifies store`findings
    ensures var closed := if runHadErrors then {}
        else ToClose(old(store.findings), seededFindingIDs, reportedIDs, resolvedIDs, now);
      store.findings == AllClosed(old(store.findings), closed, now) && count == |closed|
  {
    assert store.findings == AllClosed(store.findings, {}, now);
    if runHadErrors {
      return 0;
    }
    if |seededFindingIDs| == 0 {
      return 0;
    }
    count := 0;
    for i := 0 to |seededFindingIDs|
      invariant var closed := ToClose(old(store.findings), seededFindingIDs[..i], reportedIDs, resolvedIDs, now);
        store.findings == AllClosed(old(store.findings), closed, now) && count == |closed|
    {
      CloseOneMore(old(store.findings), seededFindingIDs, i, reportedIDs, resolvedIDs, now);
      var id := seededFindingIDs[i];
      if id in reportedIDs || id in resolvedIDs {
        continue;
      }
      var ok := store.ResolveWithReason(id, "No longer detected by patrol", now);
      if ok {
        count := count + 1;
      }
    }
    assert seededFindingIDs[..|seededFindingIDs|] == seededFindingIDs;
  }

  // The findings that were not seeded, or were reported or resolved, or were not active, are
  // left as they are; the others are resolved, by the patrol and with its reason, and nothing
  // else about them changes.
  lemma ClosingMeans(findings: map<string, Finding>, ids: seq<string>, reported: seq<string>, resolved: seq<string>,
                     now: Time, id: string)
    requires id in findings
    ensures var after := AllClosed(findings, ToClose(findings, ids, reported, resolved, now), now);
      after.Keys == findings.Keys && var (f, was) := (after[id], findings[id]);
      if id in ids && id !in reported && id !in resolved && Shown(was, now) then
        SameReport(f, was) && SameFeedback(f, was) && f.snoozedUntil == was.snoozedUntil &&
        f.resolvedAt == Some(now) && f.autoResolved && f.resolveReason == "No longer detected by patrol"
      else f == was
  {
    ShownIsActive(findings[id], now);
  }
}
