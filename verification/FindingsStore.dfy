// The findings store of internal/ai/findings.go: a map of findings, an index of their ids
// by resource, and the suppression rules. Each function below is one lock-protected
// section; the class is the code.
module FindingsStore {
  import opened Prelude
  import opened Findings
  import opened Similarity

  datatype Store = Store(
    findings: map<string, Finding>,
    byResource: map<string, seq<string>>,
    rules: map<string, SuppressionRule>)

  const EmptyStore := Store(map[], map[], map[])

  function Ids(byResource: map<string, seq<string>>, resourceID: string): seq<string> {
    if resourceID in byResource then byResource[resourceID] else []
  }

  function IsSuppressed(rules: map<string, SuppressionRule>, resourceID: string, category: string): bool {
    exists r :: r in rules && rules[r].Matches(resourceID, category)
  }

  function Put(s: Store, id: string, f: Finding): Store {
    s.(findings := s.findings[id := f])
  }

  // ----- Add -----

  function WithType(f: Finding): Finding {
    if f.resourceType == "" then f.(resourceType := InferResourceType(f.resourceID, f.resourceName)) else f
  }

  // A report of a known finding, by what the store already holds.
  function Reported(known: Finding, f: Finding, now: Time): Finding {
    var typed := if known.resourceType == "" then known.(resourceType := f.resourceType) else known;
    if known.Silenced() && SeverityOrder(f.severity) <= SeverityOrder(known.severity) then
      typed.(lastSeenAt := now, timesRaised := known.timesRaised + 1)
    else
      var woken :=
        if known.Silenced()
        then typed.(dismissedReason := "", suppressed := false, userNote := "", acknowledgedAt := None)
        else typed;
      var updated := woken.(lastSeenAt := now, description := f.description, recommendation := f.recommendation,
                            evidence := f.evidence, title := f.title, severity := f.severity,
                            timesRaised := known.timesRaised + 1);
      if known.IsResolved() then updated.(resolvedAt := None, autoResolved := false, resolveReason := "") else updated
  }

  function Stamped(f: Finding, now: Time): Finding {
    f.(detectedAt := if f.detectedAt.None? then Some(now) else f.detectedAt, lastSeenAt := now)
  }

  function Indexed(s: Store, f: Finding): Store {
    s.(findings := s.findings[f.id := f],
       byResource := s.byResource[f.resourceID := Ids(s.byResource, f.resourceID) + [f.id]])
  }

  function Added(s: Store, g: Finding, now: Time): (Store, bool) {
    var f := WithType(g);
    if f.id in s.findings then (Put(s, f.id, Reported(s.findings[f.id], f, now)), false)
    else if IsSuppressed(s.rules, f.resourceID, f.category) then (s, false)
    else (Indexed(s, Stamped(f, now)), true)
  }

  // The second locked section of AddWithDeduplication: fold the report into another finding.
  function MergedEvidence(stored: string, reported: string): string {
    if reported != "" && reported != stored then
      var joined := stored + "\n---\n" + reported;
      if |joined| > 5000 then joined[..5000] + "..." else joined
    else stored
  }

  function Folded(known: Finding, f: Finding, now: Time): Finding {
    known.(lastSeenAt := now, timesRaised := known.timesRaised + 1,
           severity := if SeverityOrder(f.severity) > SeverityOrder(known.severity) then f.severity else known.severity,
           evidence := MergedEvidence(known.evidence, f.evidence))
  }

  function MergedInto(s: Store, id: string, f: Finding, now: Time): Store {
    if id in s.findings then Put(s, id, Folded(s.findings[id], f, now)) else s
  }

  // ----- the operations of the user interface -----

  function Resolved(s: Store, id: string, auto: bool, reason: Option<string>, now: Time): (Store, bool) {
    if id !in s.findings || !s.findings[id].IsActive(now) then (s, false)
    else
      var f := s.findings[id].(resolvedAt := Some(now), autoResolved := auto);
      (Put(s, id, if reason.Some? then f.(resolveReason := reason.value) else f), true)
  }

  function Acknowledged(s: Store, id: string, now: Time): (Store, bool) {
    if id !in s.findings then (s, false)
    else (Put(s, id, s.findings[id].(acknowledgedAt := Some(now))), true)
  }

  function Snoozed(s: Store, id: string, duration: int, now: Time): (Store, bool) {
    if id !in s.findings || s.findings[id].IsResolved() then (s, false)
    else (Put(s, id, s.findings[id].(snoozedUntil := Some(now + duration))), true)
  }

  function Unsnoozed(s: Store, id: string): (Store, bool) {
    if id !in s.findings || s.findings[id].IsResolved() then (s, false)
    else (Put(s, id, s.findings[id].(snoozedUntil := None)), true)
  }

  function Dismissed(s: Store, id: string, reason: string, note: string, now: Time): (Store, bool) {
    if id !in s.findings then (s, false)
    else
      var f := s.findings[id];
      (Put(s, id, f.(dismissedReason := reason, userNote := if note != "" then note else f.userNote,
                     acknowledgedAt := Some(now), suppressed := f.suppressed || reason == "not_an_issue")), true)
  }

  // The rules a finding's own suppression may have created.
  function RulesFor(rules: map<string, SuppressionRule>, f: Finding): set<string> {
    set r | r in rules && rules[r].resourceID == f.resourceID && rules[r].category == f.category
  }

  function Undismissed(s: Store, id: string): (Store, bool) {
    if id !in s.findings || !s.findings[id].Silenced() then (s, false)
    else
      var f := s.findings[id];
      var rules := if f.suppressed && f.resourceID != "" then s.rules - RulesFor(s.rules, f) else s.rules;
      (Put(s, id, f.(dismissedReason := "", suppressed := false, acknowledgedAt := None)).(rules := rules), true)
  }

  function RuleAdded(s: Store, ruleID: string, rule: SuppressionRule): Store {
    s.(rules := s.rules[ruleID := rule])
  }

  // ruleID stands for the id made of resource, category and clock.
  function Suppressed(s: Store, id: string, ruleID: string, now: Time): (Store, bool) {
    if id !in s.findings then (s, false)
    else
      var f := s.findings[id];
      (RuleAdded(Put(s, id, f.(suppressed := true, dismissedReason := "suppressed", acknowledgedAt := Some(now))), ruleID,
                 SuppressionRule(f.resourceID, f.resourceName, f.category, "Suppressed via finding")), true)
  }

  const FINDING_RULE: string := "finding_"

  function RuleDeleted(s: Store, ruleID: string): (Store, bool) {
    if ruleID in s.rules then (s.(rules := s.rules - {ruleID}), true)
    else if FINDING_RULE <= ruleID then
      var id := ruleID[|FINDING_RULE|..];
      if id in s.findings && s.findings[id].Silenced() then
        (Put(s, id, s.findings[id].(suppressed := false, dismissedReason := "", acknowledgedAt := None)), true)
      else (s, false)
    else (s, false)
  }

  // ----- loading and cleaning up -----

  predicate Stale(f: Finding, maxAge: int, now: Time) {
    (f.resolvedAt.Some? && f.resolvedAt.value < now - maxAge) ||
    (f.dismissedReason != "" && !f.suppressed && f.lastSeenAt < now - 30 * DAY)
  }

  function StaleIds(s: Store, maxAge: int, now: Time): set<string> {
    set id | id in s.findings && Stale(s.findings[id], maxAge, now)
  }

  function Without(s: Store, id: string): Store
    requires id in s.findings
  {
    var r := s.findings[id].resourceID;
    s.(findings := s.findings - {id},
       byResource := if id in Ids(s.byResource, r) then s.byResource[r := RemoveFirst(Ids(s.byResource, r), id)] else s.byResource)
  }

  // Cleanup and loading walk a Go map, in an order nobody controls.
  function WithoutAll(s: Store, order: seq<string>): (t: Store)
    requires forall i :: 0 <= i < |order| ==> order[i] in s.findings
    requires forall i, j :: 0 <= i < j < |order| ==> order[i] != order[j]
    ensures forall id :: id in t.findings <==> id in s.findings && id !in order
    ensures forall id :: id in t.findings ==> t.findings[id] == s.findings[id]
  {
    if order == [] then s else Without(WithoutAll(s, order[..|order| - 1]), order[|order| - 1])
  }

  function LoadedOne(s: Store, id: string, f: Finding): Store {
    s.(findings := s.findings[id := f],
       byResource := s.byResource[f.resourceID := Ids(s.byResource, f.resourceID) + [id]])
  }

  function LoadedAll(s: Store, loaded: map<string, Finding>, order: seq<string>): Store
    requires forall i :: 0 <= i < |order| ==> order[i] in loaded
  {
    if order == [] then s
    else LoadedOne(LoadedAll(s, loaded, order[..|order| - 1]), order[|order| - 1], loaded[order[|order| - 1]])
  }

  // order lists every element of ids once.
  ghost predicate Enumerates(order: seq<string>, ids: set<string>) {
    (forall i :: 0 <= i < |order| ==> order[i] in ids) &&
    (forall id :: id in ids ==> id in order) &&
    (forall i, j :: 0 <= i < j < |order| ==> order[i] != order[j])
  }

  lemma EnumeratesOneMore(order: seq<string>, all: set<string>, todo: set<string>, id: string)
    requires Enumerates(order, all - todo) && id in all && id in todo
    ensures Enumerates(order + [id], all - (todo - {id}))
  {
  }

  lemma WithoutOneMore(s: Store, order: seq<string>, id: string)
    requires forall i :: 0 <= i < |order| ==> order[i] in s.findings
    requires forall i, j :: 0 <= i < j < |order| ==> order[i] != order[j]
    requires id in s.findings && id !in order
    ensures WithoutAll(s, order + [id]) == Without(WithoutAll(s, order), id)
  {
    assert (order + [id])[..|order|] == order;
  }

  function ActiveOf(findings: map<string, Finding>, ids: seq<string>, now: Time): seq<Finding> {
    if ids == [] then []
    else
      var rest := ActiveOf(findings, ids[..|ids| - 1], now);
      var id := ids[|ids| - 1];
      if id in findings && findings[id].IsActive(now) then rest + [findings[id]] else rest
  }

  // ----- the code -----

  class FindingsStore {
    var findings: map<string, Finding>
    var byResource: map<string, seq<string>>
    var suppressionRules: map<string, SuppressionRule>

    ghost function Contents(): Store
      reads this
    {
      Store(findings, byResource, suppressionRules)
    }

    constructor ()
      ensures Contents() == EmptyStore
    {
      findings, byResource, suppressionRules := map[], map[], map[];
    }

    method Load(loaded: map<string, Finding>) returns (ghost order: seq<string>)
      modifies this
      ensures Enumerates(order, loaded.Keys)
      ensures Contents() == LoadedAll(old(Contents()), loaded, order)
    {
      order := [];
      var todo := loaded.Keys;
      while todo != {}
        invariant todo <= loaded.Keys
        invariant Enumerates(order, loaded.Keys - todo)
        invariant Contents() == LoadedAll(old(Contents()), loaded, order)
        decreases todo
      {
        var id :| id in todo;
        var f := loaded[id];
        assert (order + [id])[..|order|] == order;
        findings := findings[id := f];
        byResource := byResource[f.resourceID := Ids(byResource, f.resourceID) + [id]];
        order := order + [id];
        todo := todo - {id};
      }
    }

    method IsSuppressedInternal(resourceID: string, category: string) returns (suppressed: bool)
      ensures suppressed <==> IsSuppressed(suppressionRules, resourceID, category)
    {
      var todo := suppressionRules.Keys;
      while todo != {}
        invariant todo <= suppressionRules.Keys
        invariant forall r :: r in suppressionRules && r !in todo ==> !suppressionRules[r].Matches(resourceID, category)
        decreases todo
      {
        var r :| r in todo;
        var rule := suppressionRules[r];
        if (rule.resourceID == "" || rule.resourceID == resourceID) && (rule.category == "" || rule.category == category) {
          return true;
        }
        todo := todo - {r};
      }
      return false;
    }

    // The in-place updates Add makes to a finding it already knows.
    method UpdateKnown(f: Finding, now: Time)
      requires f.id in findings && f.resourceType != ""
      modifies this`findings
      ensures findings == old(findings)[f.id := Reported(old(findings)[f.id], f, now)]
    {
      var existing := findings[f.id];
      var wasResolved := existing.resolvedAt.Some?;
      if existing.resourceType == "" {
        existing := existing.(resourceType := f.resourceType);
      }
      if existing.dismissedReason != "" || existing.suppressed {
        if SeverityOrder(f.severity) <= SeverityOrder(existing.severity) {
          existing := existing.(lastSeenAt := now);
          existing := existing.(timesRaised := existing.timesRaised + 1);
          findings := findings[f.id := existing];
          return;
        }
        existing := existing.(dismissedReason := "", suppressed := false, userNote := "", acknowledgedAt := None);
      }
      existing := existing.(lastSeenAt := now, description := f.description, recommendation := f.recommendation,
                            evidence := f.evidence, title := f.title, severity := f.severity);
      existing := existing.(timesRaised := existing.timesRaised + 1);
      if wasResolved {
        existing := existing.(resolvedAt := None, autoResolved := false, resolveReason := "");
      }
      findings := findings[f.id := existing];
    }

    method Add(g: Finding, now: Time) returns (isNew: bool)
      modifies this
      ensures (Contents(), isNew) == Added(old(Contents()), g, now)
    {
      var f := g;
      if f.resourceType == "" {
        f := f.(resourceType := InferResourceType(f.resourceID, f.resourceName));
      }
      if f.id in findings {
        UpdateKnown(f, now);
        return false;
      }
      var blocked := IsSuppressedInternal(f.resourceID, f.category);
      if blocked {
        return false;
      }
      StoreNew(f, now);
      return true;
    }

    method StoreNew(g: Finding, now: Time)
      modifies this
      ensures Contents() == Indexed(old(Contents()), Stamped(g, now))
    {
      var f := g;
      if f.detectedAt.None? {
        f := f.(detectedAt := Some(now));
      }
      f := f.(lastSeenAt := now);
      findings := findings[f.id := f];
      byResource := byResource[f.resourceID := Ids(byResource, f.resourceID) + [f.id]];
    }

    method Resolve(id: string, auto: bool, now: Time) returns (ok: bool)
      modifies this`findings
      ensures (Contents(), ok) == Resolved(old(Contents()), id, auto, None, now)
    {
      if id !in findings || !findings[id].IsActive(now) {
        return false;
      }
      findings := findings[id := findings[id].(resolvedAt := Some(now), autoResolved := auto)];
      return true;
    }

    method ResolveWithReason(id: string, reason: string, now: Time) returns (ok: bool)
      modifies this`findings
      ensures (Contents(), ok) == Resolved(old(Contents()), id, true, Some(reason), now)
    {
      if id !in findings || !findings[id].IsActive(now) {
        return false;
      }
      findings := findings[id := findings[id].(resolvedAt := Some(now), autoResolved := true, resolveReason := reason)];
      return true;
    }

    method Acknowledge(id: string, now: Time) returns (ok: bool)
      modifies this`findings
      ensures (Contents(), ok) == Acknowledged(old(Contents()), id, now)
    {
      if id !in findings {
        return false;
      }
      findings := findings[id := findings[id].(acknowledgedAt := Some(now))];
      return true;
    }

    method Snooze(id: string, duration: int, now: Time) returns (ok: bool)
      modifies this`findings
      ensures (Contents(), ok) == Snoozed(old(Contents()), id, duration, now)
    {
      if id !in findings || findings[id].IsResolved() {
        return false;
      }
      findings := findings[id := findings[id].(snoozedUntil := Some(now + duration))];
      return true;
    }

    method Unsnooze(id: string) returns (ok: bool)
      modifies this`findings
      ensures (Contents(), ok) == Unsnoozed(old(Contents()), id)
    {
      if id !in findings || findings[id].IsResolved() {
        return false;
      }
      if findings[id].snoozedUntil.Some? {
        findings := findings[id := findings[id].(snoozedUntil := None)];
      }
      assert findings == old(findings)[id := old(findings)[id].(snoozedUntil := None)];
      return true;
    }

    method Dismiss(id: string, reason: string, note: string, now: Time) returns (ok: bool)
      modifies this`findings
      ensures (Contents(), ok) == Dismissed(old(Contents()), id, reason, note, now)
    {
      if id !in findings {
        return false;
      }
      var f := findings[id];
      f := f.(dismissedReason := reason);
      if note != "" {
        f := f.(userNote := note);
      }
      f := f.(acknowledgedAt := Some(now));
      if reason == "not_an_issue" {
        f := f.(suppressed := true);
      }
      findings := findings[id := f];
      return true;
    }

    method Undismiss(id: string) returns (ok: bool)
      modifies this
      ensures (Contents(), ok) == Undismissed(old(Contents()), id)
    {
      if id !in findings {
        return false;
      }
      var f := findings[id];
      if f.dismissedReason == "" && !f.suppressed {
        return false;
      }
      if f.suppressed && f.resourceID != "" {
        DeleteRulesFor(f);
      }
      findings := findings[id := f.(dismissedReason := "", suppressed := false, acknowledgedAt := None)];
      return true;
    }

    method DeleteRulesFor(f: Finding)
      modifies this`suppressionRules
      ensures suppressionRules == old(suppressionRules) - RulesFor(old(suppressionRules), f)
    {
      ghost var before := suppressionRules;
      var todo := suppressionRules.Keys;
      while todo != {}
        invariant todo <= before.Keys
        invariant suppressionRules == before - (RulesFor(before, f) - todo)
        decreases todo
      {
        var r :| r in todo;
        assert r in suppressionRules;
        if suppressionRules[r].resourceID == f.resourceID && suppressionRules[r].category == f.category {
          suppressionRules := suppressionRules - {r};
        }
        todo := todo - {r};
      }
    }

    method Suppress(id: string, ruleID: string, now: Time) returns (ok: bool)
      modifies this
      ensures (Contents(), ok) == Suppressed(old(Contents()), id, ruleID, now)
    {
      if id !in findings {
        return false;
      }
      var f := findings[id];
      findings := findings[id := f.(suppressed := true, dismissedReason := "suppressed", acknowledgedAt := Some(now))];
      AddSuppressionRule(ruleID, SuppressionRule(f.resourceID, f.resourceName, f.category, "Suppressed via finding"));
      return true;
    }

    method AddSuppressionRule(ruleID: string, rule: SuppressionRule)
      modifies this`suppressionRules
      ensures Contents() == RuleAdded(old(Contents()), ruleID, rule)
    {
      suppressionRules := suppressionRules[ruleID := rule];
    }

    method DeleteSuppressionRule(ruleID: string) returns (ok: bool)
      modifies this
      ensures (Contents(), ok) == RuleDeleted(old(Contents()), ruleID)
    {
      if ruleID in suppressionRules {
        suppressionRules := suppressionRules - {ruleID};
        return true;
      }
      if FINDING_RULE <= ruleID {
        var findingID := ruleID[|FINDING_RULE|..];
        if findingID in findings && (findings[findingID].suppressed || findings[findingID].dismissedReason != "") {
          findings := findings[findingID := findings[findingID].(suppressed := false, dismissedReason := "", acknowledgedAt := None)];
          return true;
        }
      }
      return false;
    }

    method ClearAll() returns (count: nat)
      modifies this
      ensures Contents() == Store(map[], map[], old(suppressionRules)) && count == |old(findings)|
    {
      count := |findings|;
      findings := map[];
      byResource := map[];
    }

    method DropFromIndex(resourceID: string, id: string)
      modifies this`byResource
      ensures byResource ==
        if id in Ids(old(byResource), resourceID)
        then old(byResource)[resourceID := RemoveFirst(Ids(old(byResource), resourceID), id)] else old(byResource)
    {
      var ids := Ids(byResource, resourceID);
      RemovedAt(ids, id, 0);
      for i := 0 to |ids|
        invariant byResource == old(byResource)
        invariant id !in ids[..i]
      {
        if ids[i] == id {
          RemovedAt(ids, id, i);
          byResource := byResource[resourceID := RemoveAt(ids, i)];
          return;
        }
      }
    }

    method RemoveFinding(id: string)
      requires id in findings
      modifies this
      ensures Contents() == Without(old(Contents()), id)
    {
      var f := findings[id];
      findings := findings - {id};
      DropFromIndex(f.resourceID, id);
    }

    static method ShouldRemove(f: Finding, maxAge: int, now: Time) returns (shouldRemove: bool)
      ensures shouldRemove <==> Stale(f, maxAge, now)
    {
      shouldRemove := false;
      if f.resolvedAt.Some? && f.resolvedAt.value < now - maxAge {
        shouldRemove := true;
      }
      if f.dismissedReason != "" && !f.suppressed && f.lastSeenAt < now - 30 * DAY {
        shouldRemove := true;
      }
    }

    method Cleanup(maxAge: int, now: Time) returns (removed: nat, ghost order: seq<string>)
      modifies this
      ensures Enumerates(order, StaleIds(old(Contents()), maxAge, now)) && removed == |order|
      ensures Contents() == WithoutAll(old(Contents()), order)
    {
      ghost var s := Contents();
      removed := 0;
      order := [];
      var todo := findings.Keys;
      while todo != {}
        invariant todo <= s.findings.Keys && todo <= findings.Keys
        invariant Enumerates(order, StaleIds(s, maxAge, now) - todo) && removed == |order|
        invariant Contents() == WithoutAll(s, order)
        decreases todo
      {
        var id :| id in todo;
        assert findings[id] == s.findings[id];
        var shouldRemove := ShouldRemove(findings[id], maxAge, now);
        if shouldRemove {
          EnumeratesOneMore(order, StaleIds(s, maxAge, now), todo, id);
          WithoutOneMore(s, order, id);
          RemoveFinding(id);
          removed := removed + 1;
          order := order + [id];
        }
        todo := todo - {id};
      }
    }

    method GetByResource(resourceID: string, now: Time) returns (result: seq<Finding>)
      ensures result == ActiveOf(findings, Ids(byResource, resourceID), now)
    {
      var ids := Ids(byResource, resourceID);
      result := [];
      for i := 0 to |ids|
        invariant result == ActiveOf(findings, ids[..i], now)
      {
        assert ids[..i + 1][..i] == ids[..i];
        if ids[i] in findings && findings[ids[i]].IsActive(now) {
          result := result + [findings[ids[i]]];
        }
      }
      assert ids[..|ids|] == ids;
    }

    // The second locked section of AddWithDeduplication.
    method MergeInto(id: string, f: Finding, now: Time)
      modifies this`findings
      ensures Contents() == MergedInto(old(Contents()), id, f, now)
    {
      if id in findings {
        var existing := findings[id];
        existing := existing.(lastSeenAt := now);
        existing := existing.(timesRaised := existing.timesRaised + 1);
        if SeverityOrder(f.severity) > SeverityOrder(existing.severity) {
          existing := existing.(severity := f.severity);
        }
        if f.evidence != "" && f.evidence != existing.evidence {
          existing := existing.(evidence := existing.evidence + "\n---\n" + f.evidence);
          if |existing.evidence| > 5000 {
            existing := existing.(evidence := existing.evidence[..5000] + "...");
          }
        }
        findings := findings[id := existing];
      }
    }

    // The ids of the active findings at least this similar to f, in map order.
    method FindSimilarFindings(f: Finding, minSimilarity: real, now: Time) returns (similar: seq<Finding>)
      ensures SimilarOf(findings, f, minSimilarity, now, similar)
    {
      similar := [];
      var todo := findings.Keys;
      while todo != {}
        invariant todo <= findings.Keys
        invariant forall g :: g in similar <==>
          exists id :: id in findings && id !in todo && findings[id] == g && IsCandidate(g, f, minSimilarity, now)
        decreases todo
      {
        var id :| id in todo;
        todo := todo - {id};
        var existing := findings[id];
        if existing.id == f.id {
          continue;
        }
        if !existing.IsActive(now) {
          continue;
        }
        var similarity := SemanticSimilarity(f, existing);
        if similarity >= minSimilarity {
          similar := similar + [existing];
        }
      }
    }

    // The best-match scan; sim is the similarity to the reported finding.
    method MostSimilar(similar: seq<Finding>, sim: Finding -> real) returns (best: int)
      ensures -1 <= best < |similar|
      ensures best < 0 ==> forall j :: 0 <= j < |similar| ==> sim(similar[j]) <= 0.0
      ensures best >= 0 ==> sim(similar[best]) > 0.0
      ensures best >= 0 ==> forall j :: 0 <= j < |similar| ==> sim(similar[j]) <= sim(similar[best])
    {
      best := -1;
      var bestSimilarity := 0.0;
      for i := 0 to |similar|
        invariant -1 <= best < i
        invariant bestSimilarity == if best < 0 then 0.0 else sim(similar[best])
        invariant best >= 0 ==> bestSimilarity > 0.0
        invariant forall j :: 0 <= j < i ==> sim(similar[j]) <= bestSimilarity
      {
        if sim(similar[i]) > bestSimilarity {
          best := i;
          bestSimilarity := sim(similar[i]);
        }
      }
    }

    // With nothing running in between its sections: the report goes to a most similar
    // active finding of another id if one is similar enough, and is added otherwise.
    method AddWithDeduplication(f: Finding, minSimilarity: real, now: Time) returns (id: string, isNew: bool)
      modifies this
      ensures (exists g :: MergesWith(old(Contents()), f, minSimilarity, now, g) && id == g.id && !isNew &&
                 Contents() == MergedInto(old(Contents()), g.id, f, now)) ||
              (id == f.id && (Contents(), isNew) == Added(old(Contents()), f, now) &&
                 forall g :: !MergesWith(old(Contents()), f, minSimilarity, now, g))
    {
      ghost var s := Contents();
      var similar := FindSimilarFindings(f, minSimilarity, now);
      if |similar| > 0 {
        var best := MostSimilar(similar, g => SemanticSimilarity(f, g));
        if best >= 0 {
          BestMerges(s, f, minSimilarity, now, similar, best);
          MergeInto(similar[best].id, f, now);
          return similar[best].id, false;
        }
      }
      NoneMerges(s, f, minSimilarity, now, similar);
      isNew := Add(f, now);
      id := f.id;
    }
  }

  predicate IsCandidate(g: Finding, f: Finding, minSimilarity: real, now: Time) {
    g.id != f.id && g.IsActive(now) && SemanticSimilarity(f, g) >= minSimilarity
  }

  // g is stored, similar enough, and no other candidate is more similar.
  ghost predicate MergesWith(s: Store, f: Finding, minSimilarity: real, now: Time, g: Finding) {
    (exists id :: id in s.findings && s.findings[id] == g) && IsCandidate(g, f, minSimilarity, now) &&
    SemanticSimilarity(f, g) > 0.0 &&
    forall id :: id in s.findings && IsCandidate(s.findings[id], f, minSimilarity, now) ==>
      SemanticSimilarity(f, s.findings[id]) <= SemanticSimilarity(f, g)
  }

  ghost predicate SimilarOf(findings: map<string, Finding>, f: Finding, minSimilarity: real, now: Time, similar: seq<Finding>) {
    forall g :: g in similar <==>
      exists id :: id in findings && findings[id] == g && IsCandidate(g, f, minSimilarity, now)
  }

  lemma BestMerges(s: Store, f: Finding, minSimilarity: real, now: Time, similar: seq<Finding>, best: nat)
    requires SimilarOf(s.findings, f, minSimilarity, now, similar)
    requires best < |similar| && SemanticSimilarity(f, similar[best]) > 0.0
    requires forall j :: 0 <= j < |similar| ==> SemanticSimilarity(f, similar[j]) <= SemanticSimilarity(f, similar[best])
    ensures MergesWith(s, f, minSimilarity, now, similar[best])
  {
    assert similar[best] in similar;
    forall id | id in s.findings && IsCandidate(s.findings[id], f, minSimilarity, now)
      ensures SemanticSimilarity(f, s.findings[id]) <= SemanticSimilarity(f, similar[best])
    {
      assert s.findings[id] in similar;
    }
  }

  lemma NoneMerges(s: Store, f: Finding, minSimilarity: real, now: Time, similar: seq<Finding>)
    requires SimilarOf(s.findings, f, minSimilarity, now, similar)
    requires forall j :: 0 <= j < |similar| ==> SemanticSimilarity(f, similar[j]) <= 0.0
    ensures forall g :: !MergesWith(s, f, minSimilarity, now, g)
  {
    forall g ensures !MergesWith(s, f, minSimilarity, now, g) {
      assert (exists id :: id in s.findings && s.findings[id] == g) && IsCandidate(g, f, minSimilarity, now) ==> g in similar;
    }
  }
}
