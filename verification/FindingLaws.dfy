// What reports and the user's answers do to a stored finding, in terms of its fields
// (internal/ai/findings.go:484-1010).
module FindingLaws {
  import opened Prelude
  import opened Findings
  import opened FindingsStore
  import opened Similarity

  // ----- who is touched -----

  // Nothing but finding id, and perhaps the rules, differs.
  ghost predicate OnlyAt(s: Store, t: Store, id: string) {
    id in s.findings && t.byResource == s.byResource && t.findings.Keys == s.findings.Keys &&
    forall other :: other in s.findings && other != id ==> t.findings[other] == s.findings[other]
  }

  // What no operation ever changes about a finding.
  predicate SameSubject(f: Finding, g: Finding) {
    f.id == g.id && f.key == g.key && f.category == g.category && f.resourceID == g.resourceID &&
    f.resourceName == g.resourceName && f.detectedAt == g.detectedAt
  }

  predicate SameTexts(f: Finding, g: Finding) {
    f.title == g.title && f.description == g.description && f.recommendation == g.recommendation &&
    f.evidence == g.evidence && f.severity == g.severity
  }

  predicate SameResolution(f: Finding, g: Finding) {
    f.resolvedAt == g.resolvedAt && f.autoResolved == g.autoResolved && f.resolveReason == g.resolveReason
  }

  predicate SameFeedback(f: Finding, g: Finding) {
    f.dismissedReason == g.dismissedReason && f.suppressed == g.suppressed && f.userNote == g.userNote &&
    f.acknowledgedAt == g.acknowledgedAt
  }

  predicate SameCounts(f: Finding, g: Finding) {
    f.lastSeenAt == g.lastSeenAt && f.timesRaised == g.timesRaised && f.resourceType == g.resourceType
  }

  // Active, by the fields.
  predicate Shown(f: Finding, now: Time) {
    f.resolvedAt == None && f.dismissedReason == "" && !f.suppressed &&
    !(f.snoozedUntil.Some? && now < f.snoozedUntil.value)
  }

  lemma ShownIsActive(f: Finding, now: Time)
    ensures Shown(f, now) <==> f.IsActive(now)
  {
  }

  // ----- a report of a known finding -----

  // critical is worse than warning, warning than watch, and watch than any other word.
  predicate MoreSevere(a: string, b: string) {
    (a == "critical" && b != "critical") ||
    (a == "warning" && b != "critical" && b != "warning") ||
    (a == "watch" && b != "critical" && b != "warning" && b != "watch")
  }

  lemma MoreSevereMeans(a: string, b: string)
    ensures MoreSevere(a, b) <==> SeverityOrder(a) > SeverityOrder(b)
  {
  }

  // The report is taken over: its texts and its severity, and whatever was resolved or
  // silenced is open again.
  predicate TakesOver(f: Finding, known: Finding, g: Finding, now: Time) {
    SameTexts(f, g) && f.snoozedUntil == known.snoozedUntil && f.resolvedAt == None &&
    (if known.resolvedAt.Some? then !f.autoResolved && f.resolveReason == ""
     else f.autoResolved == known.autoResolved && f.resolveReason == known.resolveReason) &&
    (if known.dismissedReason != "" || known.suppressed
     then f.dismissedReason == "" && !f.suppressed && f.userNote == "" && f.acknowledgedAt == None
     else SameFeedback(f, known)) &&
    (Shown(f, now) <==> !(known.snoozedUntil.Some? && now < known.snoozedUntil.value))
  }

  // The report is only counted.
  predicate Counts(f: Finding, known: Finding) {
    SameTexts(f, known) && SameResolution(f, known) && SameFeedback(f, known) && f.snoozedUntil == known.snoozedUntil
  }

  lemma ReportedCounts(known: Finding, g: Finding, now: Time)
    requires known.Silenced() && SeverityOrder(g.severity) <= SeverityOrder(known.severity)
    ensures Counts(Reported(known, g, now), known)
  {
  }

  lemma ReportedTakesOver(known: Finding, g: Finding, now: Time)
    requires !known.Silenced() || SeverityOrder(g.severity) > SeverityOrder(known.severity)
    ensures TakesOver(Reported(known, g, now), known, g, now)
  {
  }

  lemma ReportedIsSameSubject(known: Finding, g: Finding, now: Time)
    ensures SameSubject(Reported(known, g, now), known)
  {
    if known.Silenced() {
      if SeverityOrder(g.severity) > SeverityOrder(known.severity) {
        if known.IsResolved() {}
      }
    } else if known.IsResolved() {
    }
  }

  lemma ReportedIsSeen(known: Finding, g: Finding, now: Time)
    ensures Reported(known, g, now).lastSeenAt == now && Reported(known, g, now).timesRaised == known.timesRaised + 1
    ensures Reported(known, g, now).resourceType == if known.resourceType != "" then known.resourceType else g.resourceType
  {
    if known.Silenced() {
      if SeverityOrder(g.severity) > SeverityOrder(known.severity) {
        if known.IsResolved() {}
      }
    } else if known.IsResolved() {
    }
  }

  lemma ReportedMeans(known: Finding, g: Finding, now: Time)
    ensures if (known.dismissedReason != "" || known.suppressed) && !MoreSevere(g.severity, known.severity)
      then Counts(Reported(known, g, now), known) else TakesOver(Reported(known, g, now), known, g, now)
  {
    MoreSevereMeans(g.severity, known.severity);
    if known.Silenced() && SeverityOrder(g.severity) <= SeverityOrder(known.severity) {
      ReportedCounts(known, g, now);
    } else {
      ReportedTakesOver(known, g, now);
    }
  }

  lemma TypedReport(g: Finding)
    ensures var f := WithType(g);
      SameSubject(f, g) && SameTexts(f, g) && SameResolution(f, g) && SameFeedback(f, g) && f.snoozedUntil == g.snoozedUntil &&
      f.timesRaised == g.timesRaised && f.resourceType != "" && (g.resourceType != "" ==> f.resourceType == g.resourceType)
  {
  }

  // A report of a known finding is taken over unless the finding is silenced and the report
  // is no worse, and then it is only counted. Nothing else in the store changes.
  lemma ReportOfKnown(s: Store, g: Finding, now: Time)
    requires g.id in s.findings
    ensures OnlyAt(s, Added(s, g, now).0, g.id) && Added(s, g, now).0.rules == s.rules && !Added(s, g, now).1
    ensures var (known, f) := (s.findings[g.id], Added(s, g, now).0.findings[g.id]);
      SameSubject(f, known) && f.lastSeenAt == now && f.timesRaised == known.timesRaised + 1 &&
      (known.resourceType != "" ==> f.resourceType == known.resourceType) &&
      (known.resourceType == "" ==> f.resourceType != "" && (g.resourceType != "" ==> f.resourceType == g.resourceType)) &&
      if (known.dismissedReason != "" || known.suppressed) && !MoreSevere(g.severity, known.severity)
      then Counts(f, known) else TakesOver(f, known, g, now)
  {
    TypedReport(g);
    ReportedIsSameSubject(s.findings[g.id], WithType(g), now);
    ReportedIsSeen(s.findings[g.id], WithType(g), now);
    ReportedMeans(s.findings[g.id], WithType(g), now);
  }

  // So a finding that was resolved and comes back is open again.
  lemma RecurrenceReopens(s: Store, g: Finding, now: Time, later: Time)
    requires g.id in s.findings && s.findings[g.id].dismissedReason == "" && !s.findings[g.id].suppressed
    requires s.findings[g.id].snoozedUntil == None
    ensures g.id in Added(s, g, now).0.findings && Added(s, g, now).0.findings[g.id].IsActive(later)
  {
    ReportOfKnown(s, g, now);
    ShownIsActive(Added(s, g, now).0.findings[g.id], later);
  }

  // ----- a new finding -----

  predicate Blocks(rule: SuppressionRule, resource: string, category: string) {
    (rule.resourceID == "" || rule.resourceID == resource) && (rule.category == "" || rule.category == category)
  }

  ghost predicate Blocked(rules: map<string, SuppressionRule>, resource: string, category: string) {
    exists r :: r in rules && Blocks(rules[r], resource, category)
  }

  lemma BlockedMeans(rules: map<string, SuppressionRule>, resource: string, category: string)
    ensures IsSuppressed(rules, resource, category) <==> Blocked(rules, resource, category)
  {
    if r :| r in rules && rules[r].Matches(resource, category) {
      assert Blocks(rules[r], resource, category);
    }
    if r :| r in rules && Blocks(rules[r], resource, category) {
      assert rules[r].Matches(resource, category);
    }
  }

  // The store has f as well, listed last under its resource.
  ghost predicate Stores(s: Store, t: Store, f: Finding) {
    t.rules == s.rules && t.findings.Keys == s.findings.Keys + {f.id} && t.findings[f.id] == f &&
    (forall id :: id in s.findings && id != f.id ==> t.findings[id] == s.findings[id]) &&
    t.byResource.Keys == s.byResource.Keys + {f.resourceID} &&
    (forall r :: r in s.byResource && r != f.resourceID ==> t.byResource[r] == s.byResource[r]) &&
    t.byResource[f.resourceID] == (if f.resourceID in s.byResource then s.byResource[f.resourceID] else []) + [f.id]
  }

  lemma IndexedStores(s: Store, f: Finding)
    ensures Stores(s, Indexed(s, f), f)
  {
  }

  // As reported, but seen now, and detected now when the report names no time.
  predicate SeenFirst(f: Finding, g: Finding, now: Time) {
    SameTexts(f, g) && SameResolution(f, g) && SameFeedback(f, g) && f.snoozedUntil == g.snoozedUntil &&
    f.id == g.id && f.key == g.key && f.category == g.category && f.resourceID == g.resourceID && f.resourceName == g.resourceName &&
    f.detectedAt == (if g.detectedAt == None then Some(now) else g.detectedAt) && f.lastSeenAt == now &&
    f.timesRaised == g.timesRaised && f.resourceType != "" && (g.resourceType != "" ==> f.resourceType == g.resourceType)
  }

  lemma StampedIsSeenFirst(f: Finding, g: Finding, now: Time)
    requires SameTexts(f, g) && SameResolution(f, g) && SameFeedback(f, g) && f.snoozedUntil == g.snoozedUntil && SameSubject(f, g)
    requires f.timesRaised == g.timesRaised && f.resourceType != "" && (g.resourceType != "" ==> f.resourceType == g.resourceType)
    ensures SeenFirst(Stamped(f, now), g, now)
  {
  }

  lemma AddedNew(s: Store, g: Finding, now: Time)
    requires WithType(g).id !in s.findings && WithType(g).resourceID == g.resourceID && WithType(g).category == g.category
    ensures Added(s, g, now) ==
      if IsSuppressed(s.rules, g.resourceID, g.category) then (s, false) else (Indexed(s, Stamped(WithType(g), now)), true)
  {
  }

  // A finding not known yet is refused when a rule blocks its resource and category, and
  // otherwise stored as reported.
  lemma ReportOfNew(s: Store, g: Finding, now: Time)
    requires g.id !in s.findings
    ensures if Blocked(s.rules, g.resourceID, g.category) then Added(s, g, now) == (s, false)
      else Added(s, g, now).1 && exists f :: SeenFirst(f, g, now) && Stores(s, Added(s, g, now).0, f)
  {
    TypedReport(g);
    AddedNew(s, g, now);
    BlockedMeans(s.rules, g.resourceID, g.category);
    if !IsSuppressed(s.rules, g.resourceID, g.category) {
      StampedIsSeenFirst(WithType(g), g, now);
      IndexedStores(s, Stamped(WithType(g), now));
    }
  }

  // ----- a report folded into another finding -----

  // Evidence is appended behind a separator and cut at 5000 characters.
  predicate JoinedEvidence(joined: string, stored: string, reported: string) {
    var whole := stored + "\n---\n" + reported;
    if reported == "" || reported == stored then joined == stored
    else if |whole| <= 5000 then joined == whole
    else |joined| == 5003 && joined[..5000] == whole[..5000] && joined[5000..] == "..."
  }

  lemma EvidenceJoins(stored: string, reported: string)
    ensures JoinedEvidence(MergedEvidence(stored, reported), stored, reported)
  {
    var whole := stored + "\n---\n" + reported;
    if |whole| > 5000 {
      assert (whole[..5000] + "...")[..5000] == whole[..5000] && (whole[..5000] + "...")[5000..] == "...";
    }
  }

  // A merge keeps everything about the finding but its count, its evidence and the time it
  // was seen; its severity only rises, to that of a worse report.
  lemma MergeFolds(s: Store, id: string, g: Finding, now: Time)
    ensures id !in s.findings ==> MergedInto(s, id, g, now) == s
    ensures id in s.findings ==>
      var (t, known) := (MergedInto(s, id, g, now), s.findings[id]);
      OnlyAt(s, t, id) && t.rules == s.rules && var f := t.findings[id];
      SameSubject(f, known) && SameResolution(f, known) && SameFeedback(f, known) && f.snoozedUntil == known.snoozedUntil &&
      f.title == known.title && f.description == known.description && f.recommendation == known.recommendation &&
      f.resourceType == known.resourceType && f.lastSeenAt == now && f.timesRaised == known.timesRaised + 1 &&
      f.severity == (if MoreSevere(g.severity, known.severity) then g.severity else known.severity) &&
      JoinedEvidence(f.evidence, known.evidence, g.evidence)
  {
    if id in s.findings {
      MoreSevereMeans(g.severity, s.findings[id].severity);
      EvidenceJoins(s.findings[id].evidence, g.evidence);
    }
  }

  // ----- the user's answers -----

  // Only feedback and resolution may differ.
  predicate SameReport(f: Finding, g: Finding) {
    SameSubject(f, g) && SameTexts(f, g) && SameCounts(f, g)
  }

  // A finding shown now, and only such a one, can be resolved, and is not shown any more.
  lemma ResolveCloses(s: Store, id: string, auto: bool, because: Option<string>, now: Time)
    ensures var (t, ok) := Resolved(s, id, auto, because, now);
      (ok <==> id in s.findings && Shown(s.findings[id], now)) && (!ok ==> t == s) &&
      (ok ==> OnlyAt(s, t, id) && t.rules == s.rules && var (f, was) := (t.findings[id], s.findings[id]);
        SameReport(f, was) && SameFeedback(f, was) && f.snoozedUntil == was.snoozedUntil &&
        f.resolvedAt == Some(now) && f.autoResolved == auto &&
        f.resolveReason == (if because.Some? then because.value else was.resolveReason) &&
        forall later :: !f.IsActive(later))
  {
    if id in s.findings {
      ShownIsActive(s.findings[id], now);
    }
  }

  // A snoozed finding is shown again as soon as the time is over, and not before; unsnoozing
  // shows it at once. Neither touches what is resolved.
  lemma SnoozeHidesUntil(s: Store, id: string, duration: int, now: Time)
    ensures var (t, ok) := Snoozed(s, id, duration, now);
      (ok <==> id in s.findings && s.findings[id].resolvedAt == None) && (!ok ==> t == s) &&
      (ok ==> OnlyAt(s, t, id) && t.rules == s.rules && var (f, was) := (t.findings[id], s.findings[id]);
        SameReport(f, was) && SameFeedback(f, was) && SameResolution(f, was) &&
        forall later :: f.IsActive(later) <==> later >= now + duration && was.dismissedReason == "" && !was.suppressed)
    ensures var (t, ok) := Unsnoozed(s, id);
      (ok <==> id in s.findings && s.findings[id].resolvedAt == None) && (!ok ==> t == s) &&
      (ok ==> OnlyAt(s, t, id) && t.rules == s.rules && var (f, was) := (t.findings[id], s.findings[id]);
        SameReport(f, was) && SameFeedback(f, was) && SameResolution(f, was) && f.snoozedUntil == None &&
        forall later :: f.IsActive(later) <==> was.dismissedReason == "" && !was.suppressed)
  {
  }

  // A dismissed finding is not shown; only "not_an_issue" suppresses it for good.
  lemma DismissSilences(s: Store, id: string, reason: string, note: string, now: Time)
    ensures var (t, ok) := Dismissed(s, id, reason, note, now);
      (ok <==> id in s.findings) && (!ok ==> t == s) &&
      (ok ==> OnlyAt(s, t, id) && t.rules == s.rules && var (f, was) := (t.findings[id], s.findings[id]);
        SameReport(f, was) && SameResolution(f, was) && f.snoozedUntil == was.snoozedUntil &&
        f.dismissedReason == reason && f.userNote == (if note == "" then was.userNote else note) && f.acknowledgedAt == Some(now) &&
        (f.suppressed <==> was.suppressed || reason == "not_an_issue") &&
        (reason != "" ==> forall later :: !f.IsActive(later)))
  {
  }

  // Undismissing a silenced finding shows it again unless it is resolved or snoozed.
  lemma UndismissShows(s: Store, id: string)
    ensures var (t, ok) := Undismissed(s, id);
      (ok <==> id in s.findings && (s.findings[id].dismissedReason != "" || s.findings[id].suppressed)) && (!ok ==> t == s) &&
      (ok ==> OnlyAt(s, t, id) && var (f, was) := (t.findings[id], s.findings[id]);
        SameReport(f, was) && SameResolution(f, was) && f.snoozedUntil == was.snoozedUntil && f.userNote == was.userNote &&
        f.dismissedReason == "" && !f.suppressed && f.acknowledgedAt == None &&
        forall later :: f.IsActive(later) <==>
          was.resolvedAt == None && !(was.snoozedUntil.Some? && later < was.snoozedUntil.value))
  {
  }

  // A suppressed finding is not shown, and a rule for its resource and category is added.
  lemma SuppressSilences(s: Store, id: string, ruleID: string, now: Time)
    ensures var (t, ok) := Suppressed(s, id, ruleID, now);
      (ok <==> id in s.findings) && (!ok ==> t == s) &&
      (ok ==> OnlyAt(s, t, id) && var (f, was) := (t.findings[id], s.findings[id]);
        SameReport(f, was) && SameResolution(f, was) && f.snoozedUntil == was.snoozedUntil && f.userNote == was.userNote &&
        f.suppressed && f.dismissedReason == "suppressed" && f.acknowledgedAt == Some(now) &&
        (forall later :: !f.IsActive(later)) &&
        t.rules.Keys == s.rules.Keys + {ruleID} && (forall r :: r in s.rules && r != ruleID ==> t.rules[r] == s.rules[r]) &&
        t.rules[ruleID].resourceID == was.resourceID && t.rules[ruleID].category == was.category)
  {
  }

  // Acknowledging changes nothing about what is shown.
  lemma AcknowledgeKeepsShown(s: Store, id: string, now: Time)
    ensures var (t, ok) := Acknowledged(s, id, now);
      (ok <==> id in s.findings) && (!ok ==> t == s) &&
      (ok ==> OnlyAt(s, t, id) && t.rules == s.rules && var (f, was) := (t.findings[id], s.findings[id]);
        SameReport(f, was) && SameResolution(f, was) && f.snoozedUntil == was.snoozedUntil && f.userNote == was.userNote &&
        f.dismissedReason == was.dismissedReason && f.suppressed == was.suppressed && f.acknowledgedAt == Some(now))
  {
  }

  lemma DismissalIsUndone(f: Finding, was: Finding, later: Time)
    requires SameResolution(f, was) && f.snoozedUntil == was.snoozedUntil && f.dismissedReason == "" && !f.suppressed
    requires was.dismissedReason == "" && !was.suppressed
    ensures f.IsActive(later) <==> was.IsActive(later)
  {
  }

  // Undismissing takes a dismissal back: of a finding that was not silenced before, only the
  // acknowledgement and the note differ.
  lemma UndismissTakesBack(s: Store, id: string, reason: string, note: string, now: Time, later: Time)
    requires id in s.findings && s.findings[id].dismissedReason == "" && !s.findings[id].suppressed && reason != ""
    ensures var t := Undismissed(Dismissed(s, id, reason, note, now).0, id).0;
      id in t.findings && var (f, was) := (t.findings[id], s.findings[id]);
      SameReport(f, was) && SameResolution(f, was) && f.snoozedUntil == was.snoozedUntil &&
      f.dismissedReason == "" && !f.suppressed && (f.IsActive(later) <==> was.IsActive(later))
  {
    var once := Dismissed(s, id, reason, note, now).0;
    DismissSilences(s, id, reason, note, now);
    UndismissShows(once, id);
    DismissalIsUndone(Undismissed(once, id).0.findings[id], s.findings[id], later);
  }

  // A rule is deleted by its id, and "finding_" with the id of a silenced finding stands for
  // the silence of that finding.
  lemma RuleDeletionMeans(s: Store, ruleID: string)
    ensures ruleID in s.rules ==> RuleDeleted(s, ruleID) == (s.(rules := s.rules - {ruleID}), true)
    ensures forall id :: ruleID == "finding_" + id && ruleID !in s.rules ==>
      var (t, ok) := RuleDeleted(s, ruleID);
      (ok <==> id in s.findings && (s.findings[id].dismissedReason != "" || s.findings[id].suppressed)) && (!ok ==> t == s) &&
      (ok ==> OnlyAt(s, t, id) && t.rules == s.rules && var (f, was) := (t.findings[id], s.findings[id]);
        SameReport(f, was) && SameResolution(f, was) && f.snoozedUntil == was.snoozedUntil && f.userNote == was.userNote &&
        f.dismissedReason == "" && !f.suppressed && f.acknowledgedAt == None)
    ensures ruleID !in s.rules && (forall id :: ruleID != "finding_" + id) ==> RuleDeleted(s, ruleID) == (s, false)
  {
    assert FINDING_RULE <= ruleID ==> ruleID == "finding_" + ruleID[|FINDING_RULE|..];
    forall id | ruleID == "finding_" + id ensures ruleID[|FINDING_RULE|..] == id && FINDING_RULE <= ruleID {
    }
  }

  // ----- cleaning up -----

  // Resolved longer ago than the maximal age, or dismissed but not suppressed and not seen for
  // thirty days.
  predicate Outlived(f: Finding, maxAge: int, now: Time) {
    (f.resolvedAt.Some? && now - f.resolvedAt.value > maxAge) ||
    (f.dismissedReason != "" && !f.suppressed && now - f.lastSeenAt > 30 * 24 * 3600 * SECOND)
  }

  // Cleaning up removes exactly the findings that have outlived themselves.
  lemma CleanupRemovesOutlived(s: Store, order: seq<string>, maxAge: int, now: Time)
    requires Enumerates(order, StaleIds(s, maxAge, now))
    ensures var t := WithoutAll(s, order);
      forall id :: (id in t.findings <==> id in s.findings && !Outlived(s.findings[id], maxAge, now)) &&
        (id in t.findings ==> t.findings[id] == s.findings[id])
  {
    forall id | id in s.findings ensures id in order <==> Outlived(s.findings[id], maxAge, now) {
      assert id in StaleIds(s, maxAge, now) <==> Stale(s.findings[id], maxAge, now);
    }
  }

  // ----- the finding a report is folded into -----

  // A stored finding of another id that is shown and similar enough.
  ghost predicate Eligible(s: Store, g: Finding, f: Finding, minSimilarity: real, now: Time) {
    g.id != f.id && Shown(g, now) && SemanticSimilarity(f, g) >= minSimilarity && exists id :: id in s.findings && s.findings[id] == g
  }

  // AddWithDeduplication folds a report into a finding exactly when it is eligible, has
  // something in common with the report, and no eligible one has more.
  lemma FoldsIntoTheMostSimilar(s: Store, f: Finding, minSimilarity: real, now: Time, g: Finding)
    ensures MergesWith(s, f, minSimilarity, now, g) <==>
      Eligible(s, g, f, minSimilarity, now) && SemanticSimilarity(f, g) > 0.0 &&
      forall h :: Eligible(s, h, f, minSimilarity, now) ==> SemanticSimilarity(f, h) <= SemanticSimilarity(f, g)
  {
    forall h: Finding ensures Shown(h, now) <==> h.IsActive(now) {
      ShownIsActive(h, now);
    }
    if Eligible(s, g, f, minSimilarity, now) {
      forall id | id in s.findings && IsCandidate(s.findings[id], f, minSimilarity, now)
        ensures Eligible(s, s.findings[id], f, minSimilarity, now)
      {
      }
    }
  }
}
