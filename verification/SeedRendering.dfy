// How the source renders, shortens and ranks a seed section
// (internal/ai/patrol_ai.go:1233-1319), and the layout made of these.
module SeedRendering {
  import opened SeedSections
  import opened SeedContext

  const OMISSION_NOTE: string := "\n[... truncated for provider context limit ...]\n\n"
  const MARKER: string := "\n[... truncated for provider context limit ...]\n"
  const BUDGET_NOTE: string := "# Context Budget Note\nProvider context window is smaller than the full patrol seed context. Lower-priority sections were omitted or truncated for this retry.\n\n"

  predicate EndsInNewlines(s: string, n: nat) {
    n <= |s| && forall i :: |s| - n <= i < |s| ==> s[i] == '\n'
  }

  function RenderPatrolSeedSection(section: Section): string {
    if section.heading == "" then section.body
    else if EndsInNewlines(section.body, 2) then section.heading + NEWLINE + section.body
    else if EndsInNewlines(section.body, 1) then section.heading + NEWLINE + section.body + NEWLINE
    else section.heading + NEWLINE + section.body + NEWLINE + NEWLINE
  }

  // The section's text, then newlines up to a blank line: at most two.
  lemma RenderedIsRawAndBlankLine(section: Section)
    ensures var r, raw := RenderPatrolSeedSection(section), Raw(section);
      |raw| <= |r| <= |raw| + 2 && r[..|raw|] == raw && EndsInNewlines(r, |r| - |raw|) &&
      (section.heading != "" ==> EndsInNewlines(r, 2)) &&
      (EndsInNewlines(section.body, 2) ==> r == raw)
  {
  }

  // The shortening; the text behind a shortened body is a parameter.
  function Shortened(omission: string, section: Section, maxChars: int): string {
    var rendered := RenderPatrolSeedSection(section);
    if |rendered| <= maxChars then rendered
    else if maxChars <= |section.heading| + 32 then ""
    else
      var bodyBudget := maxChars - |section.heading| - 1 - |omission|;
      if bodyBudget <= 16 then ""
      else
        var body := if |section.body| > bodyBudget then section.body[..bodyBudget] else section.body;
        section.heading + NEWLINE + TrimNewlines(body) + omission
  }

  lemma ShortenedFits(omission: string, section: Section, maxChars: nat)
    ensures |Shortened(omission, section, maxChars)| <= maxChars
  {
  }

  // A section longer than the room is given up exactly when the room leaves at most
  // sixteen characters of body beside the heading and the 49 of the note.
  lemma GivenUpIff(omission: string, section: Section, maxChars: int)
    requires |omission| == 49 && |RenderPatrolSeedSection(section)| > maxChars
    ensures Shortened(omission, section, maxChars) == "" <==> maxChars <= |section.heading| + 66
  {
  }

  // What is shown of a shortened section is its heading line and a start of its body: all
  // that the room allows, up to newlines at the end.
  lemma ShortenedShows(omission: string, section: Section, maxChars: int) returns (k: nat)
    requires |RenderPatrolSeedSection(section)| > maxChars && Shortened(omission, section, maxChars) != ""
    ensures k <= |section.body| && (k > 0 ==> section.body[k - 1] != '\n')
    ensures Shortened(omission, section, maxChars) == section.heading + NEWLINE + section.body[..k] + omission
    ensures forall i :: k <= i < |section.body| && |section.heading| + 1 + i + |omission| < maxChars ==> section.body[i] == '\n'
  {
    var bodyBudget := maxChars - |section.heading| - 1 - |omission|;
    var body := if |section.body| > bodyBudget then section.body[..bodyBudget] else section.body;
    k := |TrimNewlines(body)|;
    TrimmedAreNewlines(body);
  }

  lemma {:induction false} TrimmedAreNewlines(s: string)
    ensures forall i :: |TrimNewlines(s)| <= i < |s| ==> s[i] == '\n'
  {
    if s != "" && s[|s| - 1] == '\n' {
      TrimmedAreNewlines(s[..|s| - 1]);
    }
  }

  function TruncatePatrolSeedSection(section: Section, maxChars: int): string {
    Shortened(OMISSION_NOTE, section, maxChars)
  }

  function PatrolSeedSectionPriority(heading: string): int {
    if heading == "# Patrol Scope" then 0
    else if heading in ["# Active Alerts", "# Active Findings to Re-check", "# Alert Thresholds"] then 1
    else if heading in ["# Recently Resolved Alerts", "# Disk Health", "# Backup Status", "# User Notes",
                        "# User Feedback on Previous Findings"] then 2
    else if heading in ["# Anomalies", "# Capacity Forecasts", "# Failure Predictions",
                        "# Recent Infrastructure Changes (last 24h)", "# Connections"] then 3
    else if heading in ["# Node Metrics", "# Guest Metrics", "# Hosts", "# Storage", "# Docker", "# PBS Datastores",
                        "# Ceph", "# Kubernetes Clusters", "# Proxmox Mail Gateway (PMG)"] then 4
    else if heading in ["# Known Resource Correlations", "# Previous Patrol Run"] then 5
    else 6
  }

  function SectionPriority(s: Section): int {
    PatrolSeedSectionPriority(s.heading)
  }

  function PatrolLayout(): Layout {
    Layout(BUDGET_NOTE, MARKER, SectionPriority, RenderPatrolSeedSection, TruncatePatrolSeedSection)
  }

  lemma PatrolLayoutFits()
    ensures Fits(PatrolLayout())
  {
    forall s: Section, m: nat ensures |TruncatePatrolSeedSection(s, m)| <= m {
      ShortenedFits(OMISSION_NOTE, s, m);
    }
  }

  lemma PatrolRefusesIff(s: Section, room: int)
    ensures Refused(PatrolLayout(), room, s) <==>
      |RenderPatrolSeedSection(s)| > room && room <= |s.heading| + 66
  {
    assert |OMISSION_NOTE| == 49;
    if |RenderPatrolSeedSection(s)| > room {
      GivenUpIff(OMISSION_NOTE, s, room);
    }
  }

  // Every section is too long for the room, and its heading takes all but 66 of it.
  ghost predicate AllHeadingsFill(sections: seq<Section>, room: int) {
    forall s :: s in sections ==> |RenderPatrolSeedSection(s)| > room && room <= |s.heading| + 66
  }

  lemma NothingShownWhen(sections: seq<Section>, maxChars: int)
    requires Fits(PatrolLayout()) && 0 < maxChars
    ensures NothingShown(PatrolLayout(), sections, maxChars) <==>
      sections == [] || (|BUDGET_NOTE| < maxChars && AllHeadingsFill(sections, maxChars - |BUDGET_NOTE|))
  {
    if |BUDGET_NOTE| < maxChars {
      NothingShownIff(PatrolLayout(), sections, maxChars);
      forall s ensures Refused(PatrolLayout(), maxChars - |BUDGET_NOTE|, s) <==>
        |RenderPatrolSeedSection(s)| > maxChars - |BUDGET_NOTE| && maxChars - |BUDGET_NOTE| <= |s.heading| + 66
      {
        PatrolRefusesIff(s, maxChars - |BUDGET_NOTE|);
      }
    }
  }

  // The reduced prompt exceeds its budget, by four, exactly when the seed does, more than
  // 48 are asked for, and either there is no section or no room beside any heading.
  lemma OverBudgetIff(sections: seq<Section>, seed: string, maxChars: int)
    requires 0 < maxChars
    ensures var size := |Reduced(PatrolLayout(), sections, seed, maxChars)|;
      size <= maxChars + 4 &&
      (size > maxChars <==> (|seed| > maxChars > 48 &&
        (sections == [] || (|BUDGET_NOTE| < maxChars && AllHeadingsFill(sections, maxChars - |BUDGET_NOTE|)))))
  {
    PatrolLayoutFits();
    NothingShownWhen(sections, maxChars);
    ReducedSize(PatrolLayout(), sections, seed, maxChars);
  }

  // Sixty newlines reduced to fifty characters make fifty-four.
  lemma OverBudgetExample(seed: string)
    requires |seed| == 60 && forall i :: 0 <= i < 60 ==> seed[i] == '\n'
    ensures |Reduced(PatrolLayout(), Sections(seed), seed, 50)| == 54
  {
    NewlinesHaveNoSections(seed);
    PatrolLayoutFits();
    ReducedSize(PatrolLayout(), [], seed, 50);
  }

  // When nothing can be shown of any section, the start of the seed is, with a marker where
  // more than 48 characters are allowed; a budget too small for the note gets its start.
  lemma StartIsShownInstead(sections: seq<Section>, seed: string, maxChars: int)
    requires 0 < maxChars < |seed|
    requires sections == [] || (|BUDGET_NOTE| < maxChars && AllHeadingsFill(sections, maxChars - |BUDGET_NOTE|))
    ensures Reduced(PatrolLayout(), sections, seed, maxChars) ==
      if maxChars <= 48 then seed[..maxChars]
      else seed[..maxChars - 44] + "\n[... truncated for provider context limit ...]\n"
  {
    PatrolLayoutFits();
    NothingShownWhen(sections, maxChars);
  }

  lemma OnlyTheNoteFits(sections: seq<Section>, seed: string, maxChars: int)
    requires 0 < maxChars < |seed| && sections != [] && maxChars <= |BUDGET_NOTE|
    ensures Reduced(PatrolLayout(), sections, seed, maxChars) == BUDGET_NOTE[..maxChars]
  {
  }
}
