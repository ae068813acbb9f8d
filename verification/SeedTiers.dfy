// Which sections of a seed survive its reduction: those of the more urgent headings, and
// under equally urgent headings those that stand first (internal/ai/patrol_ai.go:1278-1403).
module SeedTiers {
  import opened Prelude
  import opened Text
  import opened TextEdits
  import opened Sorting
  import opened SeedSections
  import opened SeedParsing
  import opened SeedContext
  import opened SeedRendering

  // ----- for any layout -----

  // How much the sections in question take when they are rendered whole.
  function Taken(render: Section -> string, top: Section -> bool, sections: seq<Section>): nat {
    if sections == [] then 0
    else
      var (rest, s) := (Taken(render, top, sections[..|sections| - 1]), sections[|sections| - 1]);
      if top(s) then rest + |render(s)| else rest
  }

  lemma TakenAppend(render: Section -> string, top: Section -> bool, a: seq<Section>, s: Section)
    ensures Taken(render, top, a + [s]) == Taken(render, top, a) + if top(s) then |render(s)| else 0
  {
    assert (a + [s])[..|a|] == a;
  }

  lemma {:induction false} TakenRemove(render: Section -> string, top: Section -> bool, a: seq<Section>, i: nat)
    requires i < |a|
    ensures Taken(render, top, a) == Taken(render, top, RemoveAt(a, i)) + if top(a[i]) then |render(a[i])| else 0
  {
    var n := |a| - 1;
    RemoveBeforeLast(a, i);
    if i < n {
      TakenRemove(render, top, a[..n], i);
      TakenAppend(render, top, RemoveAt(a[..n], i), a[n]);
    }
  }

  lemma OneLess<T>(a: multiset<T>, b: multiset<T>, x: T)
    requires a + multiset{x} == b + multiset{x}
    ensures a == b
  {
    assert a == a + multiset{x} - multiset{x};
  }

  lemma {:induction false} TakenAlike(render: Section -> string, top: Section -> bool, a: seq<Section>, b: seq<Section>)
    requires multiset(a) == multiset(b)
    ensures Taken(render, top, a) == Taken(render, top, b)
  {
    if a == [] {
      assert |multiset(b)| == 0;
    } else {
      var n := |a| - 1;
      assert a == a[..n] + [a[n]] && a[n] in multiset(b);
      var i :| 0 <= i < |b| && b[i] == a[n];
      RemoveAtMultiset(b, i);
      OneLess(multiset(a[..n]), multiset(RemoveAt(b, i)), a[n]);
      TakenAlike(render, top, a[..n], RemoveAt(b, i));
      TakenRemove(render, top, b, i);
    }
  }

  // With a section, all that are ranked no later are in question.
  ghost predicate DownwardClosed(layout: Layout, top: Section -> bool) {
    forall a, b :: top(b) && !Before(layout.priority, OrderOf, b, a) ==> top(a)
  }

  // They come first in the ranking.
  lemma TopComeFirst(layout: Layout, top: Section -> bool, ranked: seq<Section>) returns (n: nat)
    requires DownwardClosed(layout, top) && Ordered(layout.priority, OrderOf, ranked)
    ensures n <= |ranked| && forall i :: 0 <= i < |ranked| ==> (top(ranked[i]) <==> i < n)
  {
    n := 0;
    while n < |ranked| && top(ranked[n])
      invariant n <= |ranked| && forall i :: 0 <= i < n ==> top(ranked[i])
    {
      n := n + 1;
    }
    forall i | n < i < |ranked| ensures !top(ranked[i]) {
      assert !Before(layout.priority, OrderOf, ranked[i], ranked[n]);
    }
  }

  lemma {:induction false} TakenOfTop(layout: Layout, top: Section -> bool, ranked: seq<Section>, n: nat)
    requires n <= |ranked| && forall i :: 0 <= i < |ranked| ==> (top(ranked[i]) <==> i < n)
    ensures Taken(layout.render, top, ranked) == Size(Whole(layout, ranked[..n]))
  {
    if ranked != [] {
      var m := |ranked| - 1;
      if n <= m {
        TakenOfTop(layout, top, ranked[..m], n);
        assert ranked[..m][..n] == ranked[..n];
      } else {
        TakenOfTop(layout, top, ranked[..m], m);
        assert ranked[..n] == ranked && ranked[..m][..m] == ranked[..m];
        SizeAppend(Whole(layout, ranked[..m]), Piece(ranked[m].order, layout.render(ranked[m])));
      }
    }
  }

  lemma {:induction false} AssembledContains(pieces: seq<Piece>, p: Piece)
    requires p in pieces
    ensures Contains(Assembled(pieces), p.text)
  {
    var (front, last) := (pieces[..|pieces| - 1], pieces[|pieces| - 1]);
    if p == last {
      assert last.text[0..|last.text|] == last.text;
      assert At(last.text, last.text, 0);
      BackContains(Assembled(front), last.text, p.text);
    } else {
      AssembledContains(front, p);
      FrontContains(Assembled(front), last.text, p.text);
    }
  }

  lemma PieceKept(layout: Layout, sections: seq<Section>, maxChars: int, top: Section -> bool, s: Section)
    requires DownwardClosed(layout, top) && |layout.note| + Taken(layout.render, top, sections) <= maxChars
    requires s in sections && top(s)
    ensures Piece(s.order, layout.render(s)) in InOrder(Selected(layout, sections, maxChars))
  {
    var ranked := Ranked(layout, sections);
    SortBySorts(layout.priority, OrderOf, sections);
    TakenAlike(layout.render, top, ranked, sections);
    var n := TopComeFirst(layout, top, ranked);
    TakenOfTop(layout, top, ranked, n);
    assert s in multiset(sections) && s in multiset(ranked);
    var i :| 0 <= i < |ranked| && ranked[i] == s;
    BestRankedKeptWhole(layout, sections, maxChars, n, i);
  }

  // The result is the note and the chosen pieces when there are any.
  lemma ReducedIsPieces(layout: Layout, sections: seq<Section>, seed: string, maxChars: int)
    requires Fits(layout) && |layout.note| < maxChars < |seed| && sections != [] && Selected(layout, sections, maxChars) != []
    ensures Reduced(layout, sections, seed, maxChars) == layout.note + Assembled(InOrder(Selected(layout, sections, maxChars)))
  {
    ChosenFits(layout, sections, maxChars);
  }

  lemma InOrderOfNothing()
    ensures InOrder([]) == []
  {
  }

  lemma {:induction false} TakenAtLeast(render: Section -> string, top: Section -> bool, sections: seq<Section>, s: Section)
    requires s in sections && top(s)
    ensures Taken(render, top, sections) >= |render(s)|
  {
    if s != sections[|sections| - 1] {
      TakenAtLeast(render, top, sections[..|sections| - 1], s);
    }
  }

  lemma KeptWhole(layout: Layout, sections: seq<Section>, seed: string, maxChars: int, top: Section -> bool, s: Section)
    requires Fits(layout) && maxChars < |seed|
    requires DownwardClosed(layout, top) && |layout.note| + Taken(layout.render, top, sections) <= maxChars
    requires s in sections && top(s) && layout.render(s) != ""
    ensures Contains(Reduced(layout, sections, seed, maxChars), layout.render(s))
  {
    PieceKept(layout, sections, maxChars, top, s);
    TakenAtLeast(layout.render, top, sections, s);
    InOrderOfNothing();
    ReducedIsPieces(layout, sections, seed, maxChars);
    var kept := InOrder(Selected(layout, sections, maxChars));
    AssembledContains(kept, Piece(s.order, layout.render(s)));
    BackContains(layout.note, Assembled(kept), layout.render(s));
  }

  // ----- the headings of the source -----

  // The headings of the first k tiers.
  predicate InFirstTiers(k: nat, heading: string) {
    (k >= 1 && heading == "# Patrol Scope") ||
    (k >= 2 && (heading == "# Active Alerts" || heading == "# Active Findings to Re-check" || heading == "# Alert Thresholds")) ||
    (k >= 3 && (heading == "# Recently Resolved Alerts" || heading == "# Disk Health" || heading == "# Backup Status" ||
                heading == "# User Notes" || heading == "# User Feedback on Previous Findings")) ||
    (k >= 4 && (heading == "# Anomalies" || heading == "# Capacity Forecasts" || heading == "# Failure Predictions" ||
                heading == "# Recent Infrastructure Changes (last 24h)" || heading == "# Connections")) ||
    (k >= 5 && (heading == "# Node Metrics" || heading == "# Guest Metrics" || heading == "# Hosts" || heading == "# Storage" ||
                heading == "# Docker" || heading == "# PBS Datastores" || heading == "# Ceph" ||
                heading == "# Kubernetes Clusters" || heading == "# Proxmox Mail Gateway (PMG)")) ||
    (k >= 6 && (heading == "# Known Resource Correlations" || heading == "# Previous Patrol Run")) ||
    k >= 7
  }

  lemma TierMeans(k: nat, heading: string)
    ensures InFirstTiers(k, heading) <==> PatrolSeedSectionPriority(heading) < k
  {
  }

  // The sections of the first k tiers, and those of the next up to place n of the seed.
  function UpTo(k: nat, n: int): Section -> bool {
    (s: Section) => InFirstTiers(k, s.heading) || (InFirstTiers(k + 1, s.heading) && s.order <= n)
  }

  lemma UpToIsClosed(k: nat, n: int)
    ensures DownwardClosed(PatrolLayout(), UpTo(k, n))
  {
    forall a: Section, b: Section | UpTo(k, n)(b) && !Before(SectionPriority, OrderOf, b, a) ensures UpTo(k, n)(a) {
      TierMeans(k, a.heading);
      TierMeans(k, b.heading);
      TierMeans(k + 1, a.heading);
      TierMeans(k + 1, b.heading);
    }
  }

  lemma RenderingShows(s: Section)
    requires s.heading != "" || s.body != ""
    ensures RenderPatrolSeedSection(s) != ""
  {
    RenderedIsRawAndBlankLine(s);
  }

  // However long the rest of the seed is: when the note and the whole sections of the first k
  // tiers, and of the next tier up to some place of the seed, fit the budget, each of them
  // stands whole in the result.
  lemma MoreUrgentKeptWhole(k: nat, n: int, sections: seq<Section>, seed: string, maxChars: int, s: Section)
    requires maxChars < |seed| && |BUDGET_NOTE| + Taken(RenderPatrolSeedSection, UpTo(k, n), sections) <= maxChars
    requires s in sections && UpTo(k, n)(s) && (s.heading != "" || s.body != "")
    ensures Contains(Reduced(PatrolLayout(), sections, seed, maxChars), RenderPatrolSeedSection(s))
  {
    UpToIsClosed(k, n);
    PatrolLayoutFits();
    RenderingShows(s);
    KeptWhole(PatrolLayout(), sections, seed, maxChars, UpTo(k, n), s);
  }

  // ----- an example: the alerts outlast the previous run -----

  lemma PlainBody(x: string)
    requires '\n' !in x && !("# " <= x)
    ensures NoHeadingIn(x + "\n\n") && EndsLine(x + "\n\n")
  {
    var line := x + NEWLINE;
    assert IsFullLine(line) && !IsHeading(line);
    SplitAfterLine(line, "\n");
    SplitAfterLine("\n", "");
    assert "\n" + "" == "\n" && line + "\n" == x + "\n\n";
  }

  function Alerts(x: string): Section {
    Section("# Active Alerts", x + "\n\n", 0)
  }

  function PreviousRun(y: string): Section {
    Section("# Previous Patrol Run", y + "\n\n", 1)
  }

  lemma ExampleSplits(x: string, y: string)
    requires '\n' !in x && !("# " <= x) && '\n' !in y && !("# " <= y)
    ensures Sections(RawAll([Alerts(x), PreviousRun(y)])) == [Alerts(x), PreviousRun(y)]
  {
    PlainBody(x);
    PlainBody(y);
    assert IsHeadingText("# Active Alerts") && IsHeadingText("# Previous Patrol Run");
    SplittingReadsBack([Alerts(x), PreviousRun(y)]);
  }

  lemma RenderedExample(x: string, y: string)
    ensures RenderPatrolSeedSection(Alerts(x)) == "# Active Alerts\n" + (x + "\n\n")
    ensures RenderPatrolSeedSection(PreviousRun(y)) == "# Previous Patrol Run\n" + (y + "\n\n")
    ensures |RawAll([Alerts(x), PreviousRun(y)])| == |x| + |y| + 42
  {
    RawAppend([Alerts(x)], PreviousRun(y));
    RawAppend([], Alerts(x));
    assert [] + [Alerts(x)] == [Alerts(x)] && [Alerts(x)] + [PreviousRun(y)] == [Alerts(x), PreviousRun(y)];
  }

  lemma NoteSize()
    ensures |BUDGET_NOTE| == 159
  {
  }

  lemma AlertsTaken(x: string, y: string)
    ensures Taken(RenderPatrolSeedSection, UpTo(2, -1), [Alerts(x), PreviousRun(y)]) == |x| + 18
  {
    RenderedExample(x, y);
    TakenAppend(RenderPatrolSeedSection, UpTo(2, -1), [Alerts(x)], PreviousRun(y));
    TakenAppend(RenderPatrolSeedSection, UpTo(2, -1), [], Alerts(x));
    assert [] + [Alerts(x)] == [Alerts(x)] && [Alerts(x)] + [PreviousRun(y)] == [Alerts(x), PreviousRun(y)];
  }

  lemma ShownAs(sections: seq<Section>, others: seq<Section>, seed: string, maxChars: int, text: string, other: string)
    requires sections == others && text == other && Contains(Reduced(PatrolLayout(), sections, seed, maxChars), text)
    ensures Contains(Reduced(PatrolLayout(), others, seed, maxChars), other)
  {
  }

  // 7800 characters of alerts and 7798 of the previous run, reduced to 8000.
  lemma AlertsOutlastPreviousRun(x: string, y: string)
    requires |x| == 7800 && |y| == 7798 && '\n' !in x && !("# " <= x) && '\n' !in y && !("# " <= y)
    ensures var seed := RawAll([Alerts(x), PreviousRun(y)]);
      Contains(Reduced(PatrolLayout(), Sections(seed), seed, 8000), "# Active Alerts\n" + (x + "\n\n"))
  {
    var (sections, seed) := ([Alerts(x), PreviousRun(y)], RawAll([Alerts(x), PreviousRun(y)]));
    ExampleSplits(x, y);
    RenderedExample(x, y);
    AlertsTaken(x, y);
    NoteSize();
    MoreUrgentKeptWhole(2, -1, sections, seed, 8000, sections[0]);
    ShownAs(sections, Sections(seed), seed, 8000, RenderPatrolSeedSection(Alerts(x)), "# Active Alerts\n" + (x + "\n\n"));
  }
}
