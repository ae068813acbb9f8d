// Splitting, rendering and truncating the sections of the patrol seed prompt
// (internal/ai/patrol_ai.go:1227-1319).
module SeedSections {
  import opened Text

  datatype Section = Section(heading: string, body: string, order: nat)

  // strings.SplitAfter on newlines: the last piece has none.
  function SplitAfter(s: string): (lines: seq<string>)
    ensures |lines| >= 1
    decreases |s|
  {
    var i := IndexOf(s, '\n', 0);
    if i < 0 then [s] else [s[..i + 1]] + SplitAfter(s[i + 1..])
  }

  predicate IsFullLine(line: string) {
    line != "" && line[|line| - 1] == '\n' && forall i :: 0 <= i < |line| - 1 ==> line[i] != '\n'
  }

  // Every line but the last ends in the only newline it has; the last has none.
  ghost predicate AreLines(lines: seq<string>) {
    if |lines| <= 1 then lines != [] && '\n' !in lines[0] else IsFullLine(lines[0]) && AreLines(lines[1..])
  }

  lemma {:induction false} AreLinesMeans(lines: seq<string>)
    requires AreLines(lines)
    ensures '\n' !in lines[|lines| - 1]
    ensures forall i :: 0 <= i < |lines| - 1 ==> IsFullLine(lines[i])
  {
    if |lines| > 1 {
      AreLinesMeans(lines[1..]);
      forall i | 0 < i < |lines| - 1 ensures IsFullLine(lines[i]) {
        assert lines[i] == lines[1..][i - 1];
      }
    }
  }

  lemma AreLinesFront(line: string, rest: seq<string>)
    requires IsFullLine(line) && AreLines(rest)
    ensures AreLines([line] + rest)
  {
    assert ([line] + rest)[1..] == rest;
  }

  lemma FirstLineIsFull(s: string, i: nat)
    requires i < |s| && s[i] == '\n' && forall k :: 0 <= k < i ==> s[k] != '\n'
    ensures IsFullLine(s[..i + 1])
  {
  }

  lemma SplitAfterCuts(s: string) returns (i: int)
    ensures i == IndexOf(s, '\n', 0) && i < |s|
    ensures i < 0 ==> SplitAfter(s) == [s] && '\n' !in s
    ensures i >= 0 ==> SplitAfter(s) == [s[..i + 1]] + SplitAfter(s[i + 1..]) && IsFullLine(s[..i + 1])
  {
    i := IndexOf(s, '\n', 0);
    if i >= 0 {
      FirstLineIsFull(s, i);
    }
  }

  lemma ConcatOne(s: string)
    ensures Concat([s]) == s
  {
    assert [s][..0] == [] && "" + s == s;
  }

  lemma ConcatCut(s: string, rest: seq<string>, i: nat)
    requires i <= |s| && Concat(rest) == s[i..]
    ensures Concat([s[..i]] + rest) == s
  {
    ConcatFront(s[..i], rest);
    assert s[..i] + s[i..] == s;
  }

  lemma {:induction false} SplitAfterConcat(s: string)
    ensures Concat(SplitAfter(s)) == s
    decreases |s|
  {
    var i := SplitAfterCuts(s);
    if i < 0 {
      ConcatOne(s);
    } else {
      SplitAfterConcat(s[i + 1..]);
      ConcatCut(s, SplitAfter(s[i + 1..]), i + 1);
    }
  }

  lemma {:induction false} SplitAfterIsLines(s: string)
    ensures AreLines(SplitAfter(s))
    decreases |s|
  {
    var i := SplitAfterCuts(s);
    if i >= 0 {
      SplitAfterIsLines(s[i + 1..]);
      AreLinesFront(s[..i + 1], SplitAfter(s[i + 1..]));
    }
  }

  // strings.TrimRight(s, "\n")
  function TrimNewlines(s: string): (r: string)
    ensures |r| <= |s| && r == s[..|r|]
    ensures r == "" || r[|r| - 1] != '\n'
  {
    if s != "" && s[|s| - 1] == '\n' then TrimNewlines(s[..|s| - 1]) else s
  }

  // ----- splitting -----

  predicate IsHeading(line: string) {
    |line| >= 2 && line[0] == '#' && line[1] == ' '
  }

  predicate Blank(s: string) {
    TrimSpace(s) == ""
  }

  datatype Splitting = Splitting(sections: seq<Section>, current: Section)

  const NO_LINES := Splitting([], Section("", "", 0))

  // The tests for a blank body and for a heading line are parameters here.
  function Flushed(blank: string -> bool, st: Splitting): seq<Section> {
    if st.current.heading == "" && blank(st.current.body) then st.sections else st.sections + [st.current]
  }

  function OneLine(blank: string -> bool, heading: string -> bool, st: Splitting, line: string): Splitting {
    if heading(line) then
      Splitting(Flushed(blank, st), Section(TrimNewlines(line), "", |Flushed(blank, st)|))
    else st.(current := st.current.(body := st.current.body + line))
  }

  function AfterLines(blank: string -> bool, heading: string -> bool, lines: seq<string>): Splitting {
    if lines == [] then NO_LINES
    else OneLine(blank, heading, AfterLines(blank, heading, lines[..|lines| - 1]), lines[|lines| - 1])
  }

  function SectionsBy(blank: string -> bool, seed: string): seq<Section> {
    if seed == "" then [] else Flushed(blank, AfterLines(blank, IsHeading, SplitAfter(seed)))
  }

  function Sections(seed: string): seq<Section> {
    SectionsBy(Blank, seed)
  }

  method SplitPatrolSeedSections(seed: string) returns (sections: seq<Section>)
    ensures sections == Sections(seed)
  {
    if seed == "" {
      return [];
    }
    var lines := SplitAfter(seed);
    sections := [];
    var current := Section("", "", 0);
    for i := 0 to |lines|
      invariant Splitting(sections, current) == AfterLines(Blank, IsHeading, lines[..i])
    {
      assert lines[..i + 1][..i] == lines[..i];
      var line := lines[i];
      if IsHeading(line) {
        if !(current.heading == "" && Blank(current.body)) {
          sections := sections + [current];
        }
        current := Section(TrimNewlines(line), "", |sections|);
        continue;
      }
      current := current.(body := current.body + line);
    }
    assert lines[..|lines|] == lines;
    if !(current.heading == "" && Blank(current.body)) {
      sections := sections + [current];
    }
  }

  // A section's order is its place in the list.
  ghost predicate OrderedByPlace(st: Splitting) {
    (forall i :: 0 <= i < |st.sections| ==> st.sections[i].order == i) && st.current.order == |st.sections|
  }

  lemma {:induction false} AfterLinesOrdered(blank: string -> bool, heading: string -> bool, lines: seq<string>)
    ensures OrderedByPlace(AfterLines(blank, heading, lines))
  {
    if lines != [] {
      AfterLinesOrdered(blank, heading, lines[..|lines| - 1]);
    }
  }

  lemma OrderIsPlace(seed: string)
    ensures forall i :: 0 <= i < |Sections(seed)| ==> Sections(seed)[i].order == i
  {
    if seed != "" {
      AfterLinesOrdered(Blank, IsHeading, SplitAfter(seed));
    }
  }

  // ----- nothing but a blank preamble is lost -----

  const NEWLINE: string := "\n"

  function Raw(section: Section): string {
    if section.heading == "" then section.body else section.heading + NEWLINE + section.body
  }

  function RawAll(sections: seq<Section>): string {
    if sections == [] then "" else RawAll(sections[..|sections| - 1]) + Raw(sections[|sections| - 1])
  }

  lemma RawAppend(sections: seq<Section>, s: Section)
    ensures RawAll(sections + [s]) == RawAll(sections) + Raw(s)
  {
    assert (sections + [s])[..|sections|] == sections;
  }

  lemma RawExtends(s: Section, line: string)
    ensures Raw(s.(body := s.body + line)) == Raw(s) + line
  {
    assert s.heading + NEWLINE + (s.body + line) == s.heading + NEWLINE + s.body + line;
  }

  // Only text before the first heading belongs to a section without one.
  ghost predicate Headed(st: Splitting) {
    (forall i :: 0 < i < |st.sections| ==> st.sections[i].heading != "") &&
    (st.current.heading == "" ==> st.sections == [])
  }

  lemma {:induction false} TrimKeepsStart(s: string, n: nat)
    requires 0 < n <= |s| && s[n - 1] != '\n'
    ensures |TrimNewlines(s)| >= n
  {
    if |s| > n && s[|s| - 1] == '\n' {
      TrimKeepsStart(s[..|s| - 1], n);
    }
  }

  lemma TrimFullLine(line: string)
    requires IsFullLine(line)
    ensures TrimNewlines(line) + NEWLINE == line
  {
    var front := line[..|line| - 1];
    assert TrimNewlines(front) == front;
  }

  lemma {:induction false} AfterLinesHeaded(blank: string -> bool, lines: seq<string>)
    ensures Headed(AfterLines(blank, IsHeading, lines))
  {
    if lines != [] {
      AfterLinesHeaded(blank, lines[..|lines| - 1]);
      var line := lines[|lines| - 1];
      if IsHeading(line) {
        TrimKeepsStart(line, 2);
      }
    }
  }

  // What the lines so far amount to; a dropped preamble is blank.
  ghost predicate Rebuilds(blank: string -> bool, st: Splitting, preamble: string, text: string) {
    blank(preamble) && (st.current.heading == "" ==> preamble == "") &&
    preamble + RawAll(st.sections) + Raw(st.current) == text
  }

  lemma EmptyEnds(body: string)
    ensures "" + "" + body == body && body + "" == body
  {
  }

  lemma ConcatAssociates(a: string, b: string, c: string)
    ensures a + (b + c) == a + b + c
  {
  }

  lemma FlushRebuilds(blank: string -> bool, st: Splitting, preamble: string, text: string) returns (dropped: string)
    requires Headed(st) && Rebuilds(blank, st, preamble, text)
    ensures blank(dropped) && dropped + RawAll(Flushed(blank, st)) == text
  {
    if st.current.heading == "" && blank(st.current.body) {
      dropped := st.current.body;
      EmptyEnds(st.current.body);
    } else {
      dropped := preamble;
      RawAppend(st.sections, st.current);
      ConcatAssociates(preamble, RawAll(st.sections), Raw(st.current));
    }
  }

  lemma HeadingRebuilds(blank: string -> bool, st: Splitting, line: string, preamble: string, text: string) returns (dropped: string)
    requires Headed(st) && Rebuilds(blank, st, preamble, text) && IsFullLine(line) && IsHeading(line)
    ensures Rebuilds(blank, OneLine(blank, IsHeading, st, line), dropped, text + line)
  {
    dropped := FlushRebuilds(blank, st, preamble, text);
    TrimFullLine(line);
    TrimKeepsStart(line, 2);
    var current := Section(TrimNewlines(line), "", |Flushed(blank, st)|);
    assert Raw(current) == line;
  }

  lemma BodyRebuilds(blank: string -> bool, st: Splitting, line: string, preamble: string, text: string)
    requires Rebuilds(blank, st, preamble, text) && !IsHeading(line)
    ensures Rebuilds(blank, OneLine(blank, IsHeading, st, line), preamble, text + line)
  {
    RawExtends(st.current, line);
    var a, b := preamble + RawAll(st.sections), Raw(st.current);
    assert a + (b + line) == a + b + line;
  }

  lemma {:induction false} LinesRebuild(blank: string -> bool, lines: seq<string>) returns (preamble: string)
    requires blank("") && forall i :: 0 <= i < |lines| ==> IsFullLine(lines[i])
    ensures Rebuilds(blank, AfterLines(blank, IsHeading, lines), preamble, Concat(lines))
  {
    preamble := "";
    if lines != [] {
      var front, line := lines[..|lines| - 1], lines[|lines| - 1];
      var st := AfterLines(blank, IsHeading, front);
      preamble := LinesRebuild(blank, front);
      AfterLinesHeaded(blank, front);
      if IsHeading(line) {
        preamble := HeadingRebuilds(blank, st, line, preamble, Concat(front));
      } else {
        BodyRebuilds(blank, st, line, preamble, Concat(front));
      }
    }
  }

  lemma LastHeadingRebuilds(blank: string -> bool, st: Splitting, line: string, preamble: string, text: string) returns (dropped: string)
    requires Headed(st) && Rebuilds(blank, st, preamble, text) && '\n' !in line && IsHeading(line)
    ensures blank(dropped) && dropped + RawAll(Flushed(blank, OneLine(blank, IsHeading, st, line))) == text + line + NEWLINE
  {
    dropped := FlushRebuilds(blank, st, preamble, text);
    assert TrimNewlines(line) == line;
    var sections := Flushed(blank, st);
    RawAppend(sections, Section(line, "", |sections|));
    RegroupHeading(dropped, RawAll(sections), line);
  }

  lemma RegroupHeading(a: string, b: string, line: string)
    ensures a + (b + (line + NEWLINE + "")) == a + b + line + NEWLINE
  {
  }

  lemma LastLineRebuilds(blank: string -> bool, lines: seq<string>, line: string) returns (dropped: string)
    requires blank("") && forall i :: 0 <= i < |lines| ==> IsFullLine(lines[i])
    requires '\n' !in line
    ensures blank(dropped)
    ensures dropped + RawAll(Flushed(blank, AfterLines(blank, IsHeading, lines + [line]))) ==
      Concat(lines) + line + (if IsHeading(line) then NEWLINE else "")
  {
    var st := AfterLines(blank, IsHeading, lines);
    assert (lines + [line])[..|lines|] == lines;
    var preamble := LinesRebuild(blank, lines);
    AfterLinesHeaded(blank, lines);
    AfterLinesHeaded(blank, lines + [line]);
    if IsHeading(line) {
      dropped := LastHeadingRebuilds(blank, st, line, preamble, Concat(lines));
    } else {
      BodyRebuilds(blank, st, line, preamble, Concat(lines));
      dropped := FlushRebuilds(blank, OneLine(blank, IsHeading, st, line), preamble, Concat(lines) + line);
      assert Concat(lines) + line + "" == Concat(lines) + line;
    }
  }

  // What the sections add at the end: a heading in the last line gets its newline.
  function Completion(lines: seq<string>): string
    requires lines != []
  {
    if IsHeading(lines[|lines| - 1]) then NEWLINE else ""
  }

  lemma EmptyIsBlank()
    ensures Blank("")
  {
  }

  lemma LinesCover(blank: string -> bool, seed: string, lines: seq<string>) returns (preamble: string)
    requires blank("") && lines == SplitAfter(seed)
    ensures blank(preamble)
    ensures preamble + RawAll(Flushed(blank, AfterLines(blank, IsHeading, lines))) ==
      seed + Completion(lines)
  {
    var front, last := lines[..|lines| - 1], lines[|lines| - 1];
    SplitAfterConcat(seed);
    SplitAfterIsLines(seed);
    AreLinesMeans(lines);
    assert lines == front + [last];
    preamble := LastLineRebuilds(blank, front, last);
  }

  lemma SectionsCover(blank: string -> bool, seed: string) returns (preamble: string)
    requires blank("") && seed != ""
    ensures blank(preamble)
    ensures preamble + RawAll(SectionsBy(blank, seed)) == seed + Completion(SplitAfter(seed))
  {
    preamble := LinesCover(blank, seed, SplitAfter(seed));
  }

  // The sections put back together are the seed without a blank preamble.
  lemma SectionsCoverSeed(seed: string) returns (preamble: string)
    requires seed != ""
    ensures Blank(preamble)
    ensures preamble + RawAll(Sections(seed)) == seed + Completion(SplitAfter(seed))
  {
    EmptyIsBlank();
    preamble := SectionsCover(Blank, seed);
  }

  // ----- a seed without sections -----

  lemma {:induction false} NoHeadings(blank: string -> bool, lines: seq<string>)
    requires forall i :: 0 <= i < |lines| ==> !IsHeading(lines[i])
    ensures AfterLines(blank, IsHeading, lines) == Splitting([], Section("", Concat(lines), 0))
  {
    if lines != [] {
      NoHeadings(blank, lines[..|lines| - 1]);
    }
  }

  lemma {:induction false} AllSpaceIsBlank(s: string)
    requires forall i :: 0 <= i < |s| ==> IsSpace(s[i])
    ensures TrimLeftSpace(s) == ""
  {
    if s != "" {
      AllSpaceIsBlank(s[1..]);
    }
  }

  // A seed of nothing but newlines has no sections.
  lemma NewlinesHaveNoSections(seed: string)
    requires forall i :: 0 <= i < |seed| ==> seed[i] == '\n'
    ensures Sections(seed) == []
  {
    if seed != "" {
      var lines := SplitAfter(seed);
      LinesOfNewlines(seed);
      NoHeadings(Blank, lines);
      SplitAfterConcat(seed);
      AllSpaceIsBlank(seed);
    }
  }

  lemma {:induction false} LinesOfNewlines(s: string)
    requires forall i :: 0 <= i < |s| ==> s[i] == '\n'
    ensures forall i :: 0 <= i < |SplitAfter(s)| ==> !IsHeading(SplitAfter(s)[i])
    decreases |s|
  {
    var i := SplitAfterCuts(s);
    if i >= 0 {
      LinesOfNewlines(s[i + 1..]);
    }
  }
}
