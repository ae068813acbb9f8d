// Splitting a seed into sections is reading back what writing the sections out gives
// (internal/ai/patrol_ai.go:1246-1276).
module SeedParsing {
  import opened Text
  import opened SeedSections

  // ----- lines -----

  // No line of the text is a heading.
  ghost predicate NoHeadingIn(text: string) {
    forall i :: 0 <= i < |SplitAfter(text)| ==> !IsHeading(SplitAfter(text)[i])
  }

  predicate EndsLine(text: string) {
    text == "" || text[|text| - 1] == '\n'
  }

  predicate IsHeadingText(heading: string) {
    IsHeading(heading) && '\n' !in heading
  }

  lemma FirstNewline(line: string, rest: string)
    requires IsFullLine(line)
    ensures IndexOf(line + rest, '\n', 0) == |line| - 1
  {
    var s := line + rest;
    assert s[|line| - 1] == '\n' && forall i :: 0 <= i < |line| - 1 ==> s[i] == line[i];
  }

  lemma SplitAfterLine(line: string, rest: string)
    requires IsFullLine(line)
    ensures SplitAfter(line + rest) == [line] + SplitAfter(rest)
  {
    FirstNewline(line, rest);
    assert (line + rest)[..|line|] == line && (line + rest)[|line|..] == rest;
  }

  lemma OneLineBefore(line: string, lines: seq<string>, more: seq<string>, all: seq<string>, both: seq<string>)
    requires lines != [] && lines[|lines| - 1] == "" && all == [line] + lines
    requires both == [line] + (lines[..|lines| - 1] + more)
    ensures all != [] && all[|all| - 1] == "" && both == all[..|all| - 1] + more
  {
    assert all[..|all| - 1] == [line] + lines[..|lines| - 1];
  }

  // The splitting at newlines is a parameter here.
  ghost predicate CutsLines(split: string -> seq<string>) {
    split("") == [""] && forall line, rest :: IsFullLine(line) ==> split(line + rest) == [line] + split(rest)
  }

  ghost predicate SplitsBehind(split: string -> seq<string>, a: string, b: string) {
    split(a) != [] && split(a)[|split(a)| - 1] == "" && split(a + b) == split(a)[..|split(a)| - 1] + split(b)
  }

  lemma CutLine(split: string -> seq<string>, line: string, rest: string, whole: string)
    requires CutsLines(split) && IsFullLine(line) && whole == line + rest
    ensures split(whole) == [line] + split(rest)
  {
  }

  lemma LineInFront(split: string -> seq<string>, a: string, b: string, line: string, rest: string)
    requires CutsLines(split) && a == line + rest && IsFullLine(line) && SplitsBehind(split, rest, b)
    ensures SplitsBehind(split, a, b)
  {
    ConcatAssociates(line, rest, b);
    CutLine(split, line, rest, a);
    CutLine(split, line, rest + b, a + b);
    OneLineBefore(line, split(rest), split(b), split(a), split(a + b));
  }

  lemma FirstLineOf(a: string) returns (line: string, rest: string)
    requires a != "" && EndsLine(a)
    ensures IsFullLine(line) && a == line + rest && EndsLine(rest) && |rest| < |a|
  {
    var i := IndexOf(a, '\n', 0);
    FirstLineIsFull(a, i);
    line, rest := a[..i + 1], a[i + 1..];
  }

  lemma {:induction false} SplitsBehindBy(split: string -> seq<string>, a: string, b: string)
    requires CutsLines(split) && EndsLine(a)
    ensures SplitsBehind(split, a, b)
    decreases |a|
  {
    if a == "" {
      assert a + b == b && split(b) == [] + split(b);
    } else {
      var line, rest := FirstLineOf(a);
      SplitsBehindBy(split, rest, b);
      LineInFront(split, a, b, line, rest);
    }
  }

  // Lines before a text that starts a line are its own.
  lemma SplitAfterBehind(a: string, b: string)
    requires EndsLine(a)
    ensures SplitsBehind(SplitAfter, a, b)
  {
    forall line, rest | IsFullLine(line) ensures SplitAfter(line + rest) == [line] + SplitAfter(rest) {
      SplitAfterLine(line, rest);
    }
    SplitsBehindBy(SplitAfter, a, b);
  }

  // ----- reading lines one after the other -----

  lemma {:induction false} BodyLines(blank: string -> bool, before: seq<string>, lines: seq<string>)
    requires forall i :: 0 <= i < |lines| ==> !IsHeading(lines[i])
    ensures AfterLines(blank, IsHeading, before + lines) ==
      var st := AfterLines(blank, IsHeading, before); st.(current := st.current.(body := st.current.body + Concat(lines)))
  {
    var st := AfterLines(blank, IsHeading, before);
    if lines == [] {
      assert before + lines == before && st.current.body + "" == st.current.body;
    } else {
      var (front, last) := (lines[..|lines| - 1], lines[|lines| - 1]);
      BodyLines(blank, before, front);
      assert before + lines == before + front + [last] && (before + front + [last])[..|before + front|] == before + front;
      ConcatAssociates(st.current.body, Concat(front), last);
    }
  }

  lemma HeadingLine(blank: string -> bool, before: seq<string>, line: string)
    requires IsHeading(line)
    ensures AfterLines(blank, IsHeading, before + [line]) ==
      OneLine(blank, IsHeading, AfterLines(blank, IsHeading, before), line)
  {
    assert (before + [line])[..|before|] == before;
  }

  lemma LastEmptyLine(blank: string -> bool, lines: seq<string>)
    requires lines != [] && lines[|lines| - 1] == ""
    ensures AfterLines(blank, IsHeading, lines) == AfterLines(blank, IsHeading, lines[..|lines| - 1])
  {
    var st := AfterLines(blank, IsHeading, lines[..|lines| - 1]);
    assert st.current.body + "" == st.current.body;
  }

  // ----- reading back what was written -----

  // A section written at place i of the list.
  ghost predicate SectionAt(blank: string -> bool, s: Section, i: nat) {
    s.order == i && NoHeadingIn(s.body) &&
    if s.heading == "" then i == 0 && !blank(s.body) else IsHeadingText(s.heading)
  }

  // Headings stand at the start, only the first section may lack one and then is not blank,
  // no body has a heading of its own, and every body but the last ends its line.
  ghost predicate Written(blank: string -> bool, sections: seq<Section>) {
    (forall i :: 0 <= i < |sections| ==> SectionAt(blank, sections[i], i)) &&
    (forall i :: 0 <= i < |sections| - 1 ==> EndsLine(sections[i].body))
  }

  lemma HeadingIsLine(heading: string)
    requires IsHeadingText(heading)
    ensures IsFullLine(heading + NEWLINE) && IsHeading(heading + NEWLINE) && TrimNewlines(heading + NEWLINE) == heading
  {
    var line := heading + NEWLINE;
    assert forall i :: 0 <= i < |line| - 1 ==> line[i] == heading[i] && heading[i] in heading;
    assert line[..|line| - 1] == heading;
    assert TrimNewlines(heading) == heading;
  }

  lemma {:induction false} RawAllEndsLine(blank: string -> bool, sections: seq<Section>)
    requires Written(blank, sections) && (sections != [] ==> EndsLine(sections[|sections| - 1].body))
    ensures EndsLine(RawAll(sections))
  {
    if sections != [] {
      RawAllEndsLine(blank, sections[..|sections| - 1]);
      var raw := Raw(sections[|sections| - 1]);
      assert EndsLine(raw);
    }
  }

  lemma RawLines(s: Section)
    requires IsHeadingText(s.heading)
    ensures SplitAfter(Raw(s)) == [s.heading + NEWLINE] + SplitAfter(s.body)
  {
    HeadingIsLine(s.heading);
    SplitAfterLine(s.heading + NEWLINE, s.body);
  }

  lemma ReadsBody(blank: string -> bool, before: seq<string>, lines: seq<string>, flushed: seq<Section>, s: Section)
    requires AfterLines(blank, IsHeading, before) == Splitting(flushed, s.(body := ""))
    requires (forall i :: 0 <= i < |lines| ==> !IsHeading(lines[i])) && Concat(lines) == s.body
    ensures AfterLines(blank, IsHeading, before + lines) == Splitting(flushed, s)
  {
    BodyLines(blank, before, lines);
    assert "" + s.body == s.body;
  }

  lemma ReadsHeading(blank: string -> bool, before: seq<string>, flushed: seq<Section>, heading: string)
    requires flushed == Flushed(blank, AfterLines(blank, IsHeading, before)) && IsHeadingText(heading)
    ensures AfterLines(blank, IsHeading, before + [heading + NEWLINE]) == Splitting(flushed, Section(heading, "", |flushed|))
  {
    HeadingIsLine(heading);
    HeadingLine(blank, before, heading + NEWLINE);
  }

  lemma LinesBehind(before: seq<string>, line: string, lines: seq<string>)
    ensures before + ([line] + lines) == before + [line] + lines
  {
  }

  // One more section with a heading.
  lemma ReadsHeaded(blank: string -> bool, before: seq<string>, flushed: seq<Section>, s: Section)
    requires flushed == Flushed(blank, AfterLines(blank, IsHeading, before))
    requires IsHeadingText(s.heading) && NoHeadingIn(s.body) && s.order == |flushed|
    ensures AfterLines(blank, IsHeading, before + SplitAfter(Raw(s))) == Splitting(flushed, s)
  {
    RawLines(s);
    ReadsHeading(blank, before, flushed, s.heading);
    SplitAfterConcat(s.body);
    ReadsBody(blank, before + [s.heading + NEWLINE], SplitAfter(s.body), flushed, s);
    LinesBehind(before, s.heading + NEWLINE, SplitAfter(s.body));
  }

  lemma ReadsPreamble(blank: string -> bool, body: string)
    requires NoHeadingIn(body)
    ensures AfterLines(blank, IsHeading, SplitAfter(body)) == Splitting([], Section("", body, 0))
  {
    NoHeadings(blank, SplitAfter(body));
    SplitAfterConcat(body);
  }

  lemma {:induction false} ReadsWritten(blank: string -> bool, sections: seq<Section>)
    requires blank("") && sections != [] && Written(blank, sections)
    ensures AfterLines(blank, IsHeading, SplitAfter(RawAll(sections))) ==
      Splitting(sections[..|sections| - 1], sections[|sections| - 1])
  {
    var (front, last) := (sections[..|sections| - 1], sections[|sections| - 1]);
    assert SectionAt(blank, last, |front|);
    if front == [] {
      assert RawAll(sections) == "" + Raw(last) == Raw(last);
      ReadsFirst(blank, last);
    } else {
      ReadsWritten(blank, front);
      RawAllEndsLine(blank, front);
      FlushesLast(blank, front);
      ReadsNext(blank, RawAll(front), front, last);
    }
  }

  lemma ReadsFirst(blank: string -> bool, s: Section)
    requires blank("") && SectionAt(blank, s, 0)
    ensures AfterLines(blank, IsHeading, SplitAfter(Raw(s))) == Splitting([], s)
  {
    if s.heading == "" {
      ReadsPreamble(blank, s.body);
    } else {
      assert [] + SplitAfter(Raw(s)) == SplitAfter(Raw(s));
      ReadsHeaded(blank, [], [], s);
    }
  }

  lemma ReadsNext(blank: string -> bool, text: string, front: seq<Section>, s: Section)
    requires EndsLine(text) && front == Flushed(blank, AfterLines(blank, IsHeading, SplitAfter(text)))
    requires front != [] && SectionAt(blank, s, |front|)
    ensures AfterLines(blank, IsHeading, SplitAfter(text + Raw(s))) == Splitting(front, s)
  {
    SplitAfterBehind(text, Raw(s));
    var lines := SplitAfter(text);
    LastEmptyLine(blank, lines);
    ReadsHeaded(blank, lines[..|lines| - 1], front, s);
  }

  lemma FlushesLast(blank: string -> bool, front: seq<Section>)
    requires front != [] && Written(blank, front)
    ensures Flushed(blank, Splitting(front[..|front| - 1], front[|front| - 1])) == front
  {
    assert SectionAt(blank, front[|front| - 1], |front| - 1);
    assert front[..|front| - 1] + [front[|front| - 1]] == front;
  }

  lemma RawIsNotEmpty(blank: string -> bool, sections: seq<Section>)
    requires blank("") && sections != [] && Written(blank, sections)
    ensures RawAll(sections) != ""
  {
    assert SectionAt(blank, sections[|sections| - 1], |sections| - 1);
    assert Raw(sections[|sections| - 1]) != "";
  }

  lemma ReadsBackBy(blank: string -> bool, sections: seq<Section>)
    requires blank("") && Written(blank, sections)
    ensures SectionsBy(blank, RawAll(sections)) == sections
  {
    if sections != [] {
      RawIsNotEmpty(blank, sections);
      ReadsWritten(blank, sections);
      FlushesLast(blank, sections);
    }
  }

  // Splitting reads back the sections that were written out one behind the other.
  lemma SplittingReadsBack(sections: seq<Section>)
    requires Written(Blank, sections)
    ensures Sections(RawAll(sections)) == sections
  {
    EmptyIsBlank();
    ReadsBackBy(Blank, sections);
  }

  // ----- what splitting produces -----

  // The sections so far are written and end their lines, and the current one may follow.
  ghost predicate WrittenSoFar(blank: string -> bool, st: Splitting) {
    Written(blank, st.sections) && (st.sections != [] ==> EndsLine(st.sections[|st.sections| - 1].body)) &&
    st.current.order == |st.sections| && NoHeadingIn(st.current.body) && EndsLine(st.current.body) &&
    if st.current.heading == "" then st.sections == [] else IsHeadingText(st.current.heading)
  }

  // A line that is no heading, whether or not it ends in a newline.
  lemma OneLineText(line: string)
    requires !IsHeading(line) && (IsFullLine(line) || '\n' !in line)
    ensures NoHeadingIn(line)
  {
    if IsFullLine(line) {
      assert line + "" == line;
      SplitAfterLine(line, "");
    }
  }

  lemma NoneAmongBoth(lines: seq<string>, more: seq<string>, both: seq<string>)
    requires lines != [] && both == lines[..|lines| - 1] + more
    requires forall i :: 0 <= i < |lines| ==> !IsHeading(lines[i])
    requires forall i :: 0 <= i < |more| ==> !IsHeading(more[i])
    ensures forall i :: 0 <= i < |both| ==> !IsHeading(both[i])
  {
  }

  lemma BodyGrows(body: string, line: string)
    requires EndsLine(body) && NoHeadingIn(body) && NoHeadingIn(line)
    ensures NoHeadingIn(body + line)
  {
    SplitAfterBehind(body, line);
    NoneAmongBoth(SplitAfter(body), SplitAfter(line), SplitAfter(body + line));
  }

  lemma EmptyHasNoHeading()
    ensures NoHeadingIn("")
  {
  }

  lemma FlushedIsWritten(blank: string -> bool, st: Splitting)
    requires WrittenSoFar(blank, st)
    ensures Written(blank, Flushed(blank, st))
    ensures Flushed(blank, st) != [] ==> EndsLine(Flushed(blank, st)[|Flushed(blank, st)| - 1].body)
  {
  }

  lemma HeadingText(line: string)
    requires IsHeading(line) && (IsFullLine(line) || '\n' !in line)
    ensures IsHeadingText(TrimNewlines(line))
  {
    TrimKeepsStart(line, 2);
    if IsFullLine(line) {
      TrimFullLine(line);
      assert TrimNewlines(line) == line[..|line| - 1];
    } else {
      assert TrimNewlines(line) == line;
    }
  }

  lemma FullLineWrites(blank: string -> bool, st: Splitting, line: string)
    requires WrittenSoFar(blank, st) && IsFullLine(line)
    ensures WrittenSoFar(blank, OneLine(blank, IsHeading, st, line))
  {
    if IsHeading(line) {
      FlushedIsWritten(blank, st);
      HeadingText(line);
      EmptyHasNoHeading();
    } else {
      OneLineText(line);
      BodyGrows(st.current.body, line);
    }
  }

  lemma {:induction false} LinesWrite(blank: string -> bool, lines: seq<string>)
    requires forall i :: 0 <= i < |lines| ==> IsFullLine(lines[i])
    ensures WrittenSoFar(blank, AfterLines(blank, IsHeading, lines))
  {
    if lines == [] {
      EmptyHasNoHeading();
    } else {
      LinesWrite(blank, lines[..|lines| - 1]);
      FullLineWrites(blank, AfterLines(blank, IsHeading, lines[..|lines| - 1]), lines[|lines| - 1]);
    }
  }

  lemma LastSectionWrites(blank: string -> bool, sections: seq<Section>, last: Section)
    requires Written(blank, sections) && (sections != [] ==> EndsLine(sections[|sections| - 1].body))
    requires last.order == |sections| && NoHeadingIn(last.body)
    requires if last.heading == "" then sections == [] else IsHeadingText(last.heading)
    ensures Written(blank, Flushed(blank, Splitting(sections, last)))
  {
  }

  lemma LastLineWrites(blank: string -> bool, st: Splitting, line: string)
    requires WrittenSoFar(blank, st) && '\n' !in line
    ensures Written(blank, Flushed(blank, OneLine(blank, IsHeading, st, line)))
  {
    if IsHeading(line) {
      FlushedIsWritten(blank, st);
      HeadingText(line);
      EmptyHasNoHeading();
      LastSectionWrites(blank, Flushed(blank, st), Section(TrimNewlines(line), "", |Flushed(blank, st)|));
    } else {
      OneLineText(line);
      BodyGrows(st.current.body, line);
      LastSectionWrites(blank, st.sections, st.current.(body := st.current.body + line));
    }
  }

  lemma SplittingWritesBy(blank: string -> bool, seed: string)
    ensures Written(blank, SectionsBy(blank, seed))
  {
    if seed != "" {
      var lines := SplitAfter(seed);
      var (front, last) := (lines[..|lines| - 1], lines[|lines| - 1]);
      SplitAfterIsLines(seed);
      AreLinesMeans(lines);
      LinesWrite(blank, front);
      LastLineWrites(blank, AfterLines(blank, IsHeading, front), last);
    }
  }

  // The section has a heading or none, and its body no line that starts like one.
  ghost predicate StartsOnce(s: Section) {
    (s.heading != "" ==> "# " <= s.heading) && forall i :: 0 <= i < |SplitAfter(s.body)| ==> !("# " <= SplitAfter(s.body)[i])
  }

  // A section starts at every line that starts with a number sign and a space, and nowhere
  // else but at a start that is not blank: whatever the seed, this is the list it is split
  // into, and no other such list has the same text.
  lemma SplittingIsUnique(seed: string, other: seq<Section>)
    ensures Written(Blank, Sections(seed))
    ensures forall i :: 0 <= i < |Sections(seed)| ==> StartsOnce(Sections(seed)[i])
    ensures Written(Blank, other) && RawAll(other) == RawAll(Sections(seed)) ==> other == Sections(seed)
  {
    SplittingWritesBy(Blank, seed);
    forall i | 0 <= i < |Sections(seed)| ensures StartsOnce(Sections(seed)[i]) {
      assert SectionAt(Blank, Sections(seed)[i], i);
    }
    if Written(Blank, other) && RawAll(other) == RawAll(Sections(seed)) {
      SplittingReadsBack(other);
      SplittingReadsBack(Sections(seed));
    }
  }
}
