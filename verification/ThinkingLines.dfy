// Phases 2 and 3 of the cleaning in terms of lines (internal/ai/patrol_ai.go:125-198):
// which lines go, and that all others stay, in order.
module ThinkingLines {
  import opened Text
  import opened TextEdits
  import opened ThinkingTokens
  import opened ThinkingTokensRuns

  // ----- phase 2 -----

  ghost predicate Marked(ms: seq<string>, line: string) {
    !NoneIn(ms, line)
  }

  ghost function UnmarkedOf(ms: seq<string>, lines: seq<string>): seq<string> {
    if lines == [] then []
    else if Marked(ms, lines[0]) then UnmarkedOf(ms, lines[1..])
    else [lines[0]] + UnmarkedOf(ms, lines[1..])
  }

  // The lines without a marker; the first line is emptied instead of removed.
  ghost function KeptLines(ms: seq<string>, lines: seq<string>): seq<string> {
    if lines == [] then []
    else [if Marked(ms, lines[0]) then "" else lines[0]] + UnmarkedOf(ms, lines[1..])
  }

  lemma {:induction false} UnmarkedConcat(ms: seq<string>, a: seq<string>, b: seq<string>)
    ensures UnmarkedOf(ms, a + b) == UnmarkedOf(ms, a) + UnmarkedOf(ms, b)
  {
    if a == [] {
      assert a + b == b;
    } else {
      assert (a + b)[1..] == a[1..] + b;
      UnmarkedConcat(ms, a[1..], b);
    }
  }

  lemma KeptWithoutMarked(ms: seq<string>, p: seq<string>, line: string, q: seq<string>)
    requires p != [] && Marked(ms, line)
    ensures KeptLines(ms, p + [line] + q) == KeptLines(ms, p + q)
  {
    assert (p + [line] + q)[1..] == p[1..] + ([line] + q) && (p + q)[1..] == p[1..] + q;
    UnmarkedConcat(ms, p[1..], [line] + q);
    UnmarkedConcat(ms, p[1..], q);
    assert ([line] + q)[1..] == q;
  }

  lemma KeptWithFirstEmptied(ms: seq<string>, line: string, q: seq<string>)
    requires NoneEmpty(ms) && Marked(ms, line)
    ensures KeptLines(ms, [line] + q) == KeptLines(ms, [""] + q)
  {
    assert ([line] + q)[1..] == q && ([""] + q)[1..] == q;
    forall i | 0 <= i < |ms| ensures !Contains("", ms[i]) { NotInEmpty(ms[i]); }
  }

  // What follows a line: nothing, or a newline and more lines.
  function LinesAfter(s: string, b: nat): seq<string>
    requires b <= |s|
  {
    if b == |s| then [] else Split(s[b + 1..], NL)
  }

  lemma SplitEqual(x: string, y: string, parts: seq<string>)
    requires x == y && Split(x, NL) == parts
    ensures Split(y, NL) == parts
  {
  }

  lemma CutAtNewline(s: string, b: nat)
    requires b < |s| && s[b] == NL
    ensures s[..b] + [NL] + s[b + 1..] == s
  {
  }

  lemma FirstLine(s: string, b: nat)
    requires b <= |s| && (b == |s| || s[b] == NL) && NL !in s[..b]
    ensures Split(s, NL) == [s[..b]] + LinesAfter(s, b)
  {
    if b == |s| {
      assert s[..b] == s;
      SplitNone(s, NL);
    } else {
      CutAtNewline(s, b);
      SplitCons(s[..b], s[b + 1..], NL);
      SplitEqual(s[..b] + [NL] + s[b + 1..], s, [s[..b]] + Split(s[b + 1..], NL));
    }
  }

  lemma RestBehind(s: string, b: nat)
    requires b <= |s| && (b == |s| || s[b] == NL)
    ensures Split(s[b..], NL) == [""] + LinesAfter(s, b)
  {
    if b < |s| {
      assert s[b..] == [NL] + s[b + 1..];
      assert s[b..][1..] == s[b + 1..];
    }
  }

  lemma LineBehind(front: string, t: string, k: nat)
    requires k <= |t| && (k == |t| || t[k] == NL) && NL !in t[..k]
    ensures Split(front + [NL] + t, NL) == Split(front, NL) + [t[..k]] + LinesAfter(t, k)
  {
    SplitConcat(front, t, NL);
    FirstLine(t, k);
    Regroup(Split(front, NL), t[..k], LinesAfter(t, k));
  }

  lemma Regroup(p: seq<string>, line: string, q: seq<string>)
    ensures p + ([line] + q) == p + [line] + q && p + [] == p
  {
  }

  lemma JoinedBehind(front: string, t: string, k: nat)
    requires k <= |t| && (k == |t| || t[k] == NL)
    ensures Split(front + t[k..], NL) == Split(front, NL) + LinesAfter(t, k)
  {
    if k == |t| {
      assert front + t[k..] == front;
      Regroup(Split(front, NL), "", []);
    } else {
      assert front + t[k..] == front + [NL] + t[k + 1..];
      SplitConcat(front, t[k + 1..], NL);
    }
  }

  lemma Slices(s: string, a: nat, b: nat)
    requires a < b <= |s|
    ensures s == s[..a] + [s[a]] + s[a + 1..]
    ensures var t := s[a + 1..];
      t[..b - a - 1] == s[a + 1..b] && t[b - a - 1..] == s[b..] && (b < |s| ==> t[b - a - 1] == s[b])
  {
  }

  // The line around an occurrence of a marker is marked.
  lemma LineIsMarked(m: string, s: string, idx: nat, start: nat, end: nat)
    requires At(s, m, idx) && start <= idx && idx + |m| <= end <= |s|
    ensures Marked([m], s[start..end])
  {
    AtMoved(s[start..end], s, m, idx, 0 - start);
    assert Contains(s[start..end], [m][0]);
  }

  lemma NoNewlineInLine(m: string, s: string, idx: nat)
    requires At(s, m, idx) && NL !in m
    ensures var start := LastIndexOf(s, NL, idx) + 1;
      NL !in s[start..LineEnd(s, idx + |m|)]
  {
    NoNewlineAt(s, m, idx);
  }

  ghost predicate SameKept(m: string, s: string, r: string) {
    KeptLines([m], Split(s, NL)) == KeptLines([m], Split(r, NL))
  }

  lemma SameKeptOf(m: string, s: string, r: string, s2: string, r2: string)
    requires s == s2 && r == r2 && SameKept(m, s, r)
    ensures SameKept(m, s2, r2)
  {
  }

  lemma FirstLineGoes(m: string, s: string, b: nat)
    requires m != "" && b <= |s| && (b == |s| || s[b] == NL) && NL !in s[..b] && Marked([m], s[..b])
    ensures SameKept(m, s, s[b..])
  {
    FirstLine(s, b);
    RestBehind(s, b);
    KeptWithFirstEmptied([m], s[..b], LinesAfter(s, b));
  }

  lemma LaterLineGoes(m: string, front: string, t: string, k: nat)
    requires k <= |t| && (k == |t| || t[k] == NL) && NL !in t[..k] && Marked([m], t[..k])
    ensures SameKept(m, front + [NL] + t, front + t[k..])
  {
    LineBehind(front, t, k);
    JoinedBehind(front, t, k);
    KeptWithoutMarked([m], Split(front, NL), t[..k], LinesAfter(t, k));
  }

  lemma FirstLineCut(m: string, s: string, b: nat)
    requires m != "" && b <= |s| && (b == |s| || s[b] == NL) && NL !in s[0..b] && Marked([m], s[0..b])
    ensures SameKept(m, s, s[..0] + s[b..])
  {
    assert s[..0] + s[b..] == s[b..] && s[0..b] == s[..b];
    FirstLineGoes(m, s, b);
    SameKeptOf(m, s, s[b..], s, s[..0] + s[b..]);
  }

  lemma LaterLineCut(m: string, s: string, a: nat, b: nat)
    requires a < b <= |s| && s[a] == NL && (b == |s| || s[b] == NL) && NL !in s[a + 1..b] && Marked([m], s[a + 1..b])
    ensures SameKept(m, s, s[..a] + s[b..])
  {
    Slices(s, a, b);
    LaterLineGoes(m, s[..a], s[a + 1..], b - a - 1);
    SameKeptOf(m, s[..a] + [NL] + s[a + 1..], s[..a] + s[a + 1..][b - a - 1..], s, s[..a] + s[b..]);
  }

  lemma WithoutLineKeeps(m: string, s: string, idx: nat)
    requires m != "" && NL !in m && At(s, m, idx)
    ensures SameKept(m, s, WithoutLine(s, idx, |m|))
  {
    var a, b := LastIndexOf(s, NL, idx), LineEnd(s, idx + |m|);
    NoNewlineInLine(m, s, idx);
    LineIsMarked(m, s, idx, a + 1, b);
    if a < 0 {
      FirstLineCut(m, s, b);
    } else {
      LaterLineCut(m, s, a, b);
    }
  }

  lemma {:induction false} UnmarkedStay(ms: seq<string>, lines: seq<string>)
    requires forall i :: 0 <= i < |lines| ==> !Marked(ms, lines[i])
    ensures UnmarkedOf(ms, lines) == lines
  {
    if lines != [] {
      UnmarkedStay(ms, lines[1..]);
    }
  }

  lemma CleanLinesStay(m: string, s: string)
    requires !Contains(s, m)
    ensures KeptLines([m], Split(s, NL)) == Split(s, NL)
  {
    var lines := Split(s, NL);
    JoinSplit(s, NL);
    forall i: nat | i < |lines| ensures !Marked([m], lines[i]) {
      if Contains(lines[i], m) { ContainsJoin(lines, m, i); }
    }
    UnmarkedStay([m], lines[1..]);
  }

  // The lines left by the loop for one marker.
  lemma {:induction false} DropLinesFilters(m: string, s: string)
    requires m != "" && NL !in m
    ensures Split(DropLines(m, s), NL) == KeptLines([m], Split(s, NL))
    decreases |s|
  {
    var idx := Index(s, m);
    if idx < 0 {
      IndexFinds(s, m);
      CleanLinesStay(m, s);
    } else {
      WithoutLineKeeps(m, s, idx);
      DropLinesFilters(m, WithoutLine(s, idx, |m|));
    }
  }

  lemma {:induction false} UnmarkedTwice(front: seq<string>, last: string, lines: seq<string>)
    ensures UnmarkedOf([last], UnmarkedOf(front, lines)) == UnmarkedOf(front + [last], lines)
  {
    if lines != [] {
      UnmarkedTwice(front, last, lines[1..]);
      MarkedByEither(front, last, lines[0]);
      var rest := UnmarkedOf(front, lines[1..]);
      assert ([lines[0]] + rest)[1..] == rest;
    }
  }

  lemma MarkedByEither(front: seq<string>, last: string, line: string)
    ensures Marked(front + [last], line) <==> Marked(front, line) || Marked([last], line)
  {
    NoneInAppend(front, last, line);
    assert Contains(line, [last][0]) <==> Marked([last], line);
  }

  lemma KeptTwice(front: seq<string>, last: string, lines: seq<string>)
    requires lines != [] && last != ""
    ensures KeptLines([last], KeptLines(front, lines)) == KeptLines(front + [last], lines)
  {
    UnmarkedTwice(front, last, lines[1..]);
    MarkedByEither(front, last, lines[0]);
    NotInEmpty(last);
    var rest := UnmarkedOf(front, lines[1..]);
    var head := if Marked(front, lines[0]) then "" else lines[0];
    assert ([head] + rest)[1..] == rest;
  }

  // Phase 2 is a filter of lines: exactly those without any end marker stay.
  lemma {:induction false} PhaseTwoFiltersLines(ms: seq<string>, s: string)
    requires NoneEmpty(ms) && WithinLines(ms)
    ensures Split(DropAll(ms, s), NL) == KeptLines(ms, Split(s, NL))
    ensures DropAll(ms, s) == Join(KeptLines(ms, Split(s, NL)), NL)
  {
    JoinSplit(DropAll(ms, s), NL);
    if ms == [] {
      NothingMarked(Split(s, NL));
    } else {
      var (front, last) := (ms[..|ms| - 1], ms[|ms| - 1]);
      PhaseTwoFiltersLines(front, s);
      DropLinesFilters(last, DropAll(front, s));
      KeptTwice(front, last, Split(s, NL));
      assert front + [last] == ms;
    }
  }

  lemma NothingMarked(lines: seq<string>)
    requires lines != []
    ensures KeptLines([], lines) == lines
  {
    UnmarkedStay([], lines[1..]);
  }

  // ----- phase 3 -----

  // From a blank line before reasoning on, everything goes up to a line of content.
  lemma {:induction false} ReasoningGoesUpToContent(mk: Markup, trim: string -> string, lines: seq<string>, n: nat, m: nat)
    requires n < m <= |lines|
    requires !FilterLines(mk, trim, lines, n).skipping && ReasoningAt(mk, trim, lines, n)
    requires forall i :: n < i < m ==> !StartsWithAny(trim(lines[i]), mk.resuming)
    ensures FilterLines(mk, trim, lines, m) == Filter(FilterLines(mk, trim, lines, n).kept, true)
    ensures m < |lines| && StartsWithAny(trim(lines[m]), mk.resuming) && !ReasoningAt(mk, trim, lines, m) ==>
      FilterLines(mk, trim, lines, m + 1) == Filter(FilterLines(mk, trim, lines, n).kept + [lines[m]], false)
  {
    if n + 1 < m {
      ReasoningGoesUpToContent(mk, trim, lines, n, m - 1);
    }
  }

  // ----- a paragraph of reasoning between other lines -----

  // The line starts with one of these, white space apart.
  predicate Opens(trim: string -> string, line: string, prefixes: seq<string>) {
    exists i :: 0 <= i < |prefixes| && prefixes[i] <= trim(line)
  }

  lemma {:induction false} OpensMeans(trim: string -> string, line: string, prefixes: seq<string>)
    ensures Opens(trim, line, prefixes) <==> StartsWithAny(trim(line), prefixes)
  {
    if prefixes != [] {
      OpensMeans(trim, line, prefixes[1..]);
      if i :| 0 <= i < |prefixes| && prefixes[i] <= trim(line) {
        assert i > 0 ==> prefixes[1..][i - 1] == prefixes[i];
      }
      if i :| 0 <= i < |prefixes[1..]| && prefixes[1..][i] <= trim(line) {
        assert prefixes[i + 1] == prefixes[1..][i];
      }
    }
  }

  // A blank line with reasoning behind it.
  predicate Announces(mk: Markup, trim: string -> string, lines: seq<string>, i: int) {
    0 <= i < |lines| - 1 && trim(lines[i]) == "" && Opens(trim, lines[i + 1], mk.reasoning)
  }

  lemma AnnouncesMeans(mk: Markup, trim: string -> string, lines: seq<string>, i: nat)
    requires i < |lines|
    ensures Announces(mk, trim, lines, i) <==> ReasoningAt(mk, trim, lines, i)
  {
    if i + 1 < |lines| {
      OpensMeans(trim, lines[i + 1], mk.reasoning);
    }
  }

  // From a line on before which nothing is skipped, all lines stay when none announces
  // reasoning.
  lemma {:induction false} RestStays(mk: Markup, trim: string -> string, lines: seq<string>, m: nat, n: nat, kept: seq<string>)
    requires m <= n <= |lines| && FilterLines(mk, trim, lines, m) == Filter(kept, false)
    requires forall i :: m <= i < n ==> !Announces(mk, trim, lines, i)
    ensures FilterLines(mk, trim, lines, n) == Filter(kept + lines[m..n], false)
    decreases n
  {
    if n == m {
      assert kept + lines[m..n] == kept;
    } else {
      RestStays(mk, trim, lines, m, n - 1, kept);
      AnnouncesMeans(mk, trim, lines, n - 1);
      FilterLineKeeps(mk, trim, lines, n - 1, Filter(kept + lines[m..n - 1], false));
      assert kept + lines[m..n - 1] + [lines[n - 1]] == kept + lines[m..n];
    }
  }

  // The lines p, then a blank line, the reasoning q, a line of content h and the lines t.
  lemma SkippedUpTo(mk: Markup, trim: string -> string, lines: seq<string>, n: nat, m: nat)
    requires n + 1 < m < |lines| && Announces(mk, trim, lines, n)
    requires (forall i :: 0 <= i < n ==> !Announces(mk, trim, lines, i))
    requires forall i :: n < i < m ==> !Opens(trim, lines[i], mk.resuming)
    requires Opens(trim, lines[m], mk.resuming) && !Announces(mk, trim, lines, m)
    ensures FilterLines(mk, trim, lines, m + 1) == Filter(lines[..n] + [lines[m]], false)
  {
    RestStays(mk, trim, lines, 0, n, []);
    assert [] + lines[0..n] == lines[..n];
    AnnouncesMeans(mk, trim, lines, n);
    AnnouncesMeans(mk, trim, lines, m);
    forall i | n < i <= m ensures Opens(trim, lines[i], mk.resuming) <==> StartsWithAny(trim(lines[i]), mk.resuming) {
      OpensMeans(trim, lines[i], mk.resuming);
    }
    ReasoningGoesUpToContent(mk, trim, lines, n, m);
  }

  // Of lines with one paragraph of reasoning, announced by a blank line, exactly that line
  // and the lines up to the next line of content go.
  lemma ReasoningParagraphGoes(mk: Markup, trim: string -> string, lines: seq<string>, n: nat, m: nat)
    requires n + 1 < m < |lines| && Announces(mk, trim, lines, n)
    requires forall i :: 0 <= i < n || m <= i < |lines| ==> !Announces(mk, trim, lines, i)
    requires (forall i :: n < i < m ==> !Opens(trim, lines[i], mk.resuming)) && Opens(trim, lines[m], mk.resuming)
    ensures FilterLines(mk, trim, lines, |lines|).kept == lines[..n] + lines[m..]
  {
    SkippedUpTo(mk, trim, lines, n, m);
    TailStays(mk, trim, lines, m, lines[..n] + [lines[m]]);
    OneBetween(lines, n, m);
  }

  lemma TailStays(mk: Markup, trim: string -> string, lines: seq<string>, m: nat, kept: seq<string>)
    requires m < |lines| && FilterLines(mk, trim, lines, m + 1) == Filter(kept, false)
    requires forall i :: m <= i < |lines| ==> !Announces(mk, trim, lines, i)
    ensures FilterLines(mk, trim, lines, |lines|).kept == kept + lines[m + 1..]
  {
    RestStays(mk, trim, lines, m + 1, |lines|, kept);
  }

  lemma OneBetween(lines: seq<string>, n: nat, m: nat)
    requires n <= m < |lines|
    ensures lines[..n] + [lines[m]] + lines[m + 1..] == lines[..n] + lines[m..]
  {
  }

  // Reasoning that no content follows takes the rest with it.
  lemma ReasoningAtTheEndGoes(mk: Markup, trim: string -> string, lines: seq<string>, n: nat)
    requires Announces(mk, trim, lines, n) && forall i :: 0 <= i < n ==> !Announces(mk, trim, lines, i)
    requires forall i :: n < i < |lines| ==> !Opens(trim, lines[i], mk.resuming)
    ensures FilterLines(mk, trim, lines, |lines|).kept == lines[..n]
  {
    RestStays(mk, trim, lines, 0, n, []);
    assert [] + lines[0..n] == lines[..n];
    AnnouncesMeans(mk, trim, lines, n);
    forall i | n < i < |lines| ensures !StartsWithAny(trim(lines[i]), mk.resuming) {
      OpensMeans(trim, lines[i], mk.resuming);
    }
    ReasoningGoesUpToContent(mk, trim, lines, n, |lines|);
  }

  // ----- the same in the words of the source -----

  predicate IsReasoning(trimmed: string) {
    "Now, " <= trimmed || "Let's " <= trimmed || "Let me " <= trimmed || "I should " <= trimmed || "I'll " <= trimmed ||
    "I need to " <= trimmed || "Checking " <= trimmed || "Looking at " <= trimmed
  }

  predicate IsContent(trimmed: string) {
    "#" <= trimmed || "[FINDING]" <= trimmed || "**" <= trimmed || "-" <= trimmed || "1." <= trimmed
  }

  lemma ReasoningWords(trim: string -> string, line: string)
    ensures Opens(trim, line, THINKING.reasoning) <==> IsReasoning(trim(line))
  {
    var words := THINKING.reasoning;
    assert words[0] == "Now, " && words[1] == "Let's " && words[2] == "Let me " && words[3] == "I should ";
    assert words[4] == "I'll " && words[5] == "I need to " && words[6] == "Checking " && words[7] == "Looking at ";
  }

  lemma ContentWords(trim: string -> string, line: string)
    ensures Opens(trim, line, THINKING.resuming) <==> IsContent(trim(line))
  {
    var words := THINKING.resuming;
    assert words[0] == "#" && words[1] == "[FINDING]" && words[2] == "**" && words[3] == "-" && words[4] == "1.";
  }

  // Which trimmed lines count as reasoning and which as content.
  ghost predicate Words(mk: Markup, trim: string -> string, reasoning: string -> bool, content: string -> bool) {
    forall line :: (Opens(trim, line, mk.reasoning) <==> reasoning(trim(line))) &&
      (Opens(trim, line, mk.resuming) <==> content(trim(line)))
  }

  lemma SourceWords(trim: string -> string)
    ensures Words(THINKING, trim, IsReasoning, IsContent)
  {
    forall line ensures Opens(trim, line, THINKING.reasoning) <==> IsReasoning(trim(line)) {
      ReasoningWords(trim, line);
    }
    forall line ensures Opens(trim, line, THINKING.resuming) <==> IsContent(trim(line)) {
      ContentWords(trim, line);
    }
  }

  // A blank line with a line of reasoning behind it.
  predicate Turns(trim: string -> string, reasoning: string -> bool, lines: seq<string>, i: int) {
    0 <= i < |lines| - 1 && trim(lines[i]) == "" && reasoning(trim(lines[i + 1]))
  }

  // The lines turn to reasoning at n, and nowhere else but between n and m, where the next
  // line of content is, or the end.
  ghost predicate OneParagraph(trim: string -> string, reasoning: string -> bool, content: string -> bool,
                               lines: seq<string>, n: int, m: int) {
    0 <= n && n + 1 < m <= |lines| && Turns(trim, reasoning, lines, n) &&
    (forall i :: 0 <= i < n || m <= i < |lines| ==> !Turns(trim, reasoning, lines, i)) &&
    (forall i :: n < i < m ==> !content(trim(lines[i]))) && (m < |lines| ==> content(trim(lines[m])))
  }

  lemma OneParagraphGoes(mk: Markup, trim: string -> string, reasoning: string -> bool, content: string -> bool,
                         lines: seq<string>, n: nat, m: nat)
    requires Words(mk, trim, reasoning, content) && OneParagraph(trim, reasoning, content, lines, n, m)
    ensures FilterLines(mk, trim, lines, |lines|).kept == lines[..n] + lines[m..]
  {
    forall i ensures Announces(mk, trim, lines, i) <==> Turns(trim, reasoning, lines, i) {
      assert 0 <= i < |lines| - 1 ==> (Opens(trim, lines[i + 1], mk.reasoning) <==> reasoning(trim(lines[i + 1])));
    }
    if m < |lines| {
      ReasoningParagraphGoes(mk, trim, lines, n, m);
    } else {
      ReasoningAtTheEndGoes(mk, trim, lines, n);
      assert lines[..n] + lines[m..] == lines[..n];
    }
  }

  // Of a text whose lines have one paragraph of reasoning, the blank line before it and the
  // lines up to the next line of content, or to the end, go; all others stay.
  lemma ReasoningIsDropped(s: string, n: nat, m: nat)
    requires OneParagraph(TrimSpace, IsReasoning, IsContent, Split(s, NL), n, m)
    ensures Filtered(THINKING, s) == Join(Split(s, NL)[..n] + Split(s, NL)[m..], NL)
  {
    SourceWords(TrimSpace);
    OneParagraphGoes(THINKING, TrimSpace, IsReasoning, IsContent, Split(s, NL), n, m);
  }
}
