// What cleaning achieves: the end markers and the long runs of newlines are gone, nothing
// grows, no pattern forms after the blocks are removed, and exactly the clean texts are
// left as they are.
module ThinkingTokensRuns {
  import opened Text
  import opened TextEdits
  import opened ThinkingTokens

  // A step leaves x alone when it is clean, and shortens it otherwise.
  ghost predicate Shrunk(x: string, y: string, clean: bool) {
    if clean then y == x else |y| < |x|
  }

  ghost predicate NoneIn(ms: seq<string>, s: string) {
    forall i :: 0 <= i < |ms| ==> !Contains(s, ms[i])
  }

  ghost predicate NoTags(tags: seq<BlockTag>, s: string) {
    forall i :: 0 <= i < |tags| ==> !Contains(ToLower(s), tags[i].open)
  }

  // ----- phase 0 -----

  lemma CutAtSize(m: string, s: string)
    requires m != ""
    ensures Shrunk(s, CutAt(m, s), !Contains(s, m))
  {
    IndexFinds(s, m);
    var n := Index(s, m);
    if n >= 0 {
      PrefixIsShorter(s, n);
    }
  }

  lemma PrefixIsShorter(s: string, n: nat)
    requires n < |s|
    ensures |TrimSpace(s[..n])| < |s|
  {
    TrimShrinks(s[..n]);
  }

  lemma CutAtContains(m: string, s: string, p: string)
    requires Contains(CutAt(m, s), p)
    ensures Contains(s, p)
  {
    if Index(s, m) >= 0 {
      TrimContains(s[..Index(s, m)], p);
      SubstringContains(s, 0, Index(s, m), p);
    }
  }

  lemma NoneBeforeFirst(m: string, s: string, n: nat)
    requires m != "" && n == Index(s, m)
    ensures !Contains(s[..n], m)
  {
    if i :| At(s[..n], m, i) {
      AtMoved(s, s[..n], m, i, 0);
      IndexFromIsFirst(s, m, 0, i);
    }
  }

  lemma CutAtCuts(m: string, s: string)
    requires m != ""
    ensures !Contains(CutAt(m, s), m)
  {
    var n := Index(s, m);
    if n < 0 {
      IndexFinds(s, m);
    } else {
      NoneBeforeFirst(m, s, n);
      if Contains(TrimSpace(s[..n]), m) { TrimContains(s[..n], m); }
    }
  }

  lemma CutAtKeepsNone(ms: seq<string>, m: string, s: string)
    requires NoneIn(ms, s)
    ensures NoneIn(ms, CutAt(m, s))
  {
    forall i | 0 <= i < |ms| ensures !Contains(CutAt(m, s), ms[i]) {
      if Contains(CutAt(m, s), ms[i]) { CutAtContains(m, s, ms[i]); }
    }
  }

  // r has none of the markers, and is what is left of s.
  ghost predicate Cleared(ms: seq<string>, s: string, r: string) {
    NoneIn(ms, r) && Shrunk(s, r, NoneIn(ms, s))
  }

  // One marker more.
  lemma ClearedBoth(front: seq<string>, last: string, s: string, t: string, r: string)
    requires Cleared(front, s, t) && Shrunk(t, r, !Contains(t, last)) && NoneIn(front, r) && !Contains(r, last)
    ensures Cleared(front + [last], s, r)
  {
    NoneInAppend(front, last, s);
    NoneInAppend(front, last, r);
  }

  lemma ClearedAs(more: seq<string>, ms: seq<string>, s: string, r: string)
    requires more == ms && Cleared(more, s, r)
    ensures Cleared(ms, s, r)
  {
  }

  lemma CutStep(front: seq<string>, last: string, s: string, t: string)
    requires last != "" && Cleared(front, s, t)
    ensures Cleared(front + [last], s, CutAt(last, t))
  {
    CutAtSize(last, t);
    CutAtCuts(last, t);
    CutAtKeepsNone(front, last, t);
    ClearedBoth(front, last, s, t, CutAt(last, t));
  }

  lemma {:induction false} CutAllCuts(ms: seq<string>, s: string)
    requires NoneEmpty(ms)
    ensures Cleared(ms, s, CutAll(ms, s))
  {
    if ms != [] {
      var (front, last) := (ms[..|ms| - 1], ms[|ms| - 1]);
      CutAllCuts(front, s);
      CutStep(front, last, s, CutAll(front, s));
      ClearedAs(front + [last], ms, s, CutAll(ms, s));
    }
  }

  lemma NoneInAppend(front: seq<string>, last: string, s: string)
    ensures NoneIn(front + [last], s) <==> NoneIn(front, s) && !Contains(s, last)
  {
    assert (front + [last])[|front|] == last;
    assert forall i :: 0 <= i < |front| ==> (front + [last])[i] == front[i];
  }

  // ----- phase 1 -----

  lemma {:induction false} RemoveBlocksRemoves(tag: BlockTag, s: string)
    requires tag.open != ""
    ensures !Contains(ToLower(RemoveBlocks(tag, s)), tag.open)
    ensures Shrunk(s, RemoveBlocks(tag, s), !Contains(ToLower(s), tag.open))
    decreases |s|
  {
    var openIdx := Index(ToLower(s), tag.open);
    IndexFinds(ToLower(s), tag.open);
    if openIdx >= 0 {
      RemoveBlocksRemoves(tag, WithoutBlock(tag, s, ToLower(s), openIdx));
    }
  }

  lemma {:induction false} RemoveAllBlocksSize(tags: seq<BlockTag>, s: string)
    requires NoneOpensEmpty(tags)
    ensures Shrunk(s, RemoveAllBlocks(tags, s), NoTags(tags, s))
  {
    if tags != [] {
      var (front, last) := (tags[..|tags| - 1], tags[|tags| - 1]);
      RemoveAllBlocksSize(front, s);
      RemoveBlocksRemoves(last, RemoveAllBlocks(front, s));
      NoTagsAppend(front, last, s);
      assert tags == front + [last];
    }
  }

  lemma NoTagsAppend(front: seq<BlockTag>, last: BlockTag, s: string)
    ensures NoTags(front + [last], s) <==> NoTags(front, s) && !Contains(ToLower(s), last.open)
  {
    assert (front + [last])[|front|] == last;
    assert forall i :: 0 <= i < |front| ==> (front + [last])[i] == front[i];
  }

  // ----- phase 2 -----

  lemma WithoutLineContains(s: string, idx: nat, n: nat, p: string)
    requires idx + n <= |s| && NL !in p && Contains(WithoutLine(s, idx, n), p)
    ensures Contains(s, p)
  {
    CutContains(s, LineStart(s, idx), LineEnd(s, idx + n), p);
  }

  lemma {:induction false} DropLinesDrops(m: string, s: string)
    requires m != ""
    ensures !Contains(DropLines(m, s), m) && Shrunk(s, DropLines(m, s), !Contains(s, m))
    decreases |s|
  {
    var idx := Index(s, m);
    IndexFinds(s, m);
    if idx >= 0 {
      DropLinesDrops(m, WithoutLine(s, idx, |m|));
    }
  }

  lemma {:induction false} DropLinesContains(m: string, s: string, p: string)
    requires m != "" && NL !in p && Contains(DropLines(m, s), p)
    ensures Contains(s, p)
    decreases |s|
  {
    var idx := Index(s, m);
    if idx >= 0 {
      DropLinesContains(m, WithoutLine(s, idx, |m|), p);
      WithoutLineContains(s, idx, |m|, p);
    }
  }

  ghost predicate WithinLines(ms: seq<string>) {
    forall i :: 0 <= i < |ms| ==> NL !in ms[i]
  }

  lemma DropLinesKeepsNone(ms: seq<string>, m: string, s: string)
    requires m != "" && WithinLines(ms) && NoneIn(ms, s)
    ensures NoneIn(ms, DropLines(m, s))
  {
    forall i | 0 <= i < |ms| ensures !Contains(DropLines(m, s), ms[i]) {
      if Contains(DropLines(m, s), ms[i]) { DropLinesContains(m, s, ms[i]); }
    }
  }

  lemma DropStep(front: seq<string>, last: string, s: string, t: string)
    requires last != "" && WithinLines(front) && Cleared(front, s, t)
    ensures Cleared(front + [last], s, DropLines(last, t))
  {
    DropLinesDrops(last, t);
    DropLinesKeepsNone(front, last, t);
    ClearedBoth(front, last, s, t, DropLines(last, t));
  }

  lemma {:induction false} DropAllDrops(ms: seq<string>, s: string)
    requires NoneEmpty(ms) && WithinLines(ms)
    ensures Cleared(ms, s, DropAll(ms, s))
  {
    if ms != [] {
      var (front, last) := (ms[..|ms| - 1], ms[|ms| - 1]);
      DropAllDrops(front, s);
      DropStep(front, last, s, DropAll(front, s));
      ClearedAs(front + [last], ms, s, DropAll(ms, s));
    }
  }

  lemma {:induction false} DropAllContains(ms: seq<string>, s: string, p: string)
    requires NoneEmpty(ms) && NL !in p && Contains(DropAll(ms, s), p)
    ensures Contains(s, p)
  {
    if ms != [] {
      DropLinesContains(ms[|ms| - 1], DropAll(ms[..|ms| - 1], s), p);
      DropAllContains(ms[..|ms| - 1], s, p);
    }
  }

  // ----- phase 3 -----

  ghost predicate NoReasoning(mk: Markup, trim: string -> string, lines: seq<string>, n: nat)
    requires n <= |lines|
  {
    forall i: nat :: i < n ==> !ReasoningAt(mk, trim, lines, i)
  }

  function Weight(parts: seq<string>): nat {
    if parts == [] then 0 else Weight(parts[..|parts| - 1]) + |parts[|parts| - 1]| + 1
  }

  lemma {:induction false} WeightFront(a: string, rest: seq<string>)
    ensures Weight([a] + rest) == |a| + 1 + Weight(rest)
  {
    if rest == [] {
      assert [a] + rest == [a] && [a][..0] == [];
    } else {
      assert ([a] + rest)[..|rest|] == [a] + rest[..|rest| - 1];
      WeightFront(a, rest[..|rest| - 1]);
    }
  }

  lemma {:induction false} JoinWeight(parts: seq<string>)
    requires parts != []
    ensures |Join(parts, NL)| + 1 == Weight(parts)
  {
    WeightFront(parts[0], parts[1..]);
    assert [parts[0]] + parts[1..] == parts;
    if |parts| > 1 {
      JoinWeight(parts[1..]);
    }
  }

  lemma WeightAppend(parts: seq<string>, last: string)
    ensures Weight(parts + [last]) == Weight(parts) + |last| + 1
  {
    assert (parts + [last])[..|parts|] == parts;
  }

  lemma FilterLineKeeps(mk: Markup, trim: string -> string, lines: seq<string>, i: nat, f: Filter)
    requires i < |lines|
    ensures var g := FilterLine(mk, trim, lines, i, f);
      (g.kept == f.kept || g.kept == f.kept + [lines[i]]) &&
      (!f.skipping ==>
        g == if ReasoningAt(mk, trim, lines, i) then Filter(f.kept, true) else Filter(f.kept + [lines[i]], false))
  {
  }

  lemma {:induction false} KeptAreLines(mk: Markup, trim: string -> string, lines: seq<string>, n: nat)
    requires n <= |lines|
    ensures forall k :: k in FilterLines(mk, trim, lines, n).kept ==> k in lines
  {
    if n > 0 {
      KeptAreLines(mk, trim, lines, n - 1);
      FilterLineKeeps(mk, trim, lines, n - 1, FilterLines(mk, trim, lines, n - 1));
    }
  }

  lemma {:induction false} ReasonlessLinesKept(mk: Markup, trim: string -> string, lines: seq<string>, n: nat)
    requires n <= |lines| && NoReasoning(mk, trim, lines, n)
    ensures FilterLines(mk, trim, lines, n) == Filter(lines[..n], false)
  {
    if n > 0 {
      ReasonlessLinesKept(mk, trim, lines, n - 1);
      FilterLineKeeps(mk, trim, lines, n - 1, FilterLines(mk, trim, lines, n - 1));
      assert lines[..n - 1] + [lines[n - 1]] == lines[..n];
    }
  }

  lemma {:induction false} ReasoningLinesGo(mk: Markup, trim: string -> string, lines: seq<string>, n: nat)
    requires n <= |lines| && !NoReasoning(mk, trim, lines, n)
    ensures Weight(FilterLines(mk, trim, lines, n).kept) < Weight(lines[..n])
  {
    var f := FilterLines(mk, trim, lines, n - 1);
    FilterLineKeeps(mk, trim, lines, n - 1, f);
    WeightAppend(f.kept, lines[n - 1]);
    WeightAppend(lines[..n - 1], lines[n - 1]);
    assert lines[..n - 1] + [lines[n - 1]] == lines[..n];
    if NoReasoning(mk, trim, lines, n - 1) {
      ReasonlessLinesKept(mk, trim, lines, n - 1);
    } else {
      ReasoningLinesGo(mk, trim, lines, n - 1);
    }
  }

  ghost predicate Reasonless(mk: Markup, s: string) {
    NoReasoning(mk, TrimSpace, Split(s, NL), |Split(s, NL)|)
  }

  lemma KeptLinesSize(mk: Markup, trim: string -> string, lines: seq<string>)
    requires lines != []
    ensures Shrunk(Join(lines, NL), Join(FilterLines(mk, trim, lines, |lines|).kept, NL), NoReasoning(mk, trim, lines, |lines|))
  {
    var kept := FilterLines(mk, trim, lines, |lines|).kept;
    assert lines[..|lines|] == lines;
    JoinWeight(lines);
    if NoReasoning(mk, trim, lines, |lines|) {
      ReasonlessLinesKept(mk, trim, lines, |lines|);
    } else {
      ReasoningLinesGo(mk, trim, lines, |lines|);
      var i: nat :| i < |lines| && ReasoningAt(mk, trim, lines, i);
      assert |Join(lines, NL)| > 0;
      if kept != [] {
        JoinWeight(kept);
      }
    }
  }

  lemma FilteredSize(mk: Markup, s: string)
    ensures Shrunk(s, Filtered(mk, s), Reasonless(mk, s))
  {
    JoinSplit(s, NL);
    KeptLinesSize(mk, TrimSpace, Split(s, NL));
  }

  lemma KeptLinesContain(mk: Markup, trim: string -> string, lines: seq<string>, p: string)
    requires NL !in p && p != "" && Contains(Join(FilterLines(mk, trim, lines, |lines|).kept, NL), p)
    ensures Contains(Join(lines, NL), p)
  {
    KeptAreLines(mk, trim, lines, |lines|);
    FewerLinesContain(FilterLines(mk, trim, lines, |lines|).kept, lines, p);
  }

  lemma FinishedContains(mk: Markup, s: string, p: string)
    requires NL !in p && p != "" && Contains(Finished(mk, s), p)
    ensures Contains(s, p)
  {
    TrimContains(CollapseAll(Filtered(mk, s)), p);
    CollapseAllContains(Filtered(mk, s), p);
    KeptLinesContain(mk, TrimSpace, Split(s, NL), p);
    JoinSplit(s, NL);
  }

  lemma FinishedEnds(mk: Markup, s: string)
    ensures !Contains(Finished(mk, s), TRIPLE) && Trimmed(Finished(mk, s))
    ensures Shrunk(s, Finished(mk, s), Reasonless(mk, s) && !Contains(s, TRIPLE) && Trimmed(s))
  {
    var d := Filtered(mk, s);
    FilteredSize(mk, s);
    CollapseAllEnds(d);
    TrimShrinks(CollapseAll(d));
    if Contains(Finished(mk, s), TRIPLE) {
      TrimContains(CollapseAll(d), TRIPLE);
    }
  }

  // ----- the whole -----

  // The text after the blocks are removed.
  function Unblocked(mk: Markup, s: string): string
    requires Proper(mk)
  {
    RemoveAllBlocks(mk.blocks, CutAll(mk.functions, s))
  }

  ghost predicate IsClean(mk: Markup, s: string) {
    NoneIn(mk.functions, s) && NoTags(mk.blocks, s) && NoneIn(mk.ends, s) &&
    Reasonless(mk, s) && !Contains(s, TRIPLE) && Trimmed(s)
  }

  // Removing lines and newlines forms no pattern: what the result contains within a line,
  // the text had when its blocks were gone.
  lemma NothingFormsAfterBlocks(mk: Markup, s: string, p: string)
    requires Proper(mk) && s != "" && NL !in p && p != "" && Contains(Cleaned(mk, s), p)
    ensures Contains(Unblocked(mk, s), p)
  {
    FinishedContains(mk, DropAll(mk.ends, Unblocked(mk, s)), p);
    DropAllContains(mk.ends, Unblocked(mk, s), p);
  }

  // No end marker, no three newlines in a row, no space at either end.
  lemma CleanedHasNoMarkers(mk: Markup, s: string)
    requires Proper(mk)
    ensures NoneIn(mk.ends, Cleaned(mk, s))
    ensures !Contains(Cleaned(mk, s), TRIPLE) && Trimmed(Cleaned(mk, s))
  {
    if s == "" {
      EmptyIsClean(mk);
    } else {
      var c := DropAll(mk.ends, Unblocked(mk, s));
      DropAllDrops(mk.ends, Unblocked(mk, s));
      FinishedEnds(mk, c);
      forall i | 0 <= i < |mk.ends| ensures !Contains(Finished(mk, c), mk.ends[i]) {
        if Contains(Finished(mk, c), mk.ends[i]) { FinishedContains(mk, c, mk.ends[i]); }
      }
    }
  }

  lemma EmptyIsClean(mk: Markup)
    requires Proper(mk)
    ensures IsClean(mk, "")
  {
    forall p: string | p != "" ensures !Contains("", p) { NotInEmpty(p); }
    assert ToLower("") == "";
  }

  // Cleaning leaves a text as it is exactly when it is clean, and shortens any other.
  lemma LeftAloneIffClean(mk: Markup, s: string)
    requires Proper(mk)
    ensures Shrunk(s, Cleaned(mk, s), IsClean(mk, s))
  {
    if s == "" {
      EmptyIsClean(mk);
    } else {
      var a := CutAll(mk.functions, s);
      CutAllCuts(mk.functions, s);
      RemoveAllBlocksSize(mk.blocks, a);
      var b := RemoveAllBlocks(mk.blocks, a);
      DropAllDrops(mk.ends, b);
      FinishedEnds(mk, DropAll(mk.ends, b));
    }
  }

  lemma EndsAreProper()
    ensures NoneEmpty(THINKING.ends) && WithinLines(THINKING.ends)
  {
    var ends := THINKING.ends;
    assert |ends| == 6;
    forall i | 0 <= i < 6 ensures ends[i] != "" && NL !in ends[i] {
      EndIsProper(i);
    }
  }

  lemma EndIsProper(i: nat)
    requires i < 6
    ensures THINKING.ends[i] != "" && NL !in THINKING.ends[i]
  {
    if i == 0 {
    } else if i == 1 {
    } else if i == 2 {
    } else if i == 3 {
    }
  }

  lemma ThinkingIsProper()
    ensures Proper(THINKING)
  {
    EndsAreProper();
  }
}
