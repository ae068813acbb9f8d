// What removing text does to the patterns a string contains. A pattern without a newline
// that occurs after a cut at a newline occurred before it.
module TextEdits {
  import opened Text

  const NL: char := '\n'

  lemma AtMoved(s: string, t: string, p: string, i: int, d: int)
    requires At(t, p, i) && 0 <= i + d && i + d + |p| <= |s|
    requires forall k :: i <= k < i + |p| ==> s[k + d] == t[k]
    ensures At(s, p, i + d)
  {
    assert forall k :: 0 <= k < |p| ==> t[i..i + |p|][k] == p[k];
    assert s[i + d..i + d + |p|] == p;
  }

  lemma NoNewlineAt(t: string, p: string, i: int)
    requires At(t, p, i) && NL !in p
    ensures forall k :: i <= k < i + |p| ==> t[k] != NL
  {
    assert forall k :: i <= k < i + |p| ==> t[k] == t[i..i + |p|][k - i];
  }

  lemma SubstringContains(s: string, a: int, b: int, p: string)
    requires 0 <= a <= b <= |s| && Contains(s[a..b], p)
    ensures Contains(s, p)
  {
    var i :| At(s[a..b], p, i);
    AtMoved(s, s[a..b], p, i, a);
  }

  // s[..a] + s[b..] joins at a newline or at the end.
  lemma CutContains(s: string, a: int, b: int, p: string)
    requires 0 <= a <= b <= |s| && (b == |s| || s[b] == NL)
    requires NL !in p && Contains(s[..a] + s[b..], p)
    ensures Contains(s, p)
  {
    var t := s[..a] + s[b..];
    var i :| At(t, p, i);
    NoNewlineAt(t, p, i);
    assert a < |t| ==> t[a] == s[b];
    if i + |p| <= a {
      AtMoved(s, t, p, i, 0);
    } else if a <= i {
      AtMoved(s, t, p, i, b - a);
    }
  }

  // ----- lines -----

  lemma FrontContains(a: string, b: string, p: string)
    requires Contains(a, p)
    ensures Contains(a + b, p)
  {
    assert (a + b)[0..|a|] == a;
    SubstringContains(a + b, 0, |a|, p);
  }

  lemma BackContains(a: string, b: string, p: string)
    requires Contains(b, p)
    ensures Contains(a + b, p)
  {
    assert (a + b)[|a|..|a + b|] == b;
    SubstringContains(a + b, |a|, |a + b|, p);
  }

  // A pattern in two strings with a newline between them is in one of them.
  lemma LineContains(a: string, b: string, p: string)
    requires NL !in p && Contains(a + [NL] + b, p)
    ensures Contains(a, p) || Contains(b, p)
  {
    var t := a + [NL] + b;
    var i :| At(t, p, i);
    NoNewlineAt(t, p, i);
    assert t[|a|] == NL;
    if i + |p| <= |a| {
      AtMoved(a, t, p, i, 0);
    } else if |a| < i {
      AtMoved(b, t, p, i, -|a| - 1);
    }
  }

  lemma {:induction false} JoinContains(parts: seq<string>, p: string) returns (i: int)
    requires NL !in p && p != "" && Contains(Join(parts, NL), p)
    ensures 0 <= i < |parts| && Contains(parts[i], p)
  {
    i := 0;
    if |parts| > 1 {
      LineContains(parts[0], Join(parts[1..], NL), p);
      if !Contains(parts[0], p) {
        var k := JoinContains(parts[1..], p);
        i := k + 1;
      }
    } else if |parts| == 0 {
      NotInEmpty(p);
    }
  }

  lemma NotInEmpty(p: string)
    requires p != ""
    ensures !Contains("", p)
  {
  }

  lemma {:induction false} ContainsJoin(parts: seq<string>, p: string, i: nat)
    requires i < |parts| && Contains(parts[i], p)
    ensures Contains(Join(parts, NL), p)
  {
    if |parts| > 1 {
      var rest := Join(parts[1..], NL);
      if i == 0 {
        FrontContains(parts[0], [NL] + rest, p);
        assert parts[0] + ([NL] + rest) == parts[0] + [NL] + rest;
      } else {
        ContainsJoin(parts[1..], p, i - 1);
        BackContains(parts[0] + [NL], rest, p);
      }
    }
  }

  // Keeping only some of the lines brings no pattern in.
  lemma FewerLinesContain(kept: seq<string>, lines: seq<string>, p: string)
    requires forall k :: k in kept ==> k in lines
    requires NL !in p && p != "" && Contains(Join(kept, NL), p)
    ensures Contains(Join(lines, NL), p)
  {
    var i := JoinContains(kept, p);
    assert kept[i] in lines;
    var j: nat :| j < |lines| && lines[j] == kept[i];
    ContainsJoin(lines, p, j);
  }

  // ----- runs of three newlines -----

  const TRIPLE: string := [NL, NL, NL]

  predicate StartsTriple(s: string) {
    |s| >= 3 && s[0] == NL && s[1] == NL && s[2] == NL
  }

  lemma TripleAt(s: string, i: nat)
    requires i <= |s|
    ensures At(s, TRIPLE, i) <==> StartsTriple(s[i..])
  {
    if At(s, TRIPLE, i) {
      assert forall k :: 0 <= k < 3 ==> s[i..i + 3][k] == TRIPLE[k];
    }
    if StartsTriple(s[i..]) {
      assert s[i] == s[i..][0] && s[i + 1] == s[i..][1] && s[i + 2] == s[i..][2];
      assert s[i..i + 3] == TRIPLE;
    }
  }

  // strings.ReplaceAll(s, "\n\n\n", "\n\n")
  function Collapse(s: string): string {
    if s == "" then ""
    else if StartsTriple(s) then [NL, NL] + Collapse(s[3..])
    else [s[0]] + Collapse(s[1..])
  }

  lemma {:induction false} CollapseShrinks(s: string)
    ensures |Collapse(s)| <= |s|
    ensures Contains(s, TRIPLE) ==> |Collapse(s)| < |s|
    ensures !Contains(s, TRIPLE) ==> Collapse(s) == s
  {
    if s == "" {
      NotInEmpty(TRIPLE);
    } else {
      TripleAt(s, 0);
      assert s[0..] == s;
      if StartsTriple(s) {
        CollapseShrinks(s[3..]);
      } else {
        CollapseShrinks(s[1..]);
        assert s == [s[0]] + s[1..];
        TripleAfterFirst(s);
      }
    }
  }

  lemma TripleAfterFirst(s: string)
    requires s != "" && !At(s, TRIPLE, 0)
    ensures Contains(s, TRIPLE) <==> Contains(s[1..], TRIPLE)
  {
    if i :| At(s, TRIPLE, i) {
      AtMoved(s[1..], s, TRIPLE, i, -1);
    }
    if Contains(s[1..], TRIPLE) {
      assert s[1..|s|] == s[1..];
      SubstringContains(s, 1, |s|, TRIPLE);
    }
  }

  // Collapsing behind any front brings no newline-free pattern in.
  lemma {:induction false} CollapseContains(front: string, s: string, p: string)
    requires NL !in p && Contains(front + Collapse(s), p)
    ensures Contains(front + s, p)
    decreases |s|
  {
    if s == "" {
    } else if StartsTriple(s) {
      assert front + ([NL, NL] + Collapse(s[3..])) == front + [NL, NL] + Collapse(s[3..]);
      CollapseContains(front + [NL, NL], s[3..], p);
      var t := front + s;
      assert t[..|front|] + t[|front| + 1..] == front + [NL, NL] + s[3..];
      CutContains(t, |front|, |front| + 1, p);
    } else {
      assert front + ([s[0]] + Collapse(s[1..])) == front + [s[0]] + Collapse(s[1..]);
      CollapseContains(front + [s[0]], s[1..], p);
      assert front + [s[0]] + s[1..] == front + s;
    }
  }

  function CollapseAll(s: string): string
    decreases |s|
  {
    CollapseShrinks(s);
    IndexFinds(s, TRIPLE);
    if Index(s, TRIPLE) >= 0 then CollapseAll(Collapse(s)) else s
  }

  lemma {:induction false} CollapseAllEnds(s: string)
    ensures !Contains(CollapseAll(s), TRIPLE) && |CollapseAll(s)| <= |s|
    ensures if Contains(s, TRIPLE) then |CollapseAll(s)| < |s| else CollapseAll(s) == s
    decreases |s|
  {
    CollapseShrinks(s);
    IndexFinds(s, TRIPLE);
    if Index(s, TRIPLE) >= 0 {
      CollapseAllEnds(Collapse(s));
    }
  }

  lemma {:induction false} CollapseAllContains(s: string, p: string)
    requires NL !in p && Contains(CollapseAll(s), p)
    ensures Contains(s, p)
    decreases |s|
  {
    CollapseShrinks(s);
    IndexFinds(s, TRIPLE);
    if Index(s, TRIPLE) >= 0 {
      CollapseAllContains(Collapse(s), p);
      assert "" + Collapse(s) == Collapse(s) && "" + s == s;
      CollapseContains("", s, p);
    }
  }

  // The text with every newline left out that two newlines precede; n newlines went before.
  function Squeezed(s: string, n: nat): string {
    if s == "" then ""
    else if s[0] == NL then (if n >= 2 then Squeezed(s[1..], n) else [NL] + Squeezed(s[1..], n + 1))
    else [s[0]] + Squeezed(s[1..], 0)
  }

  lemma OneNewline(t: string, n: nat)
    ensures Squeezed([NL] + t, n) == if n >= 2 then Squeezed(t, n) else [NL] + Squeezed(t, n + 1)
  {
    assert ([NL] + t)[1..] == t;
  }

  // Two newlines or more come out as the two, less those that went before.
  lemma TwoNewlines(t: string, n: nat)
    requires n <= 2
    ensures Squeezed([NL, NL] + t, n) == (if n == 0 then [NL, NL] else if n == 1 then [NL] else "") + Squeezed(t, 2)
  {
    assert [NL] + ([NL] + t) == [NL, NL] + t;
    OneNewline([NL] + t, n);
    OneNewline(t, if n >= 2 then n else n + 1);
    assert [NL] + ([NL] + Squeezed(t, 2)) == [NL, NL] + Squeezed(t, 2);
  }

  lemma ThreeNewlines(t: string, n: nat)
    requires n <= 2
    ensures Squeezed([NL, NL, NL] + t, n) == Squeezed([NL, NL] + t, n)
  {
    assert [NL, NL] + ([NL] + t) == [NL, NL, NL] + t;
    TwoNewlines([NL] + t, n);
    TwoNewlines(t, n);
    OneNewline(t, 2);
  }

  // One round of replacements does not show in the squeezed text.
  lemma {:induction false} CollapseSqueezes(s: string, n: nat)
    requires n <= 2
    ensures Squeezed(Collapse(s), n) == Squeezed(s, n)
  {
    if s == "" {
    } else if StartsTriple(s) {
      assert s == [NL, NL, NL] + s[3..];
      CollapseSqueezes(s[3..], 2);
      ThreeNewlines(s[3..], n);
      TwoNewlines(Collapse(s[3..]), n);
      TwoNewlines(s[3..], n);
    } else {
      var c := Collapse(s[1..]);
      assert ([s[0]] + c)[1..] == c;
      CollapseSqueezes(s[1..], if s[0] != NL then 0 else if n >= 2 then n else n + 1);
    }
  }

  // With no three newlines in a row, and not n before them either, nothing is left out.
  lemma {:induction false} SqueezedStays(s: string, n: nat)
    requires n <= 2 && !Contains(s, TRIPLE)
    requires n >= 1 ==> !(|s| >= 3 - n && forall i :: 0 <= i < 3 - n ==> s[i] == NL)
    ensures Squeezed(s, n) == s
  {
    if s != "" {
      TripleAt(s, 0);
      assert s[0..] == s;
      TripleAfterFirst(s);
      assert s == [s[0]] + s[1..];
      if s[0] != NL {
        SqueezedStays(s[1..], 0);
      } else {
        SqueezedStays(s[1..], n + 1);
      }
    }
  }

  // Collapsing leaves out exactly the newlines that two newlines precede.
  lemma {:induction false} CollapseAllSqueezes(s: string)
    ensures CollapseAll(s) == Squeezed(s, 0)
    decreases |s|
  {
    CollapseShrinks(s);
    IndexFinds(s, TRIPLE);
    if Index(s, TRIPLE) >= 0 {
      CollapseAllSqueezes(Collapse(s));
      CollapseSqueezes(s, 0);
    } else {
      SqueezedStays(s, 0);
    }
  }

  // ----- strings.TrimSpace -----

  lemma TrimIsSubstring(s: string) returns (a: int, b: int)
    ensures 0 <= a <= b <= |s| && TrimSpace(s) == s[a..b]
  {
    a := |s| - |TrimLeftSpace(s)|;
    b := a + |TrimSpace(s)|;
  }

  lemma TrimContains(s: string, p: string)
    requires Contains(TrimSpace(s), p)
    ensures Contains(s, p)
  {
    var a, b := TrimIsSubstring(s);
    SubstringContains(s, a, b, p);
  }

  lemma TrimShrinks(s: string)
    ensures Trimmed(TrimSpace(s)) && |TrimSpace(s)| <= |s|
    ensures if Trimmed(s) then TrimSpace(s) == s else |TrimSpace(s)| < |s|
  {
    var a, b := TrimIsSubstring(s);
    TrimSpaceTrims(s);
    if b - a == |s| {
      assert s[a..b] == s;
    }
  }
}
