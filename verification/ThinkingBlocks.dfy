// What cleaning keeps: the text around a tagged block, the text before a function marker,
// and the lines around a paragraph of reasoning (internal/ai/patrol_ai.go:66-207).
module ThinkingBlocks {
  import opened Text
  import opened TextEdits
  import opened ThinkingTokens
  import opened ThinkingTokensRuns

  // p stands at i, and nowhere before.
  ghost predicate FirstAt(s: string, p: string, i: int) {
    At(s, p, i) && forall j :: 0 <= j < i ==> !At(s, p, j)
  }

  lemma IndexIsFirst(s: string, p: string, i: int)
    requires FirstAt(s, p, i)
    ensures Index(s, p) == i
  {
    IndexFromIsFirst(s, p, 0, i);
  }

  // ----- tagged blocks -----

  lemma LowerBehind(a: string, b: string)
    ensures ToLower(a + b) == ToLower(a) + ToLower(b)
    ensures ToLower(a + b)[|a|..] == ToLower(b)
  {
  }

  lemma BlockParts(a: string, o: string, x: string, c: string, b: string)
    ensures var s := a + o + x + c + b;
      s[..|a|] == a && s[|a| + |o|..] == x + c + b && s[|a| + |o| + |x| + |c|..] == b
  {
  }

  lemma WithoutClosedBlock(tag: BlockTag, a: string, o: string, x: string, c: string, b: string)
    requires |o| == |tag.open| && |c| == |tag.close| && FirstAt(ToLower(x + c + b), tag.close, |x|)
    ensures var s := a + o + x + c + b; WithoutBlock(tag, s, ToLower(s), |a|) == a + b
  {
    var s := a + o + x + c + b;
    BlockParts(a, o, x, c, b);
    LowerBehind(a + o, x + c + b);
    assert a + o + (x + c + b) == s;
    IndexIsFirst(ToLower(x + c + b), tag.close, |x|);
  }

  // The first block of a tag goes, from its opening tag to the first closing tag behind, and
  // the text on both sides stays for the blocks behind it.
  lemma ClosedBlockGoes(tag: BlockTag, a: string, o: string, x: string, c: string, b: string)
    requires tag.open != "" && |o| == |tag.open| && |c| == |tag.close|
    requires FirstAt(ToLower(a + o + x + c + b), tag.open, |a|) && FirstAt(ToLower(x + c + b), tag.close, |x|)
    ensures RemoveBlocks(tag, a + o + x + c + b) == RemoveBlocks(tag, a + b)
  {
    IndexIsFirst(ToLower(a + o + x + c + b), tag.open, |a|);
    WithoutClosedBlock(tag, a, o, x, c, b);
  }

  lemma NotBefore(a: string, rest: string, p: string)
    requires p != "" && FirstAt(ToLower(a + rest), p, |a|)
    ensures !Contains(ToLower(a), p)
  {
    if i :| At(ToLower(a), p, i) {
      AtMoved(ToLower(a + rest), ToLower(a), p, i, 0);
    }
  }

  // A block that is never closed takes all the rest with it, and nothing before it.
  lemma OpenBlockTakesTheRest(tag: BlockTag, a: string, o: string, rest: string)
    requires tag.open != "" && |o| == |tag.open|
    requires FirstAt(ToLower(a + o + rest), tag.open, |a|) && !Contains(ToLower(rest), tag.close)
    ensures RemoveBlocks(tag, a + o + rest) == a
  {
    var s := a + o + rest;
    IndexIsFirst(ToLower(s), tag.open, |a|);
    LowerBehind(a + o, rest);
    IndexFinds(ToLower(rest), tag.close);
    assert WithoutBlock(tag, s, ToLower(s), |a|) == a;
    assert a + (o + rest) == s;
    NotBefore(a, o + rest, tag.open);
    RemoveBlocksRemoves(tag, a);
  }

  // ----- patterns that start with an angle bracket and have no other -----

  predicate Bracketed(p: string) {
    |p| > 1 && p[0] == '<' && (forall i :: 0 < i < |p| ==> p[i] != '<') && !IsSpace(p[|p| - 1])
  }

  lemma BracketAt(s: string, p: string, i: int)
    requires At(s, p, i) && Bracketed(p)
    ensures s[i] == '<' && forall k :: i < k < i + |p| ==> s[k] != '<'
    ensures !IsSpace(s[i + |p| - 1])
  {
    assert forall k :: i <= k < i + |p| ==> s[k] == s[i..i + |p|][k - i];
  }

  // ----- function markers -----

  // No marker of the list begins in s before place n.
  ghost predicate NoneBegins(ms: seq<string>, s: string, n: nat) {
    forall k, j :: 0 <= k < |ms| && 0 <= j < n ==> !At(s, ms[k], j)
  }

  lemma {:induction false} TrimLeftDrops(s: string, l: nat)
    requires l <= |s| && forall i :: 0 <= i < l ==> IsSpace(s[i])
    ensures TrimLeftSpace(s) == TrimLeftSpace(s[l..])
  {
    if l > 0 {
      TrimLeftDrops(s[1..], l - 1);
      assert s[1..][l - 1..] == s[l..];
    } else {
      assert s[0..] == s;
    }
  }

  lemma {:induction false} LeftSpaces(s: string)
    ensures forall i :: 0 <= i < |s| - |TrimLeftSpace(s)| ==> IsSpace(s[i])
  {
    if s != "" && IsSpace(s[0]) {
      LeftSpaces(s[1..]);
    }
  }

  lemma {:induction false} RightSpaces(s: string)
    ensures forall i :: |TrimRightSpace(s)| <= i < |s| ==> IsSpace(s[i])
  {
    if s != "" && IsSpace(s[|s| - 1]) {
      RightSpaces(s[..|s| - 1]);
    }
  }

  // How much white space the text starts with.
  function Lead(s: string): (l: nat)
    ensures l <= |s|
  {
    |s| - |TrimLeftSpace(s)|
  }

  lemma SpacesBehind(s: string, l: nat, e: nat)
    requires l <= e <= |s| && forall i :: e - l <= i < |s| - l ==> IsSpace(s[l..][i])
    ensures forall i :: e <= i < |s| ==> IsSpace(s[i])
  {
    forall i | e <= i < |s| ensures IsSpace(s[i]) {
      assert s[i] == s[l..][i - l];
    }
  }

  lemma TrimmedSlice(s: string, l: nat, n: nat)
    requires l <= |s| && TrimLeftSpace(s) == s[l..] && n == |TrimSpace(s)|
    ensures l + n <= |s| && TrimSpace(s) == s[l..l + n]
  {
  }

  // Trimming cuts off white space at both ends, and that only.
  lemma TrimMeans(s: string) returns (l: nat, e: nat)
    ensures l == Lead(s) && l <= e <= |s| && TrimSpace(s) == s[l..e]
    ensures (forall i :: 0 <= i < l ==> IsSpace(s[i])) && (forall i :: e <= i < |s| ==> IsSpace(s[i]))
  {
    LeftSpaces(s);
    RightSpaces(TrimLeftSpace(s));
    l := Lead(s);
    e := l + |TrimSpace(s)|;
    TrimmedSlice(s, l, |TrimSpace(s)|);
    SpacesBehind(s, l, e);
  }

  lemma TrimAgain(s: string, p: nat, l: nat, k: nat)
    requires p <= |s| && l <= k <= p && forall i :: 0 <= i < l ==> IsSpace(s[i])
    ensures TrimSpace(s[l..k]) == TrimSpace(s[..k])
  {
    TrimLeftDrops(s[..k], l);
    assert s[..k][l..] == s[l..k];
  }

  lemma SliceOfStart(s: string, p: nat, l: nat, e: nat)
    requires l <= e <= p <= |s|
    ensures s[..p][l..e] == s[l..e]
  {
  }

  lemma FoundInside(s: string, l: nat, e: nat, m: string, j: int)
    requires l <= e <= |s| && At(s[l..e], m, j)
    ensures 0 <= j && l + j + |m| <= e && At(s, m, l + j) && s[l..e][..j] == s[l..l + j]
  {
    AtMoved(s, s[l..e], m, j, l);
  }

  lemma CutInside(s: string, l: nat, e: nat, r: string, m: string, j: int)
    requires l <= e <= |s| && r == s[l..e] && At(r, m, j) && forall i :: 0 <= i < l ==> IsSpace(s[i])
    ensures 0 <= j && l + j + |m| <= e && At(s, m, l + j) && TrimSpace(r[..j]) == TrimSpace(s[..l + j])
  {
    FoundInside(s, l, e, m, j);
    TrimAgain(s, |s|, l, l + j);
  }

  lemma TrimmedPart(s: string, p: nat, r: string) returns (l: nat, e: nat)
    requires p <= |s| && r == TrimSpace(s[..p])
    ensures l == Lead(s[..p]) && l <= e <= p && r == s[l..e]
    ensures (forall i :: 0 <= i < l ==> IsSpace(s[i])) && (forall i :: e <= i < p ==> IsSpace(s[i]))
  {
    l, e := TrimMeans(s[..p]);
    SliceOfStart(s, p, l, e);
    forall i | 0 <= i < l || e <= i < p ensures IsSpace(s[i]) {
      assert s[i] == s[..p][i];
    }
  }

  // One marker's turn, with the marker found at j of what is left.
  lemma CutFurther(s: string, p: nat, r: string, m: string, j: int) returns (k: nat)
    requires p <= |s| && r == TrimSpace(s[..p]) && At(r, m, j)
    ensures 0 <= j && k == Lead(s[..p]) + j && k + |m| <= p && At(s, m, k) && TrimSpace(r[..j]) == TrimSpace(s[..k])
  {
    var l, e := TrimmedPart(s, p, r);
    CutInside(s, l, e, r, m, j);
    k := l + j;
  }

  lemma KeptInside(s: string, l: nat, e: nat, m: string, n: nat)
    requires l <= e <= |s| && At(s, m, n) && l <= n && n + |m| <= e
    ensures At(s[l..e], m, n - l)
  {
    AtMoved(s[l..e], s, m, n, 0 - l);
  }

  lemma WithinTheTrimmed(s: string, p: nat, l: nat, e: nat, m: string, n: nat)
    requires Bracketed(m) && At(s, m, n) && n + |m| <= p <= |s| && l <= e <= p
    requires (forall i :: 0 <= i < l ==> IsSpace(s[i])) && (forall i :: e <= i < p ==> IsSpace(s[i]))
    ensures l <= n && n + |m| <= e
  {
    BracketAt(s, m, n);
  }

  // A bracketed marker at n is still there after cuts at other such markers behind it.
  lemma MarkerIsLeft(s: string, p: nat, r: string, m: string, n: nat) returns (j: nat)
    requires Bracketed(m) && At(s, m, n) && n < p <= |s| && (p == |s| || s[p] == '<') && r == TrimSpace(s[..p])
    ensures j + Lead(s[..p]) == n && At(r, m, j)
  {
    BracketAt(s, m, n);
    assert n + |m| <= p;
    var l, e := TrimmedPart(s, p, r);
    WithinTheTrimmed(s, p, l, e, m, n);
    KeptInside(s, l, e, m, n);
    j := n - l;
  }

  // What the cuts have left is all of s, or its trimmed start up to another bracket.
  ghost predicate CutAtBracket(r: string, s: string, n: nat) {
    r == s || exists p: nat :: n <= p < |s| && s[p] == '<' && r == TrimSpace(s[..p])
  }

  lemma CutAtFirst(s: string, r: string, m: string, n: nat)
    requires Bracketed(m) && CutAtBracket(r, s, n) && forall j :: 0 <= j < n ==> !At(s, m, j)
    ensures CutAtBracket(CutAt(m, r), s, n)
    ensures At(s, m, n) ==> CutAt(m, r) == TrimSpace(s[..n])
  {
    var j := Index(r, m);
    if r == s {
      if j >= 0 {
        BracketAt(s, m, j);
      }
      if At(s, m, n) {
        IndexIsFirst(s, m, n);
      }
    } else {
      var p: nat :| n <= p < |s| && s[p] == '<' && r == TrimSpace(s[..p]);
      if j >= 0 {
        var k := CutFurther(s, p, r, m, j);
        BracketAt(s, m, k);
      }
      if At(s, m, n) {
        LeftOfTheFirst(s, p, r, m, n);
      }
    }
  }

  lemma FirstIsLeft(s: string, p: nat, r: string, m: string, n: nat)
    requires Bracketed(m) && At(s, m, n) && (forall j :: 0 <= j < n ==> !At(s, m, j))
    requires n < p < |s| && s[p] == '<' && r == TrimSpace(s[..p])
    ensures CutAt(m, r) == TrimSpace(s[..n])
  {
    var i := MarkerIsLeft(s, p, r, m, n);
    var j := FirstIndex(r, m, i);
    var k := CutFurther(s, p, r, m, j);
    SamePlace(s, m, n, i, j, k, Lead(s[..p]));
    CutAtIs(m, r, j, TrimSpace(s[..n]));
  }

  lemma FirstIndex(r: string, m: string, i: int) returns (j: int)
    requires At(r, m, i)
    ensures j == Index(r, m) && 0 <= j <= i && At(r, m, j)
  {
    IndexFromIsFirst(r, m, 0, i);
    j := Index(r, m);
  }

  lemma SamePlace(s: string, m: string, n: nat, i: int, j: int, k: int, lead: nat)
    requires (forall x :: 0 <= x < n ==> !At(s, m, x)) && At(s, m, k)
    requires 0 <= j <= i && i + lead == n && k == lead + j
    ensures k == n
  {
  }

  lemma CutAtIs(m: string, r: string, j: int, t: string)
    requires j == Index(r, m) && 0 <= j <= |r| && TrimSpace(r[..j]) == t
    ensures CutAt(m, r) == t
  {
  }

  lemma NoneIsLeft(s: string, p: nat, r: string, m: string)
    requires p <= |s| && (forall j :: 0 <= j < p ==> !At(s, m, j)) && m != "" && r == TrimSpace(s[..p])
    ensures CutAt(m, r) == r
  {
    if Index(r, m) >= 0 {
      var k := CutFurther(s, p, r, m, Index(r, m));
    }
  }

  lemma LeftOfTheFirst(s: string, p: nat, r: string, m: string, n: nat)
    requires Bracketed(m) && At(s, m, n) && (forall j :: 0 <= j < n ==> !At(s, m, j))
    requires n <= p < |s| && s[p] == '<' && r == TrimSpace(s[..p])
    ensures CutAt(m, r) == TrimSpace(s[..n])
  {
    if n < p {
      FirstIsLeft(s, p, r, m, n);
    } else {
      NoneIsLeft(s, p, r, m);
    }
  }

  predicate AllBracketed(ms: seq<string>) {
    forall k :: 0 <= k < |ms| ==> Bracketed(ms[k])
  }

  ghost predicate SomeAt(ms: seq<string>, s: string, n: int) {
    exists k :: 0 <= k < |ms| && At(s, ms[k], n)
  }

  lemma SomeAtAppend(front: seq<string>, last: string, s: string, n: int)
    ensures SomeAt(front + [last], s, n) <==> SomeAt(front, s, n) || At(s, last, n)
  {
    assert (front + [last])[|front|] == last;
    assert forall k :: 0 <= k < |front| ==> (front + [last])[k] == front[k];
  }

  lemma CutOneMore(last: string, s: string, r: string, n: nat, cut: bool)
    requires Bracketed(last) && n <= |s| && CutAtBracket(r, s, n) && (forall j :: 0 <= j < n ==> !At(s, last, j))
    requires cut ==> r == TrimSpace(s[..n])
    ensures CutAtBracket(CutAt(last, r), s, n)
    ensures cut || At(s, last, n) ==> CutAt(last, r) == TrimSpace(s[..n])
  {
    CutAtFirst(s, r, last, n);
    if cut {
      NoneIsLeft(s, n, r, last);
    }
  }

  lemma {:induction false} CutAllFromFirst(ms: seq<string>, s: string, n: nat)
    requires AllBracketed(ms) && NoneBegins(ms, s, n) && n <= |s|
    ensures CutAtBracket(CutAll(ms, s), s, n)
    ensures SomeAt(ms, s, n) ==> CutAll(ms, s) == TrimSpace(s[..n])
  {
    if ms != [] {
      var (front, last) := (ms[..|ms| - 1], ms[|ms| - 1]);
      CutAllFromFirst(front, s, n);
      CutOneMore(last, s, CutAll(front, s), n, SomeAt(front, s, n));
      SomeAtAppend(front, last, s, n);
      assert front + [last] == ms;
    }
  }

  // The text before the first function marker stays, whichever marker it is.
  lemma TextBeforeCallStays(ms: seq<string>, a: string, m: string, b: string)
    requires AllBracketed(ms) && m in ms && NoneBegins(ms, a + m + b, |a|)
    ensures CutAll(ms, a + m + b) == TrimSpace(a)
  {
    var s := a + m + b;
    var k :| 0 <= k < |ms| && ms[k] == m;
    assert At(s, ms[k], |a|) && s[..|a|] == a;
    CutAllFromFirst(ms, s, |a|);
  }

  // ----- the whole cleaning -----

  // Once nothing is cut and no block opens, a clean text goes through unchanged.
  lemma CleanRest(mk: Markup, y: string)
    requires Proper(mk) && IsClean(mk, y)
    ensures RemoveAllBlocks(mk.blocks, y) == y && Finished(mk, DropAll(mk.ends, y)) == y
  {
    RemoveAllBlocksSize(mk.blocks, y);
    DropAllDrops(mk.ends, y);
    FinishedEnds(mk, y);
  }

  // An occurrence that starts in the first text ends there, if the second starts with a
  // bracket.
  lemma BracketStopsAt(a: string, b: string, p: string, j: int)
    requires Bracketed(p) && At(a + b, p, j) && j < |a| && (b == "" || b[0] == '<')
    ensures j + |p| <= |a| && At(a, p, j)
  {
    BracketAt(a + b, p, j);
    assert b != "" ==> (a + b)[|a|] == '<';
    AtMoved(a, a + b, p, j, 0);
  }

  lemma NoneBeginsInClean(ms: seq<string>, a: string, b: string)
    requires AllBracketed(ms) && NoneIn(ms, a) && (b == "" || b[0] == '<')
    ensures NoneBegins(ms, a + b, |a|)
  {
    forall k, j | 0 <= k < |ms| && 0 <= j < |a| ensures !At(a + b, ms[k], j) {
      if At(a + b, ms[k], j) {
        BracketStopsAt(a, b, ms[k], j);
      }
    }
  }

  // A clean reply comes through whatever function call follows it.
  lemma ReplyBeforeCallStays(mk: Markup, y: string, m: string, b: string)
    requires Proper(mk) && AllBracketed(mk.functions) && IsClean(mk, y) && m in mk.functions
    ensures Cleaned(mk, y + m + b) == y
  {
    assert y + (m + b) == y + m + b;
    NoneBeginsInClean(mk.functions, y, m + b);
    TextBeforeCallStays(mk.functions, y, m, b);
    TrimSpaceTrims(y);
    CleanRest(mk, y);
  }

  lemma {:induction false} SameBlocks(tags: seq<BlockTag>, n: nat, s: string, t: string)
    requires NoneOpensEmpty(tags) && n <= |tags|
    requires RemoveAllBlocks(tags[..n], s) == RemoveAllBlocks(tags[..n], t)
    ensures RemoveAllBlocks(tags, s) == RemoveAllBlocks(tags, t)
  {
    if n == |tags| {
      assert tags[..n] == tags;
    } else {
      assert tags[..|tags| - 1][..n] == tags[..n];
      SameBlocks(tags[..|tags| - 1], n, s, t);
    }
  }

  lemma EarlierTagsAbsent(tags: seq<BlockTag>, k: nat, s: string)
    requires NoneOpensEmpty(tags) && k < |tags| && NoTags(tags[..k], s)
    ensures RemoveAllBlocks(tags[..k + 1], s) == RemoveBlocks(tags[k], s)
  {
    RemoveAllBlocksSize(tags[..k], s);
    assert tags[..k + 1][..k] == tags[..k];
  }

  // A reply with a tagged block is cleaned as it would be without the block.
  lemma BlockIsHidden(mk: Markup, k: nat, a: string, o: string, x: string, c: string, b: string)
    requires Proper(mk) && k < |mk.blocks| && |o| == |mk.blocks[k].open| && |c| == |mk.blocks[k].close|
    requires FirstAt(ToLower(a + o + x + c + b), mk.blocks[k].open, |a|) && FirstAt(ToLower(x + c + b), mk.blocks[k].close, |x|)
    requires NoneIn(mk.functions, a + o + x + c + b) && NoneIn(mk.functions, a + b)
    requires NoTags(mk.blocks[..k], a + o + x + c + b) && NoTags(mk.blocks[..k], a + b)
    ensures Cleaned(mk, a + o + x + c + b) == Cleaned(mk, a + b)
  {
    var s := a + o + x + c + b;
    CutAllCuts(mk.functions, s);
    CutAllCuts(mk.functions, a + b);
    EarlierTagsAbsent(mk.blocks, k, s);
    EarlierTagsAbsent(mk.blocks, k, a + b);
    ClosedBlockGoes(mk.blocks[k], a, o, x, c, b);
    SameBlocks(mk.blocks, k + 1, s, a + b);
    NothingIsClean(mk);
    assert s != "";
  }

  lemma NothingIsClean(mk: Markup)
    requires Proper(mk)
    ensures Finished(mk, DropAll(mk.ends, RemoveAllBlocks(mk.blocks, ""))) == "" && CutAll(mk.functions, "") == ""
  {
    EmptyIsClean(mk);
    CleanRest(mk, "");
    CutAllCuts(mk.functions, "");
  }

  // And with a block that is never closed, as if it ended before it.
  lemma OpenBlockHidesTheRest(mk: Markup, k: nat, y: string, o: string, rest: string)
    requires Proper(mk) && k < |mk.blocks| && |o| == |mk.blocks[k].open| && IsClean(mk, y)
    requires FirstAt(ToLower(y + o + rest), mk.blocks[k].open, |y|) && !Contains(ToLower(rest), mk.blocks[k].close)
    requires NoneIn(mk.functions, y + o + rest) && NoTags(mk.blocks[..k], y + o + rest)
    ensures Cleaned(mk, y + o + rest) == y
  {
    var s := y + o + rest;
    CutAllCuts(mk.functions, s);
    EarlierTagsAbsent(mk.blocks, k, s);
    OpenBlockTakesTheRest(mk.blocks[k], y, o, rest);
    RemoveBlocksRemoves(mk.blocks[k], y);
    assert NoTags(mk.blocks[..k], y);
    EarlierTagsAbsent(mk.blocks, k, y);
    SameBlocks(mk.blocks, k + 1, s, y);
    CleanRest(mk, y);
    assert s != "";
  }

  // ----- the tag "<think>" -----

  // In any case of its letters.
  predicate Spells(s: string, tag: string) {
    ToLower(s) == tag
  }

  lemma SpelledBracket(s: string, tag: string)
    requires Spells(s, tag) && |tag| > 1 && tag[0] == '<' && forall i :: 0 < i < |tag| ==> tag[i] != '<'
    ensures |s| == |tag| && s[0] == '<' && forall i :: 0 < i < |s| ==> s[i] != '<'
  {
    forall i | 0 <= i < |s| ensures LowerChar(s[i]) == tag[i] {
      assert ToLower(s)[i] == LowerChar(s[i]);
    }
  }

  // No function marker of the source can start at a think tag.
  predicate NoTagStart(m: string) {
    Bracketed(m) && |m| > 2 && LowerChar(m[1]) != 't' && (m[1] == '/' ==> LowerChar(m[2]) != 't')
  }

  lemma FunctionMarker(k: nat)
    requires k < 6
    ensures NoTagStart(THINKING.functions[k])
  {
    if k == 0 {
    } else if k == 1 {
    } else if k == 2 {
    } else if k == 3 {
    } else if k == 4 {
    }
  }

  lemma FunctionMarkers()
    ensures |THINKING.functions| == 6 && forall k :: 0 <= k < |THINKING.functions| ==> NoTagStart(THINKING.functions[k])
  {
    forall k: nat | k < 6 ensures NoTagStart(THINKING.functions[k]) {
      FunctionMarker(k);
    }
  }

  lemma MarkerNotAtTag(s: string, i: nat, tag: string, m: string)
    requires NoTagStart(m) && i + |tag| <= |s| && |tag| > 2
    requires Spells(s[i..i + |tag|], tag) && (tag[1] == 't' || (tag[1] == '/' && tag[2] == 't'))
    ensures !At(s, m, i)
  {
    var part := s[i..i + |tag|];
    assert ToLower(part)[1] == LowerChar(part[1]) && ToLower(part)[2] == LowerChar(part[2]);
    if At(s, m, i) {
      SameStart(s, m, i);
    }
  }

  lemma SameStart(s: string, m: string, i: int)
    requires At(s, m, i) && |m| > 2
    ensures s[i + 1] == m[1] && s[i + 2] == m[2]
  {
    assert s[i..i + |m|][1] == m[1] && s[i..i + |m|][2] == m[2];
  }

  lemma PlaceBehind(o: string, r: string, m: string, i: int)
    requires o != "" && (forall k :: 0 < k < |o| ==> o[k] != '<') && Bracketed(m) && At(o + r, m, i)
    ensures i == 0 || (i >= |o| && At(r, m, i - |o|))
  {
    BracketAt(o + r, m, i);
    if i >= |o| {
      AtMoved(r, o + r, m, i, 0 - |o|);
    } else {
      assert (o + r)[i] == o[i];
    }
  }

  // A marker in a text that starts with a tag is in what follows the tag.
  lemma NotAtTheTag(o: string, r: string, tag: string, m: string)
    requires Spells(o, tag) && Bracketed(tag) && |tag| > 2 && (tag[1] == 't' || (tag[1] == '/' && tag[2] == 't'))
    requires NoTagStart(m) && Contains(o + r, m)
    ensures Contains(r, m)
  {
    SpelledBracket(o, tag);
    var i :| At(o + r, m, i);
    PlaceBehind(o, r, m, i);
    assert (o + r)[0..|tag|] == o;
    MarkerNotAtTag(o + r, 0, tag, m);
  }

  // A marker in two texts of which the second starts with a bracket is in one of them.
  lemma InEither(x: string, r: string, m: string)
    requires Bracketed(m) && (r == "" || r[0] == '<') && Contains(x + r, m)
    ensures Contains(x, m) || Contains(r, m)
  {
    var i :| At(x + r, m, i);
    if i < |x| {
      BracketStopsAt(x, r, m, i);
    } else {
      AtMoved(r, x + r, m, i, 0 - |x|);
    }
  }

  const OPEN_THINK: string := "<think>"
  const CLOSE_THINK: string := "</think>"

  lemma ThinkTags()
    ensures Bracketed(OPEN_THINK) && Bracketed(CLOSE_THINK) && |THINKING.blocks| == 3
    ensures THINKING.blocks[0] == BlockTag(OPEN_THINK, CLOSE_THINK)
  {
  }

  lemma NoCallAround(o: string, x: string, c: string, y: string, m: string)
    requires Spells(o, OPEN_THINK) && Spells(c, CLOSE_THINK) && NoTagStart(m) && !Contains(x, m) && !Contains(y, m)
    ensures !Contains(o + (x + (c + y)), m)
  {
    ThinkTags();
    SpelledBracket(c, CLOSE_THINK);
    if Contains(o + (x + (c + y)), m) {
      NotAtTheTag(o, x + (c + y), OPEN_THINK, m);
      InEither(x, c + y, m);
      NotAtTheTag(c, y, CLOSE_THINK, m);
    }
  }

  lemma FirstClose(x: string, c: string, y: string)
    requires Spells(c, CLOSE_THINK) && !Contains(ToLower(x), CLOSE_THINK)
    ensures FirstAt(ToLower(x + (c + y)), CLOSE_THINK, |x|)
  {
    ThinkTags();
    LowerBehind(x, c + y);
    LowerBehind(c, y);
    var (front, back) := (ToLower(x), ToLower(c + y));
    forall j | 0 <= j < |x| ensures !At(front + back, CLOSE_THINK, j) {
      if At(front + back, CLOSE_THINK, j) {
        BracketStopsAt(front, back, CLOSE_THINK, j);
      }
    }
    assert back[..|c|] == CLOSE_THINK && (front + back)[|x|..|x| + |c|] == back[..|c|];
  }

  lemma FirstOpen(y: string, o: string, rest: string)
    requires Spells(o, OPEN_THINK) && !Contains(ToLower(y), OPEN_THINK)
    ensures FirstAt(ToLower(y + (o + rest)), OPEN_THINK, |y|)
  {
    ThinkTags();
    LowerBehind(y, o + rest);
    LowerBehind(o, rest);
    var (front, back) := (ToLower(y), ToLower(o + rest));
    forall j | 0 <= j < |y| ensures !At(front + back, OPEN_THINK, j) {
      if At(front + back, OPEN_THINK, j) {
        BracketStopsAt(front, back, OPEN_THINK, j);
      }
    }
    assert back[..|o|] == OPEN_THINK && (front + back)[|y|..|y| + |o|] == back[..|o|];
  }

  lemma Regrouped(o: string, x: string, c: string, y: string)
    ensures "" + o + x + c + y == o + x + c + y == o + (x + (c + y)) && x + c + y == x + (c + y) && "" + y == y
  {
  }

  // A clean reply behind a block of thinking is all that is left, whatever the thinking.
  lemma ThinkingIsHidden(o: string, x: string, c: string, y: string)
    requires Spells(o, OPEN_THINK) && Spells(c, CLOSE_THINK) && IsClean(THINKING, y)
    requires NoneIn(THINKING.functions, x) && !Contains(ToLower(x), CLOSE_THINK)
    ensures Proper(THINKING)
    ensures Cleaned(THINKING, o + x + c + y) == y
  {
    ThinkingIsProper();
    ThinkTags();
    FunctionMarkers();
    Regrouped(o, x, c, y);
    forall k | 0 <= k < |THINKING.functions| ensures !Contains(o + (x + (c + y)), THINKING.functions[k]) {
      NoCallAround(o, x, c, y, THINKING.functions[k]);
    }
    NotInEmpty(OPEN_THINK);
    FirstOpen("", o, x + (c + y));
    FirstClose(x, c, y);
    BlockIsHidden(THINKING, 0, "", o, x, c, y);
    LeftAloneIffClean(THINKING, y);
  }

  // A clean reply before thinking that is never closed is left as well.
  lemma UnclosedThinkingIsHidden(y: string, o: string, rest: string)
    requires Spells(o, OPEN_THINK) && IsClean(THINKING, y)
    requires NoneIn(THINKING.functions, rest) && !Contains(ToLower(rest), CLOSE_THINK)
    ensures Proper(THINKING)
    ensures Cleaned(THINKING, y + o + rest) == y
  {
    ThinkingIsProper();
    ThinkTags();
    FunctionMarkers();
    SpelledBracket(o, OPEN_THINK);
    assert y + (o + rest) == y + o + rest;
    forall k | 0 <= k < |THINKING.functions| ensures !Contains(y + (o + rest), THINKING.functions[k]) {
      if Contains(y + (o + rest), THINKING.functions[k]) {
        InEither(y, o + rest, THINKING.functions[k]);
        NotAtTheTag(o, rest, OPEN_THINK, THINKING.functions[k]);
      }
    }
    assert !Contains(ToLower(y), THINKING.blocks[0].open);
    FirstOpen(y, o, rest);
    OpenBlockHidesTheRest(THINKING, 0, y, o, rest);
  }

  // And a clean reply before a function call of the model.
  lemma FunctionCallIsHidden(y: string, m: string, b: string)
    requires IsClean(THINKING, y) && m in THINKING.functions
    ensures Proper(THINKING)
    ensures Cleaned(THINKING, y + m + b) == y
  {
    ThinkingIsProper();
    FunctionMarkers();
    ReplyBeforeCallStays(THINKING, y, m, b);
  }
}
