// The functions of Go's strings package the modelled code calls, on sequences of
// characters, with the facts about them the proofs use.
module Text {

  // unicode.IsSpace
  predicate IsSpace(c: char) {
    c == '\t' || c == '\n' || c == '\U{0B}' || c == '\U{0C}' || c == '\r' || c == ' ' ||
    c == '\U{85}' || c == '\U{A0}' || c == '\U{1680}' || ('\U{2000}' <= c <= '\U{200A}') ||
    c == '\U{2028}' || c == '\U{2029}' || c == '\U{202F}' || c == '\U{205F}' || c == '\U{3000}'
  }

  function TrimLeftSpace(s: string): (r: string)
    ensures |r| <= |s| && r == s[|s| - |r|..]
    ensures r != "" ==> !IsSpace(r[0])
  {
    if s != "" && IsSpace(s[0]) then TrimLeftSpace(s[1..]) else s
  }

  function TrimRightSpace(s: string): (r: string)
    ensures |r| <= |s| && r == s[..|r|]
    ensures r != "" ==> !IsSpace(r[|r| - 1])
  {
    if s != "" && IsSpace(s[|s| - 1]) then TrimRightSpace(s[..|s| - 1]) else s
  }

  function TrimSpace(s: string): string {
    TrimRightSpace(TrimLeftSpace(s))
  }

  predicate Trimmed(s: string) {
    s == "" || (!IsSpace(s[0]) && !IsSpace(s[|s| - 1]))
  }

  lemma TrimSpaceTrims(s: string)
    ensures Trimmed(TrimSpace(s))
    ensures Trimmed(s) ==> TrimSpace(s) == s
  {
  }

  // s[i..] starts with p
  predicate At(s: string, p: string, i: int) {
    0 <= i && i + |p| <= |s| && s[i..i + |p|] == p
  }

  predicate HasPrefix(s: string, p: string) {
    At(s, p, 0)
  }

  ghost predicate Contains(s: string, p: string) {
    exists i :: At(s, p, i)
  }

  // strings.Index from position i on
  function IndexFrom(s: string, p: string, i: nat): (r: int)
    ensures r == -1 || (i <= r && At(s, p, r))
    decreases |s| - i
  {
    if i + |p| > |s| then -1
    else if At(s, p, i) then i
    else IndexFrom(s, p, i + 1)
  }

  function Index(s: string, p: string): (r: int)
    ensures r == -1 || At(s, p, r)
  {
    IndexFrom(s, p, 0)
  }

  lemma {:induction false} IndexFromIsFirst(s: string, p: string, i: nat, j: int)
    requires i <= j && At(s, p, j)
    ensures i <= IndexFrom(s, p, i) <= j
    decreases |s| - i
  {
    if !At(s, p, i) {
      IndexFromIsFirst(s, p, i + 1, j);
    }
  }

  lemma IndexFinds(s: string, p: string)
    ensures Index(s, p) >= 0 <==> Contains(s, p)
  {
    if i :| At(s, p, i) {
      IndexFromIsFirst(s, p, 0, i);
    }
  }

  // strings.LastIndex of a single character before position n
  function LastIndexOf(s: string, c: char, n: nat): (r: int)
    requires n <= |s|
    ensures -1 <= r < n && (r >= 0 ==> s[r] == c)
    ensures forall j :: r < j < n ==> s[j] != c
  {
    if n == 0 then -1 else if s[n - 1] == c then n - 1 else LastIndexOf(s, c, n - 1)
  }

  // strings.Index of a single character from position n on
  function IndexOf(s: string, c: char, n: nat): (r: int)
    requires n <= |s|
    ensures r == -1 || (n <= r < |s| && s[r] == c)
    ensures forall j :: n <= j < (if r < 0 then |s| else r) ==> s[j] != c
    decreases |s| - n
  {
    if n == |s| then -1 else if s[n] == c then n else IndexOf(s, c, n + 1)
  }

  // strings.ToLower, for ASCII letters
  function LowerChar(c: char): char {
    if 'A' <= c <= 'Z' then (c as int + 32) as char else c
  }

  function ToLower(s: string): (r: string)
    ensures |r| == |s|
  {
    seq(|s|, i requires 0 <= i < |s| => LowerChar(s[i]))
  }

  // ----- strings.Split and strings.Join on one separator character -----

  function Split(s: string, c: char): (parts: seq<string>)
    ensures |parts| >= 1
  {
    if s == "" then [""]
    else
      var rest := Split(s[1..], c);
      if s[0] == c then [""] + rest else [[s[0]] + rest[0]] + rest[1..]
  }

  function Join(parts: seq<string>, c: char): string {
    if |parts| == 0 then ""
    else if |parts| == 1 then parts[0]
    else parts[0] + [c] + Join(parts[1..], c)
  }

  ghost predicate Separated(parts: seq<string>, c: char) {
    forall i :: 0 <= i < |parts| ==> c !in parts[i]
  }

  lemma {:induction false} SplitSeparates(s: string, c: char)
    ensures Separated(Split(s, c), c)
  {
    if s != "" {
      SplitSeparates(s[1..], c);
    }
  }

  lemma {:induction false} JoinSplit(s: string, c: char)
    ensures Join(Split(s, c), c) == s
  {
    if s != "" {
      var rest := Split(s[1..], c);
      JoinSplit(s[1..], c);
      assert s == [s[0]] + s[1..];
      if s[0] == c {
        assert ([""] + rest)[1..] == rest;
        assert "" + [c] + Join(rest, c) == [c] + Join(rest, c);
      } else {
        var parts := [[s[0]] + rest[0]] + rest[1..];
        assert parts[1..] == rest[1..];
        if |rest| > 1 {
          assert [s[0]] + rest[0] + [c] + Join(rest[1..], c) == [s[0]] + (rest[0] + [c] + Join(rest[1..], c));
        }
      }
    }
  }

  lemma {:induction false} SplitNone(s: string, c: char)
    requires c !in s
    ensures Split(s, c) == [s]
  {
    if s != "" {
      SplitNone(s[1..], c);
      assert s == [s[0]] + s[1..];
    }
  }

  lemma {:induction false} SplitCons(head: string, tail: string, c: char)
    requires c !in head
    ensures Split(head + [c] + tail, c) == [head] + Split(tail, c)
  {
    var s := head + [c] + tail;
    if head == "" {
      assert s == [c] + tail && s[1..] == tail;
    } else {
      assert s[1..] == head[1..] + [c] + tail;
      SplitCons(head[1..], tail, c);
      assert head == [head[0]] + head[1..];
      var rest := [head[1..]] + Split(tail, c);
      assert rest[1..] == Split(tail, c);
    }
  }

  lemma {:induction false} SplitJoin(parts: seq<string>, c: char)
    requires |parts| > 0 && Separated(parts, c)
    ensures Split(Join(parts, c), c) == parts
  {
    if |parts| == 1 {
      SplitNone(parts[0], c);
    } else {
      SplitJoin(parts[1..], c);
      SplitCons(parts[0], Join(parts[1..], c), c);
    }
  }

  // The parts of a text with one more character in front.
  function Prepended(x: char, c: char, parts: seq<string>): seq<string>
    requires parts != []
  {
    if x == c then [""] + parts else [[x] + parts[0]] + parts[1..]
  }

  lemma SplitPrepended(x: char, s: string, c: char)
    ensures Split([x] + s, c) == Prepended(x, c, Split(s, c))
  {
    assert ([x] + s)[1..] == s;
  }

  lemma PrependedConcat(x: char, c: char, p: seq<string>, q: seq<string>)
    requires p != []
    ensures Prepended(x, c, p + q) == Prepended(x, c, p) + q
  {
  }

  lemma {:induction false} SplitConcat(a: string, b: string, c: char)
    ensures Split(a + [c] + b, c) == Split(a, c) + Split(b, c)
  {
    if a == "" {
      assert a + [c] + b == [c] + b;
      SplitPrepended(c, b, c);
    } else {
      SplitConcat(a[1..], b, c);
      PrependedConcat(a[0], c, Split(a[1..], c), Split(b, c));
      SplitPrepended(a[0], a[1..], c);
      SplitPrepended(a[0], a[1..] + [c] + b, c);
      assert [a[0]] + a[1..] == a;
      assert [a[0]] + (a[1..] + [c] + b) == a + [c] + b;
    }
  }

  // Text without the separator goes to the last part.
  function Appended(parts: seq<string>, d: string): seq<string>
    requires parts != []
  {
    parts[..|parts| - 1] + [parts[|parts| - 1] + d]
  }

  lemma AppendedKeepsHead(head: string, parts: seq<string>, d: string)
    requires parts != []
    ensures Appended([head] + parts, d) == [head] + Appended(parts, d)
  {
  }

  lemma PrependedAppended(x: char, c: char, parts: seq<string>, d: string)
    requires parts != []
    ensures Prepended(x, c, Appended(parts, d)) == Appended(Prepended(x, c, parts), d)
  {
    if x == c {
      AppendedKeepsHead("", parts, d);
    } else if |parts| == 1 {
      assert [x] + (parts[0] + d) == [x] + parts[0] + d;
    } else {
      AppendedKeepsHead(parts[0], parts[1..], d);
      AppendedKeepsHead([x] + parts[0], parts[1..], d);
      assert [parts[0]] + parts[1..] == parts;
    }
  }

  lemma {:induction false} SplitAppended(s: string, d: string, c: char)
    requires c !in d
    ensures Split(s + d, c) == Appended(Split(s, c), d)
  {
    if s == "" {
      assert "" + d == d;
      SplitNone(d, c);
    } else {
      assert [s[0]] + s[1..] == s && [s[0]] + (s[1..] + d) == s + d;
      SplitAppended(s[1..], d, c);
      SplitPrepended(s[0], s[1..], c);
      SplitPrepended(s[0], s[1..] + d, c);
      PrependedAppended(s[0], c, Split(s[1..], c), d);
    }
  }

  // There is one part exactly when there is no separator.
  lemma {:induction false} OnePartIff(s: string, c: char)
    ensures |Split(s, c)| == 1 <==> c !in s
  {
    if s != "" {
      OnePartIff(s[1..], c);
      assert [s[0]] + s[1..] == s;
    }
  }

  // ----- putting texts one behind the other -----

  function Concat(parts: seq<string>): string {
    if parts == [] then "" else Concat(parts[..|parts| - 1]) + parts[|parts| - 1]
  }

  lemma ThreeTexts(a: string, b: string, c: string)
    ensures a + b + c == a + (b + c)
  {
  }

  lemma {:induction false} ConcatSplit(a: seq<string>, b: seq<string>)
    ensures Concat(a + b) == Concat(a) + Concat(b)
  {
    if b == [] {
      assert a + b == a && Concat(a) + "" == Concat(a);
    } else {
      var n := |b| - 1;
      assert (a + b)[..|a| + n] == a + b[..n];
      ConcatSplit(a, b[..n]);
      ThreeTexts(Concat(a), Concat(b[..n]), b[n]);
    }
  }

  lemma ConcatFront(a: string, rest: seq<string>)
    ensures Concat([a] + rest) == a + Concat(rest)
  {
    ConcatSplit([a], rest);
    assert [a][..0] == [] && "" + a == a;
  }
}
