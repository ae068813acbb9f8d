// Cleaning a model's thinking markup out of its reply (internal/ai/patrol_ai.go:54-207).
// The markers and prefixes the source lists are fields of a Markup; THINKING has them.
module ThinkingTokens {
  import opened Text
  import opened TextEdits

  datatype BlockTag = BlockTag(open: string, close: string)

  datatype Markup = Markup(functions: seq<string>, blocks: seq<BlockTag>, ends: seq<string>,
    reasoning: seq<string>, resuming: seq<string>)

  const THINKING := Markup(
    ["<\U{FF5C}DSML\U{FF5C}", "</\U{FF5C}DSML\U{FF5C}", "<|DSML|", "</|DSML|",
     "<\U{FF5C}/DSML\U{FF5C}", "<|/DSML|"],
    [BlockTag("<think>", "</think>"), BlockTag("<thought>", "</thought>"), BlockTag("<|reasoning|>", "<|/reasoning|>")],
    ["<\U{FF5C}end\U{2581}of\U{2581}thinking\U{FF5C}>", "<|end_of_thinking|>", "<|end\U{2581}of\U{2581}thinking|>",
     "</think>", "</thought>", "<|/reasoning|>"],
    ["Now, ", "Let's ", "Let me ", "I should ", "I'll ", "I need to ", "Checking ", "Looking at "],
    ["#", "[FINDING]", "**", "-", "1."])

  predicate NoneEmpty(ms: seq<string>) {
    forall i :: 0 <= i < |ms| ==> ms[i] != ""
  }

  predicate NoneOpensEmpty(tags: seq<BlockTag>) {
    forall i :: 0 <= i < |tags| ==> tags[i].open != ""
  }

  // No marker is empty, and no end marker spans lines.
  ghost predicate Proper(mk: Markup) {
    NoneEmpty(mk.functions) && NoneOpensEmpty(mk.blocks) && NoneEmpty(mk.ends) &&
    forall i :: 0 <= i < |mk.ends| ==> NL !in mk.ends[i]
  }

  // ----- phase 0: from a function marker on -----

  function CutAt(m: string, s: string): string {
    var i := Index(s, m);
    if i >= 0 then TrimSpace(s[..i]) else s
  }

  function CutAll(ms: seq<string>, s: string): string {
    if ms == [] then s else CutAt(ms[|ms| - 1], CutAll(ms[..|ms| - 1], s))
  }

  // ----- phase 1: tagged blocks -----

  // The block whose tag opens at openIdx, out of s; lower is s in lower case.
  function WithoutBlock(tag: BlockTag, s: string, lower: string, openIdx: nat): (r: string)
    requires |lower| == |s| && openIdx + |tag.open| <= |s|
    ensures |r| <= |s| && (tag.open != "" ==> |r| < |s|)
  {
    var closeIdx := Index(lower[openIdx + |tag.open|..], tag.close);
    if closeIdx < 0 then s[..openIdx]
    else s[..openIdx] + s[openIdx + |tag.open| + closeIdx + |tag.close|..]
  }

  function RemoveBlocks(tag: BlockTag, s: string): string
    requires tag.open != ""
    decreases |s|
  {
    var openIdx := Index(ToLower(s), tag.open);
    if openIdx < 0 then s else RemoveBlocks(tag, WithoutBlock(tag, s, ToLower(s), openIdx))
  }

  function RemoveAllBlocks(tags: seq<BlockTag>, s: string): string
    requires NoneOpensEmpty(tags)
  {
    if tags == [] then s else RemoveBlocks(tags[|tags| - 1], RemoveAllBlocks(tags[..|tags| - 1], s))
  }

  // ----- phase 2: lines with an end marker -----

  function LineStart(s: string, i: nat): (r: nat)
    requires i <= |s|
    ensures r <= i
  {
    var n := LastIndexOf(s, NL, i);
    if n < 0 then 0 else n
  }

  function LineEnd(s: string, i: nat): (r: nat)
    requires i <= |s|
    ensures i <= r <= |s| && (r == |s| || s[r] == NL)
  {
    var n := IndexOf(s, NL, i);
    if n < 0 then |s| else n
  }

  // s without the line of the n characters from idx on.
  function WithoutLine(s: string, idx: nat, n: nat): (r: string)
    requires idx + n <= |s|
    ensures |r| <= |s| && (n > 0 ==> |r| < |s|)
  {
    s[..LineStart(s, idx)] + s[LineEnd(s, idx + n)..]
  }

  function DropLines(m: string, s: string): string
    requires m != ""
    decreases |s|
  {
    var idx := Index(s, m);
    if idx < 0 then s else DropLines(m, WithoutLine(s, idx, |m|))
  }

  function DropAll(ms: seq<string>, s: string): string
    requires NoneEmpty(ms)
  {
    if ms == [] then s else DropLines(ms[|ms| - 1], DropAll(ms[..|ms| - 1], s))
  }

  // ----- phase 3: paragraphs of reasoning -----

  predicate StartsWithAny(s: string, prefixes: seq<string>) {
    prefixes != [] && (HasPrefix(s, prefixes[0]) || StartsWithAny(s, prefixes[1..]))
  }

  datatype Filter = Filter(kept: seq<string>, skipping: bool)

  // A blank line before a line of reasoning; trim is strings.TrimSpace.
  predicate ReasoningAt(mk: Markup, trim: string -> string, lines: seq<string>, i: nat)
    requires i < |lines|
  {
    trim(lines[i]) == "" && i + 1 < |lines| && StartsWithAny(trim(lines[i + 1]), mk.reasoning)
  }

  function FilterLine(mk: Markup, trim: string -> string, lines: seq<string>, i: nat, f: Filter): Filter
    requires i < |lines|
  {
    if f.skipping && !StartsWithAny(trim(lines[i]), mk.resuming) then f
    else if ReasoningAt(mk, trim, lines, i) then Filter(f.kept, true)
    else Filter(f.kept + [lines[i]], false)
  }

  function FilterLines(mk: Markup, trim: string -> string, lines: seq<string>, n: nat): Filter
    requires n <= |lines|
  {
    if n == 0 then Filter([], false) else FilterLine(mk, trim, lines, n - 1, FilterLines(mk, trim, lines, n - 1))
  }

  function Filtered(mk: Markup, s: string): string {
    Join(FilterLines(mk, TrimSpace, Split(s, NL), |Split(s, NL)|).kept, NL)
  }

  function Finished(mk: Markup, s: string): string {
    TrimSpace(CollapseAll(Filtered(mk, s)))
  }

  function Cleaned(mk: Markup, s: string): string
    requires Proper(mk)
  {
    if s == "" then s
    else Finished(mk, DropAll(mk.ends, RemoveAllBlocks(mk.blocks, CutAll(mk.functions, s))))
  }

  // ----- the source's loops -----

  method RemoveFunctionCalls(ms: seq<string>, s: string) returns (content: string)
    ensures content == CutAll(ms, s)
  {
    content := s;
    for i := 0 to |ms|
      invariant content == CutAll(ms[..i], s)
    {
      assert ms[..i + 1][..i] == ms[..i];
      var idx := Index(content, ms[i]);
      if idx >= 0 {
        content := TrimSpace(content[..idx]);
      }
    }
    assert ms[..|ms|] == ms;
  }

  method RemoveTaggedBlocks(tags: seq<BlockTag>, s: string) returns (content: string)
    requires NoneOpensEmpty(tags)
    ensures content == RemoveAllBlocks(tags, s)
  {
    content := s;
    for i := 0 to |tags|
      invariant content == RemoveAllBlocks(tags[..i], s)
    {
      assert tags[..i + 1][..i] == tags[..i];
      content := RemoveOneTag(tags[i], content);
    }
    assert tags[..|tags|] == tags;
  }

  method RemoveOneTag(bt: BlockTag, s: string) returns (content: string)
    requires bt.open != ""
    ensures content == RemoveBlocks(bt, s)
  {
    content := s;
    var lower := ToLower(content);
    while true
      invariant lower == ToLower(content)
      invariant RemoveBlocks(bt, content) == RemoveBlocks(bt, s)
      decreases |content|
    {
      var openIdx := Index(lower, bt.open);
      if openIdx < 0 {
        break;
      }
      content := RemoveOneBlock(bt, content, lower, openIdx);
      lower := ToLower(content);
    }
  }

  method RemoveOneBlock(bt: BlockTag, s: string, lower: string, openIdx: nat) returns (content: string)
    requires |lower| == |s| && openIdx + |bt.open| <= |s|
    ensures content == WithoutBlock(bt, s, lower, openIdx)
  {
    var closeIdx := Index(lower[openIdx + |bt.open|..], bt.close);
    if closeIdx < 0 {
      content := s[..openIdx];
    } else {
      var end := openIdx + |bt.open| + closeIdx + |bt.close|;
      content := s[..openIdx] + s[end..];
    }
  }

  method RemoveMarkedLines(ms: seq<string>, s: string) returns (content: string)
    requires NoneEmpty(ms)
    ensures content == DropAll(ms, s)
  {
    content := s;
    for i := 0 to |ms|
      invariant content == DropAll(ms[..i], s)
    {
      assert ms[..i + 1][..i] == ms[..i];
      content := RemoveLinesWith(ms[i], content);
    }
    assert ms[..|ms|] == ms;
  }

  method RemoveLinesWith(marker: string, s: string) returns (content: string)
    requires marker != ""
    ensures content == DropLines(marker, s)
  {
    content := s;
    while true
      invariant DropLines(marker, content) == DropLines(marker, s)
      decreases |content|
    {
      var idx := Index(content, marker);
      if idx < 0 {
        break;
      }
      content := RemoveLine(content, idx, |marker|);
    }
  }

  method RemoveLine(s: string, idx: nat, n: nat) returns (content: string)
    requires idx + n <= |s|
    ensures content == WithoutLine(s, idx, n)
  {
    var lineStart := LastIndexOf(s, NL, idx);
    if lineStart == -1 {
      lineStart := 0;
    }
    var markerEnd := idx + n;
    var lineEnd := IndexOf(s, NL, markerEnd);
    if lineEnd == -1 {
      lineEnd := |s|;
    }
    content := s[..lineStart] + s[lineEnd..];
  }

  method RemoveReasoning(mk: Markup, trim: string -> string, lines: seq<string>) returns (cleanedLines: seq<string>)
    ensures cleanedLines == FilterLines(mk, trim, lines, |lines|).kept
  {
    cleanedLines := [];
    var skipUntilContent := false;
    for i := 0 to |lines|
      invariant Filter(cleanedLines, skipUntilContent) == FilterLines(mk, trim, lines, i)
    {
      var trimmed := trim(lines[i]);
      if skipUntilContent {
        if StartsWithAny(trimmed, mk.resuming) {
          skipUntilContent := false;
        } else {
          continue;
        }
      }
      if trimmed == "" && i + 1 < |lines| {
        var nextTrimmed := trim(lines[i + 1]);
        if StartsWithAny(nextTrimmed, mk.reasoning) {
          skipUntilContent := true;
          continue;
        }
      }
      cleanedLines := cleanedLines + [lines[i]];
    }
  }

  method CollapseBlankLines(s: string) returns (content: string)
    ensures content == CollapseAll(s)
  {
    content := s;
    while Index(content, TRIPLE) >= 0
      invariant CollapseAll(content) == CollapseAll(s)
      decreases |content|
    {
      CollapseShrinks(content);
      IndexFinds(content, TRIPLE);
      content := Collapse(content);
    }
  }

  method CleanThinkingTokens(mk: Markup, content: string) returns (cleaned: string)
    requires Proper(mk)
    ensures cleaned == Cleaned(mk, content)
  {
    if content == "" {
      return content;
    }
    cleaned := RemoveFunctionCalls(mk.functions, content);
    cleaned := RemoveTaggedBlocks(mk.blocks, cleaned);
    cleaned := RemoveMarkedLines(mk.ends, cleaned);
    var cleanedLines := RemoveReasoning(mk, TrimSpace, Split(cleaned, NL));
    cleaned := CollapseBlankLines(Join(cleanedLines, NL));
    cleaned := TrimSpace(cleaned);
  }
}
