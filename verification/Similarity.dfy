// Semantic similarity of findings (internal/ai/findings.go:1288-1391): a weighted sum of
// equal fields and of the Jaccard overlap of the keywords of titles and descriptions.
module Similarity {
  import opened Text
  import opened Findings

  const STOP_WORDS: set<string> := {
    "the", "a", "an", "is", "are",
    "was", "were", "be", "been", "being",
    "have", "has", "had", "do", "does",
    "did", "will", "would", "could", "should",
    "may", "might", "must", "shall", "can",
    "to", "of", "in", "for", "on", "with",
    "at", "by", "from", "as", "into", "through",
    "and", "or", "but", "if", "then", "than",
    "this", "that", "these", "those", "it"
  }

  predicate IsWordChar(c: char) {
    ('a' <= c <= 'z') || ('A' <= c <= 'Z') || ('0' <= c <= '9')
  }

  predicate Significant(word: string) {
    |word| > 2 && word !in STOP_WORDS
  }

  // s[i..j] is a longest run of letters and digits.
  predicate IsWord(s: string, i: nat, j: nat) {
    i < j <= |s| && (forall k :: i <= k < j ==> IsWordChar(s[k])) &&
    (i == 0 || !IsWordChar(s[i - 1])) && (j == |s| || !IsWordChar(s[j]))
  }

  // The significant words of s, in lower case.
  function Keywords(s: string): set<string> {
    KeywordsEndingBefore(s, |s| + 1)
  }

  function KeywordsEndingBefore(s: string, n: nat): set<string> {
    set i: nat, j: nat | 0 <= i < j < n && j <= |s| && IsWord(s, i, j) && Significant(ToLower(s[i..j])) :: ToLower(s[i..j])
  }

  // The word stands between places i and j, whatever the case of its letters, and no letter or
  // digit comes next to it.
  predicate StandsAt(s: string, w: string, i: nat, j: nat) {
    i < j <= |s| && |w| == j - i && (forall k :: 0 <= k < |w| ==> w[k] == LowerChar(s[i + k])) &&
    (forall k :: 0 <= k < |w| ==> 'a' <= w[k] <= 'z' || '0' <= w[k] <= '9') &&
    (i > 0 ==> !Alphanumeric(s[i - 1])) && (j < |s| ==> !Alphanumeric(s[j]))
  }

  predicate Alphanumeric(c: char) {
    'a' <= LowerChar(c) <= 'z' || '0' <= c <= '9'
  }

  lemma AlphanumericMeans(c: char)
    ensures IsWordChar(c) <==> Alphanumeric(c)
    ensures IsWordChar(c) <==> 'a' <= LowerChar(c) <= 'z' || '0' <= LowerChar(c) <= '9'
  {
  }

  lemma StandsMeans(s: string, w: string, i: nat, j: nat)
    ensures StandsAt(s, w, i, j) <==> IsWord(s, i, j) && w == ToLower(s[i..j])
  {
    if i < j <= |s| && |w| == j - i {
      SpeltByLetters(s, w, i, j);
      if w == ToLower(s[i..j]) {
        LettersAreWordChars(s, w, i, j);
      }
      if i > 0 {
        AlphanumericMeans(s[i - 1]);
      }
      if j < |s| {
        AlphanumericMeans(s[j]);
      }
    }
  }

  lemma SpeltByLetters(s: string, w: string, i: nat, j: nat)
    requires i < j <= |s| && |w| == j - i
    ensures w == ToLower(s[i..j]) <==> forall k :: 0 <= k < |w| ==> w[k] == LowerChar(s[i + k])
  {
    assert forall k :: 0 <= k < |w| ==> ToLower(s[i..j])[k] == LowerChar(s[i + k]);
  }

  lemma LettersAreWordChars(s: string, w: string, i: nat, j: nat)
    requires i < j <= |s| && |w| == j - i && forall k :: 0 <= k < |w| ==> w[k] == LowerChar(s[i + k])
    ensures (forall k :: 0 <= k < |w| ==> 'a' <= w[k] <= 'z' || '0' <= w[k] <= '9') <==>
      forall k :: i <= k < j ==> IsWordChar(s[k])
  {
    forall k | 0 <= k < |w| ensures 'a' <= w[k] <= 'z' || '0' <= w[k] <= '9' <==> IsWordChar(s[i + k]) {
      AlphanumericMeans(s[i + k]);
    }
    forall k | i <= k < j ensures 'a' <= w[k - i] <= 'z' || '0' <= w[k - i] <= '9' <==> IsWordChar(s[k]) {
      AlphanumericMeans(s[k]);
    }
  }

  // The keywords are the words of at least three letters and digits that are no stop words.
  lemma KeywordMeans(s: string, w: string)
    ensures w in Keywords(s) <==> |w| >= 3 && w !in STOP_WORDS && exists i: nat, j: nat :: StandsAt(s, w, i, j)
  {
    if w in Keywords(s) {
      var i: nat, j: nat :| i < j <= |s| && IsWord(s, i, j) && Significant(ToLower(s[i..j])) && w == ToLower(s[i..j]);
      StandsMeans(s, w, i, j);
    }
    if i: nat, j: nat :| StandsAt(s, w, i, j) {
      StandsMeans(s, w, i, j);
    }
  }

  // A word that ends at n starts where the run of word characters before n starts.
  lemma WordEnds(s: string, start: nat, n: nat)
    requires start <= n <= |s|
    requires forall k :: start <= k < n ==> IsWordChar(s[k])
    requires start == 0 || !IsWordChar(s[start - 1])
    requires n == |s| || !IsWordChar(s[n])
    ensures KeywordsEndingBefore(s, n + 1) ==
      KeywordsEndingBefore(s, n) + (if Significant(ToLower(s[start..n])) then {ToLower(s[start..n])} else {})
  {
    forall w | w in KeywordsEndingBefore(s, n + 1)
      ensures w in KeywordsEndingBefore(s, n) || (Significant(ToLower(s[start..n])) && w == ToLower(s[start..n]))
    {
      var i: nat, j: nat :| i < j < n + 1 && j <= |s| && IsWord(s, i, j) && Significant(ToLower(s[i..j])) && w == ToLower(s[i..j]);
      if j == n {
        assert i == start;
      }
    }
    if Significant(ToLower(s[start..n])) {
      assert IsWord(s, start, n);
    }
  }

  lemma NoWordEnds(s: string, n: nat)
    requires n < |s| && IsWordChar(s[n])
    ensures KeywordsEndingBefore(s, n + 1) == KeywordsEndingBefore(s, n)
  {
  }

  lemma LowerGrows(s: string, start: nat, i: nat)
    requires start <= i < |s|
    ensures ToLower(s[start..i + 1]) == ToLower(s[start..i]) + [LowerChar(s[i])]
  {
  }

  method ExtractKeywords(s: string) returns (keywords: set<string>)
    ensures keywords == Keywords(s)
  {
    keywords := {};
    var word := "";
    ghost var start: nat := 0;
    for i := 0 to |s|
      invariant start <= i
      invariant forall k :: start <= k < i ==> IsWordChar(s[k])
      invariant start == 0 || !IsWordChar(s[start - 1])
      invariant word == ToLower(s[start..i])
      invariant keywords == KeywordsEndingBefore(s, i)
    {
      var c := s[i];
      if IsWordChar(c) {
        LowerGrows(s, start, i);
        NoWordEnds(s, i);
        if 'A' <= c <= 'Z' {
          c := (c as int + 32) as char;
        }
        word := word + [c];
      } else {
        WordEnds(s, start, i);
        if |word| > 2 && word !in STOP_WORDS {
          keywords := keywords + {word};
        }
        word := "";
        start := i + 1;
      }
    }
    WordEnds(s, start, |s|);
    if |word| > 2 && word !in STOP_WORDS {
      keywords := keywords + {word};
    }
  }

  function Jaccard(a: set<string>, b: set<string>): real {
    if a == {} || b == {} then 0.0 else |a * b| as real / |a + b| as real
  }

  method CountShared(words1: set<string>, words2: set<string>) returns (intersection: nat)
    ensures intersection == |words1 * words2|
  {
    intersection := 0;
    ghost var counted: set<string> := {};
    var todo := words1;
    while todo != {}
      invariant todo <= words1
      invariant intersection == |counted|
      invariant forall w :: w in counted <==> w in words1 && w in words2 && w !in todo
      decreases todo
    {
      var word :| word in todo;
      if word in words2 {
        intersection := intersection + 1;
        counted := counted + {word};
      }
      todo := todo - {word};
    }
    assert counted == words1 * words2;
  }

  method CountAll(words1: set<string>, words2: set<string>) returns (union: nat)
    ensures union == |words1 + words2|
  {
    union := |words1|;
    ghost var counted := words1;
    var todo := words2;
    while todo != {}
      invariant todo <= words2
      invariant union == |counted|
      invariant forall w :: w in counted <==> w in words1 || (w in words2 && w !in todo)
      decreases todo
    {
      var word :| word in todo;
      if word !in words1 {
        union := union + 1;
        counted := counted + {word};
      }
      todo := todo - {word};
    }
    assert counted == words1 + words2;
  }

  // With a keyword on each side the union is not empty, so the division is safe.
  method KeywordOverlap(s1: string, s2: string) returns (overlap: real)
    ensures overlap == Jaccard(Keywords(s1), Keywords(s2))
  {
    var words1 := ExtractKeywords(s1);
    var words2 := ExtractKeywords(s2);
    if |words1| == 0 || |words2| == 0 {
      return 0.0;
    }
    var intersection := CountShared(words1, words2);
    var union := CountAll(words1, words2);
    return intersection as real / union as real;
  }

  lemma SubsetSize(a: set<string>, b: set<string>)
    requires a <= b
    ensures |a| <= |b|
  {
    assert b == a + (b - a);
  }

  lemma RatioIs(m: real, n: real, q: real)
    requires n > 0.0
    ensures m / n == q <==> m == q * n
  {
    assert m / n * n == m;
  }

  lemma RatioBounds(m: nat, n: nat)
    requires m <= n && n > 0
    ensures 0.0 <= m as real / n as real <= 1.0
    ensures m as real / n as real == 0.0 <==> m == 0
    ensures m as real / n as real == 1.0 <==> m == n
  {
    RatioIs(m as real, n as real, 0.0);
    RatioIs(m as real, n as real, 1.0);
  }

  lemma JaccardBounds(a: set<string>, b: set<string>)
    ensures 0.0 <= Jaccard(a, b) <= 1.0
    ensures Jaccard(a, b) == Jaccard(b, a)
    ensures Jaccard(a, b) == 0.0 <==> a !! b
    ensures Jaccard(a, b) == 1.0 <==> a == b && a != {}
    ensures Jaccard(a, b) * |a + b| as real == |a * b| as real
  {
    assert a * b == b * a && a + b == b + a;
    SubsetSize(a * b, a + b);
    if a != {} && b != {} {
      SubsetSize(a, a + b);
      RatioBounds(|a * b|, |a + b|);
      SameSizeSameSet(a * b, a + b);
    } else {
      assert a * b == {};
    }
  }

  lemma SameSizeSameSet(a: set<string>, b: set<string>)
    requires a <= b
    ensures |a| == |b| ==> a == b
  {
    assert b == a + (b - a);
    if |a| == |b| {
      assert b - a == {};
    }
  }

  function Weighted(condition: bool, weight: real): real {
    if condition then weight else 0.0
  }

  function Combined(sameResource: bool, sameCategory: bool, sameKey: bool, titleSim: real, descSim: real): real {
    var similarity :=
      Weighted(sameResource, 0.3) + Weighted(sameCategory, 0.2) + Weighted(sameKey, 0.4) + titleSim * 0.2 + descSim * 0.1;
    if similarity < 1.0 then similarity else 1.0
  }

  function SemanticSimilarity(f1: Finding, f2: Finding): real {
    Combined(f1.resourceID == f2.resourceID, f1.category == f2.category, f1.key != "" && f1.key == f2.key,
             Jaccard(Keywords(f1.title), Keywords(f2.title)), Jaccard(Keywords(f1.description), Keywords(f2.description)))
  }

  lemma CombinedBounds(sameResource: bool, sameCategory: bool, sameKey: bool, titleSim: real, descSim: real)
    requires 0.0 <= titleSim <= 1.0 && 0.0 <= descSim <= 1.0
    ensures 0.0 <= Combined(sameResource, sameCategory, sameKey, titleSim, descSim) <= 1.0
  {
  }

  lemma SimilarityIsSymmetricAndBounded(f1: Finding, f2: Finding)
    ensures SemanticSimilarity(f1, f2) == SemanticSimilarity(f2, f1)
    ensures 0.0 <= SemanticSimilarity(f1, f2) <= 1.0
  {
    CombinedOfSets(f1.resourceID == f2.resourceID, f1.category == f2.category, f1.key != "" && f1.key == f2.key,
                   Keywords(f1.title), Keywords(f2.title), Keywords(f1.description), Keywords(f2.description));
  }

  lemma CombinedOfSets(sameResource: bool, sameCategory: bool, sameKey: bool, t1: set<string>, t2: set<string>,
                       d1: set<string>, d2: set<string>)
    ensures Combined(sameResource, sameCategory, sameKey, Jaccard(t1, t2), Jaccard(d1, d2)) ==
      Combined(sameResource, sameCategory, sameKey, Jaccard(t2, t1), Jaccard(d2, d1))
    ensures 0.0 <= Combined(sameResource, sameCategory, sameKey, Jaccard(t1, t2), Jaccard(d1, d2)) <= 1.0
  {
    JaccardBounds(t1, t2);
    JaccardBounds(d1, d2);
    CombinedBounds(sameResource, sameCategory, sameKey, Jaccard(t1, t2), Jaccard(d1, d2));
  }

  // What the fields alone are worth: a key counts most, then the resource, then the category.
  function FieldsWorth(f1: Finding, f2: Finding): real {
    if f1.key != "" && f1.key == f2.key then
      if f1.resourceID == f2.resourceID then (if f1.category == f2.category then 0.9 else 0.7)
      else if f1.category == f2.category then 0.6 else 0.4
    else
      if f1.resourceID == f2.resourceID then (if f1.category == f2.category then 0.5 else 0.3)
      else if f1.category == f2.category then 0.2 else 0.0
  }

  // Beyond the fields, the words of the titles add up to 0.2 and those of the descriptions up
  // to 0.1, nothing when they share none, and never to more than 1 in all.
  lemma WordsAddALittle(f1: Finding, f2: Finding)
    ensures AddsUp(SemanticSimilarity(f1, f2), FieldsWorth(f1, f2), Keywords(f1.title), Keywords(f2.title),
                   Keywords(f1.description), Keywords(f2.description))
  {
    SetsAddUp(f1.resourceID == f2.resourceID, f1.category == f2.category, f1.key != "" && f1.key == f2.key,
              Keywords(f1.title), Keywords(f2.title), Keywords(f1.description), Keywords(f2.description), FieldsWorth(f1, f2));
  }

  ghost predicate AddsUp(s: real, worth: real, t1: set<string>, t2: set<string>, d1: set<string>, d2: set<string>) {
    worth <= s <= worth + 0.3 &&
    (t1 !! t2 && d1 !! d2 ==> s == worth) &&
    (t1 == t2 && t1 != {} && d1 !! d2 ==> s == Least(1.0, worth + 0.2)) &&
    (t1 !! t2 && d1 == d2 && d1 != {} ==> s == Least(1.0, worth + 0.1))
  }

  lemma SetsAddUp(sameResource: bool, sameCategory: bool, sameKey: bool, t1: set<string>, t2: set<string>,
                  d1: set<string>, d2: set<string>, worth: real)
    requires worth == Weighted(sameResource, 0.3) + Weighted(sameCategory, 0.2) + Weighted(sameKey, 0.4)
    ensures AddsUp(Combined(sameResource, sameCategory, sameKey, Jaccard(t1, t2), Jaccard(d1, d2)), worth, t1, t2, d1, d2)
  {
    JaccardBounds(t1, t2);
    JaccardBounds(d1, d2);
    CombinedAdds(sameResource, sameCategory, sameKey, Jaccard(t1, t2), Jaccard(d1, d2), worth);
  }

  function Least(x: real, y: real): real {
    if x < y then x else y
  }

  lemma CombinedAdds(sameResource: bool, sameCategory: bool, sameKey: bool, titleSim: real, descSim: real, worth: real)
    requires 0.0 <= titleSim <= 1.0 && 0.0 <= descSim <= 1.0
    requires worth == Weighted(sameResource, 0.3) + Weighted(sameCategory, 0.2) + Weighted(sameKey, 0.4)
    ensures var s := Combined(sameResource, sameCategory, sameKey, titleSim, descSim);
      worth <= s <= worth + 0.3 && s == Least(1.0, worth + titleSim * 0.2 + descSim * 0.1)
  {
  }
}
