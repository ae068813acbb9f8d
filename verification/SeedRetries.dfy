// Retrying a patrol with a smaller prompt after the provider found it too long
// (internal/ai/patrol_ai.go:477-533 and 1419-1480).
module SeedRetries {
  import opened Prelude

  const RETRY_CHARS_1 := 16000
  const RETRY_CHARS_2 := 8000

  // ----- budgets -----

  function UniquePositive(values: seq<int>): seq<int> {
    if values == [] then []
    else
      var (rest, value) := (UniquePositive(values[..|values| - 1]), values[|values| - 1]);
      if value <= 0 || value in rest then rest else rest + [value]
  }

  method UniquePositiveInts(values: seq<int>) returns (result: seq<int>)
    ensures result == UniquePositive(values)
  {
    result := [];
    var seen: set<int> := {};
    for i := 0 to |values|
      invariant result == UniquePositive(values[..i])
      invariant forall v :: v in seen <==> v in result
    {
      assert values[..i + 1][..i] == values[..i];
      var value := values[i];
      if value <= 0 {
        continue;
      }
      if value in seen {
        continue;
      }
      seen := seen + {value};
      result := result + [value];
    }
    assert values[..|values|] == values;
  }

  // The positive values, each once, in the order of their first occurrence.
  lemma {:induction false} UniquePositiveMeans(values: seq<int>)
    ensures var r := UniquePositive(values);
      |r| <= |values| && (forall v :: v in r <==> v in values && v > 0) &&
      (forall i, j :: 0 <= i < j < |r| ==> r[i] != r[j])
  {
    if values != [] {
      var front := values[..|values| - 1];
      assert values == front + [values[|values| - 1]];
      UniquePositiveMeans(front);
    }
  }

  lemma {:induction false} FirstOccurrencesInOrder(values: seq<int>, n: nat)
    requires n <= |values|
    ensures UniquePositive(values[..n]) <= UniquePositive(values)
  {
    if n == |values| {
      assert values[..n] == values;
    } else {
      assert values[..|values| - 1][..n] == values[..n];
      FirstOccurrencesInOrder(values[..|values| - 1], n);
    }
  }

  const WORD: int := 0x1_0000_0000_0000_0000

  // Go's 64-bit multiplication by two, which wraps around.
  function Twice(n: int): int {
    var m := n * 2 % WORD;
    if m >= WORD / 2 then m - WORD else m
  }

  // nctx is the context window the error names, 0 when it names none.
  function RetryBudgets(nctx: int): seq<int> {
    if nctx <= 0 then [RETRY_CHARS_1, RETRY_CHARS_2]
    else UniquePositive([Min(RETRY_CHARS_1, Twice(nctx)), Min(RETRY_CHARS_2, nctx), Max(2000, nctx / 2)])
  }

  lemma BudgetsFew(nctx: int)
    ensures Usable(RetryBudgets(nctx))
  {
    if nctx > 0 {
      var values := [Min(RETRY_CHARS_1, Twice(nctx)), Min(RETRY_CHARS_2, nctx), Max(2000, nctx / 2)];
      UniquePositiveMeans(values);
      assert values[1] in values && values[1] in UniquePositive(values);
      forall i | 0 <= i < |UniquePositive(values)| ensures UniquePositive(values)[i] > 0 {
        assert UniquePositive(values)[i] in UniquePositive(values);
      }
    }
  }

  lemma UniqueOfThree(a: int, b: int, c: int)
    requires b > 0 && c > 0
    ensures UniquePositive([a, b, c]) ==
      (if a <= 0 then [] else [a]) + (if b == a then [] else [b]) + (if c == a || c == b then [] else [c])
  {
    assert [a, b, c][..2] == [a, b] && [a, b][..1] == [a] && [a][..0] == [];
    assert UniquePositive([a]) == if a <= 0 then [] else [a];
    assert UniquePositive([a, b]) == UniquePositive([a]) + if b == a then [] else [b];
  }

  lemma TwiceIs(n: int)
    requires 0 < n < WORD / 2
    ensures Twice(n) == if n < WORD / 4 then 2 * n else 2 * n - WORD
  {
  }

  // Without a named window 16000 and then 8000 characters are tried; with one, twice its
  // size, its size and half of it, but no more than 16000 and 8000 and no less than 2000.
  // Twice the size of a window beyond 2^62 is negative and left out.
  lemma BudgetsFollowTheWindow(nctx: int)
    requires nctx < WORD / 2
    ensures nctx <= 0 ==> RetryBudgets(nctx) == [16000, 8000]
    ensures 0 < nctx < WORD / 4 ==>
      var (a, b) := (if nctx < 8000 then 2 * nctx else 16000, if nctx < 8000 then nctx else 8000);
      var c := if nctx < 4000 then 2000 else nctx / 2;
      RetryBudgets(nctx) == if c == a || c == b then [a, b] else [a, b, c]
    ensures nctx >= WORD / 4 ==> RetryBudgets(nctx) == [8000, nctx / 2]
  {
    if nctx > 0 {
      TwiceIs(nctx);
      UniqueOfThree(Min(RETRY_CHARS_1, Twice(nctx)), Min(RETRY_CHARS_2, nctx), Max(2000, nctx / 2));
    }
  }

  predicate Descending(budgets: seq<int>) {
    forall i :: 0 <= i < |budgets| - 1 ==> budgets[i + 1] < budgets[i]
  }

  // Each retry is meant to be smaller than the one before. It is, except for windows below
  // 2000 other than 1000, where the least budget is more than the window, and for those of
  // 16002 and more other than 32000 and 32001, where half the window is more than 8000.
  lemma BudgetsDescendIff(nctx: int)
    requires nctx < WORD / 2
    ensures Descending(RetryBudgets(nctx)) <==>
      nctx <= 0 || nctx == 1000 || 2000 <= nctx <= 16001 || 32000 <= nctx <= 32001
  {
    BudgetsFollowTheWindow(nctx);
    var budgets := RetryBudgets(nctx);
    assert |budgets| == 2 || |budgets| == 3;
    assert Descending(budgets) <==> budgets[1] < budgets[0] && (|budgets| == 3 ==> budgets[2] < budgets[1]);
  }

  // For instance, a window of 512 makes budgets of 1024, 512 and 2000.
  lemma BudgetsRiseExample()
    ensures RetryBudgets(512) == [1024, 512, 2000] && !Descending(RetryBudgets(512))
  {
    BudgetsFollowTheWindow(512);
    BudgetsDescendIff(512);
  }

  // ----- the next shorter prompt -----

  datatype Next = Next(prompt: string, budget: int, index: nat)

  // reduce(b) is the seed reduced to b characters.
  function NextFrom(reduce: int -> string, current: string, budgets: seq<int>, start: nat): Next
    requires start <= |budgets|
    decreases |budgets| - start
  {
    if start == |budgets| then Next(current, 0, |budgets|)
    else if |reduce(budgets[start])| < |current| then Next(reduce(budgets[start]), budgets[start], start + 1)
    else NextFrom(reduce, current, budgets, start + 1)
  }

  method NextReducedPatrolPrompt(reduce: int -> string, current: string, budgets: seq<int>, start: nat)
    returns (prompt: string, budget: int, index: nat)
    requires start <= |budgets|
    ensures Next(prompt, budget, index) == NextFrom(reduce, current, budgets, start)
  {
    for idx := start to |budgets|
      invariant NextFrom(reduce, current, budgets, start) == NextFrom(reduce, current, budgets, idx)
    {
      var reduced := reduce(budgets[idx]);
      if |reduced| < |current| {
        return reduced, budgets[idx], idx + 1;
      }
    }
    return current, 0, |budgets|;
  }

  // The first budget from start on whose prompt is shorter, or none.
  lemma {:induction false} NextMeans(reduce: int -> string, current: string, budgets: seq<int>, start: nat)
    requires start <= |budgets| && forall i :: 0 <= i < |budgets| ==> budgets[i] > 0
    ensures var next := NextFrom(reduce, current, budgets, start);
      if next.budget == 0 then
        next.prompt == current && next.index == |budgets| && NoneShorter(reduce, current, budgets, start, |budgets|)
      else
        start < next.index <= |budgets| && next.budget == budgets[next.index - 1] &&
        next.prompt == reduce(next.budget) && |next.prompt| < |current| &&
        NoneShorter(reduce, current, budgets, start, next.index - 1)
    decreases |budgets| - start
  {
    if start < |budgets| {
      NextMeans(reduce, current, budgets, start + 1);
    }
  }

  ghost predicate NoneShorter(reduce: int -> string, current: string, budgets: seq<int>, lo: int, hi: int)
    requires 0 <= lo && hi <= |budgets|
  {
    forall i :: lo <= i < hi ==> |reduce(budgets[i])| >= |current|
  }

  // ----- the retry loop -----

  // How the provider answers an attempt.
  datatype Answer = Done | TooLong(nctx: int) | Failed

  // Every prompt is shorter than the one before it.
  ghost predicate Shrinking(sent: seq<string>) {
    forall i :: 0 <= i < |sent| - 1 ==> |sent[i + 1]| < |sent[i]|
  }

  ghost predicate SentFor(reduce: int -> string, budgets: seq<int>, sent: seq<string>) {
    forall i :: 0 < i < |sent| ==> exists b :: b in budgets && sent[i] == reduce(b)
  }

  // The last prompt is the shortest any of the first n budgets gives.
  ghost predicate ShortestOf(reduce: int -> string, budgets: seq<int>, n: nat, last: string) {
    n <= |budgets| && forall i :: 0 <= i < n ==> |reduce(budgets[i])| >= |last|
  }

  ghost predicate AllTooLong(answers: nat -> Answer, n: nat) {
    forall i: nat :: i < n ==> answers(i).TooLong?
  }

  // The prompts sent when the first n budgets are used up.
  ghost predicate Underway(reduce: int -> string, budgets: seq<int>, sent: seq<string>, n: nat) {
    1 <= |sent| <= n + 1 && Shrinking(sent) && SentFor(reduce, budgets, sent) &&
    ShortestOf(reduce, budgets, n, sent[|sent| - 1])
  }

  lemma UnderwayNext(reduce: int -> string, budgets: seq<int>, sent: seq<string>, n: nat)
    requires Underway(reduce, budgets, sent, n) && Usable(budgets)
    ensures var next := NextFrom(reduce, sent[|sent| - 1], budgets, n);
      if next.budget == 0 then ShortestOf(reduce, budgets, |budgets|, sent[|sent| - 1])
      else
        n < next.index <= |budgets| && |next.prompt| < |sent[|sent| - 1]| &&
        Underway(reduce, budgets, sent + [next.prompt], next.index)
  {
    var last := sent[|sent| - 1];
    var next := NextFrom(reduce, last, budgets, n);
    NextMeans(reduce, last, budgets, n);
    if next.budget != 0 {
      assert next.budget in budgets;
      ShortestStep(reduce, budgets, n, last, next);
    }
  }

  lemma ShortestStep(reduce: int -> string, budgets: seq<int>, n: nat, last: string, next: Next)
    requires ShortestOf(reduce, budgets, n, last)
    requires n < next.index <= |budgets| && next.prompt == reduce(budgets[next.index - 1]) && |next.prompt| < |last|
    requires NoneShorter(reduce, last, budgets, n, next.index - 1)
    ensures ShortestOf(reduce, budgets, next.index, next.prompt)
  {
  }

  // One to three budgets, all positive.
  predicate Usable(budgets: seq<int>) {
    1 <= |budgets| <= 3 && forall i :: 0 <= i < |budgets| ==> budgets[i] > 0
  }

  // The loop, for any way to make budgets from the window an error names.
  method SendWith(reduce: int -> string, budgetsFor: int -> seq<int>, seed: string, answers: nat -> Answer)
    returns (ok: bool, sent: seq<string>)
    requires forall nctx :: Usable(budgetsFor(nctx))
    ensures 1 <= |sent| <= 4 && sent[0] == seed && Shrinking(sent) && AllTooLong(answers, |sent| - 1)
    ensures ok <==> answers(|sent| - 1).Done?
    ensures answers(0).TooLong? ==> SentFor(reduce, budgetsFor(answers(0).nctx), sent)
    ensures answers(|sent| - 1).TooLong? ==>
      answers(0).TooLong? &&
      ShortestOf(reduce, budgetsFor(answers(0).nctx), |budgetsFor(answers(0).nctx)|, sent[|sent| - 1])
  {
    var retryBudgets: Option<seq<int>> := None;
    var retryBudgetIndex: nat := 0;
    var attemptPrompt := seed;
    sent := [];
    while true
      invariant (sent + [attemptPrompt])[0] == seed && AllTooLong(answers, |sent|)
      invariant retryBudgets.None? <==> sent == []
      invariant retryBudgets.None? ==> retryBudgetIndex == 0
      invariant retryBudgets.Some? ==>
        retryBudgets.value == budgetsFor(answers(0).nctx) && Usable(retryBudgets.value) && 0 < retryBudgetIndex &&
        Underway(reduce, retryBudgets.value, sent + [attemptPrompt], retryBudgetIndex)
      decreases 3 - retryBudgetIndex
    {
      sent := sent + [attemptPrompt];
      var answer := answers(|sent| - 1);
      if answer.Done? {
        return true, sent;
      }
      if !answer.TooLong? {
        return false, sent;
      }
      if retryBudgets.None? {
        retryBudgets := Some(budgetsFor(answer.nctx));
      }
      var budgets := retryBudgets.value;
      if retryBudgetIndex >= |budgets| {
        return false, sent;
      }
      UnderwayNext(reduce, budgets, sent, retryBudgetIndex);
      var reducedPrompt, reducedBudget, nextIndex :=
        NextReducedPatrolPrompt(reduce, attemptPrompt, budgets, retryBudgetIndex);
      retryBudgetIndex := nextIndex;
      if reducedBudget == 0 || |reducedPrompt| >= |attemptPrompt| {
        return false, sent;
      }
      attemptPrompt := reducedPrompt;
    }
  }

  // answers(i) is the provider's answer to prompt i. At most four prompts are sent, each
  // shorter than the last and all but the first made from a budget the first answer set;
  // only an answer that the prompt is too long leads to another. The last answer decides,
  // and the patrol gives up on one too long only when no budget gives a shorter prompt.
  method SendWithRetries(reduce: int -> string, seed: string, answers: nat -> Answer)
    returns (ok: bool, sent: seq<string>)
    ensures 1 <= |sent| <= 4 && sent[0] == seed && Shrinking(sent) && AllTooLong(answers, |sent| - 1)
    ensures ok <==> answers(|sent| - 1).Done?
    ensures answers(0).TooLong? ==> SentFor(reduce, RetryBudgets(answers(0).nctx), sent)
    ensures answers(|sent| - 1).TooLong? ==>
      answers(0).TooLong? &&
      ShortestOf(reduce, RetryBudgets(answers(0).nctx), |RetryBudgets(answers(0).nctx)|, sent[|sent| - 1])
  {
    forall nctx ensures Usable(RetryBudgets(nctx)) {
      BudgetsFew(nctx);
    }
    ok, sent := SendWith(reduce, RetryBudgets, seed, answers);
  }
}
