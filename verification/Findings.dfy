// The entities of internal/ai/findings.go. Optional times are the pointers of the Go
// struct; one clock reading is passed to each operation.
module Findings {
  import opened Prelude
  import opened Text

  const WATCH: string := "watch"
  const WARNING: string := "warning"
  const CRITICAL: string := "critical"

  // The severityOrder maps: a severity they do not list counts as zero.
  function SeverityOrder(severity: string): nat {
    if severity == CRITICAL then 3 else if severity == WARNING then 2 else if severity == WATCH then 1 else 0
  }

  datatype Finding = Finding(
    id: string,
    key: string,
    severity: string,
    category: string,
    resourceID: string,
    resourceName: string,
    resourceType: string,
    title: string,
    description: string,
    recommendation: string,
    evidence: string,
    detectedAt: Option<Time>,
    lastSeenAt: Time,
    resolvedAt: Option<Time>,
    autoResolved: bool,
    resolveReason: string,
    acknowledgedAt: Option<Time>,
    snoozedUntil: Option<Time>,
    dismissedReason: string,
    userNote: string,
    timesRaised: int,
    suppressed: bool)
  {
    predicate IsSnoozed(now: Time) {
      snoozedUntil.Some? && now < snoozedUntil.value
    }

    predicate IsActive(now: Time) {
      resolvedAt.None? && !IsSnoozed(now) && !suppressed && dismissedReason == ""
    }

    predicate IsResolved() {
      resolvedAt.Some?
    }

    // Dismissed or suppressed: what Add checks before it updates a known finding.
    predicate Silenced() {
      dismissedReason != "" || suppressed
    }
  }

  datatype SuppressionRule = SuppressionRule(resourceID: string, resourceName: string, category: string, description: string)
  {
    // An empty resource or category stands for any.
    predicate Matches(resource: string, cat: string) {
      (resourceID == "" || resourceID == resource) && (category == "" || category == cat)
    }
  }

  // ----- inferFindingResourceType -----

  // strings.Contains
  predicate Mentions(s: string, p: string) {
    exists i :: 0 <= i <= |s| && At(s, p, i)
  }

  function LastSeparator(s: string): (r: int)
    ensures -1 <= r < |s|
  {
    if s == "" then -1
    else if s[|s| - 1] == ':' || s[|s| - 1] == '/' then |s| - 1
    else LastSeparator(s[..|s| - 1])
  }

  predicate Digits(s: string) {
    s != "" && forall i :: 0 <= i < |s| ==> '0' <= s[i] <= '9'
  }

  function Tail(s: string, sep: int): string
    requires sep < |s|
  {
    if sep >= 0 && sep + 1 < |s| then s[sep + 1..] else s
  }

  predicate DigitsBehind(trimmed: string) {
    var sep := LastSeparator(trimmed);
    Digits(Tail(trimmed, sep))
  }

  predicate HasNumericSuffix(value: string) {
    DigitsBehind(TrimSpace(value))
  }

  // joined is the id and the name in lower case.
  function TypeByWords(joined: string, numbered: bool): (t: string)
    ensures t != ""
  {
    if Mentions(joined, "pbs") || Mentions(joined, "backup") then "pbs"
    else if Mentions(joined, "storage") || Mentions(joined, "pool") || Mentions(joined, "zfs") then "storage"
    else if Mentions(joined, "docker") then "docker_container"
    else if Mentions(joined, "lxc") || Mentions(joined, "ct") || Mentions(joined, "container") then "container"
    else if Mentions(joined, "vm") then "vm"
    else if Mentions(joined, "node") || Mentions(joined, "host") then "node"
    else if numbered then "vm"
    else "node"
  }

  function InferResourceType(resourceID: string, resourceName: string): (t: string)
    ensures t != ""
  {
    TypeByWords(ToLower(TrimSpace(resourceID + " " + resourceName)), HasNumericSuffix(resourceID))
  }

  lemma {:induction false} SeparatorIsLast(s: string)
    ensures forall i :: LastSeparator(s) < i < |s| ==> s[i] != ':' && s[i] != '/'
    ensures LastSeparator(s) >= 0 ==> s[LastSeparator(s)] == ':' || s[LastSeparator(s)] == '/'
  {
    if s != "" && s[|s| - 1] != ':' && s[|s| - 1] != '/' {
      SeparatorIsLast(s[..|s| - 1]);
    }
  }

  predicate NumberBehind(s: string, k: int) {
    0 <= k < |s| && (s[k] == ':' || s[k] == '/') && Digits(s[k + 1..])
  }

  ghost predicate EndsInNumber(s: string) {
    Digits(s) || exists k :: NumberBehind(s, k)
  }

  lemma DigitBehind(s: string, k: int, i: int)
    requires 0 <= k < i < |s| && Digits(s[k + 1..])
    ensures '0' <= s[i] <= '9'
  {
    assert s[k + 1..][i - k - 1] == s[i];
  }

  predicate IsLastSeparator(s: string, sep: int) {
    -1 <= sep < |s| && (forall i :: sep < i < |s| ==> s[i] != ':' && s[i] != '/') &&
    (sep >= 0 ==> s[sep] == ':' || s[sep] == '/')
  }

  lemma OnlyBehindTheLast(s: string, sep: int, k: int)
    requires IsLastSeparator(s, sep) && NumberBehind(s, k)
    ensures k == sep
  {
    if k < sep {
      DigitBehind(s, k, sep);
    }
  }

  lemma TailIsNumber(s: string, sep: int)
    requires IsLastSeparator(s, sep) && EndsInNumber(s)
    ensures Digits(Tail(s, sep))
  {
    if !Digits(s) {
      var k :| NumberBehind(s, k);
      OnlyBehindTheLast(s, sep, k);
    }
  }

  lemma NumberIsTail(s: string, sep: int)
    requires IsLastSeparator(s, sep) && Digits(Tail(s, sep))
    ensures EndsInNumber(s)
  {
    if sep >= 0 && sep + 1 < |s| {
      assert NumberBehind(s, sep);
    }
  }

  // A text ends in a number when it is one, or has one behind a colon or a slash.
  lemma DigitsBehindMeans(s: string)
    ensures DigitsBehind(s) <==> EndsInNumber(s)
  {
    var sep := LastSeparator(s);
    SeparatorIsLast(s);
    if EndsInNumber(s) {
      TailIsNumber(s, sep);
    }
    if Digits(Tail(s, sep)) {
      NumberIsTail(s, sep);
    }
  }

  ghost predicate Says(joined: string, words: seq<string>) {
    exists i :: 0 <= i < |words| && Contains(joined, words[i])
  }

  lemma MentionsMeans(s: string, p: string)
    ensures Mentions(s, p) <==> Contains(s, p)
  {
  }

  lemma SaysTwo(joined: string, a: string, b: string)
    ensures Says(joined, [a, b]) <==> Mentions(joined, a) || Mentions(joined, b)
  {
    assert [a, b][0] == a && [a, b][1] == b;
    MentionsMeans(joined, a);
    MentionsMeans(joined, b);
  }

  lemma SaysThree(joined: string, a: string, b: string, c: string)
    ensures Says(joined, [a, b, c]) <==> Mentions(joined, a) || Mentions(joined, b) || Mentions(joined, c)
  {
    assert [a, b, c][0] == a && [a, b, c][1] == b && [a, b, c][2] == c;
    MentionsMeans(joined, a);
    MentionsMeans(joined, b);
    MentionsMeans(joined, c);
  }

  // The type is decided by the first group of words of which the id or the name has one; an
  // id without any of them is a machine when it ends in a number.
  lemma TypeIsByWords(joined: string, numbered: bool)
    ensures var t := TypeByWords(joined, numbered);
      var backup := Says(joined, ["pbs", "backup"]);
      var storage := Says(joined, ["storage", "pool", "zfs"]);
      var docker := Contains(joined, "docker");
      var container := Says(joined, ["lxc", "ct", "container"]);
      var machine := Contains(joined, "vm") || (numbered && !Says(joined, ["node", "host"]));
      (t == "pbs" <==> backup) && (t == "storage" <==> !backup && storage) &&
      (t == "docker_container" <==> !backup && !storage && docker) &&
      (t == "container" <==> !backup && !storage && !docker && container) &&
      (t == "vm" <==> !backup && !storage && !docker && !container && machine) &&
      (t == "node" || t in ["pbs", "storage", "docker_container", "container", "vm"])
  {
    SaysTwo(joined, "pbs", "backup");
    SaysThree(joined, "storage", "pool", "zfs");
    MentionsMeans(joined, "docker");
    SaysThree(joined, "lxc", "ct", "container");
    MentionsMeans(joined, "vm");
    SaysTwo(joined, "node", "host");
  }
}
