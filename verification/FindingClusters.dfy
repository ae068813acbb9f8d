// Greedy clustering of the active findings (internal/ai/findings.go:1475-1559). The code
// walks a Go map, so the findings come in an order nobody controls; whatever the order,
// the clusters partition them.
module FindingClusters {
  import opened Prelude
  import opened Findings
  import opened Similarity
  import opened Numbers

  datatype FindingCluster = FindingCluster(
    id: string,
    primaryFindingID: string,
    relatedIDs: seq<string>,
    commonCategory: string,
    commonResource: string,
    summary: string,
    highestSeverity: string,
    totalCount: nat)

  predicate DistinctIds(active: seq<Finding>) {
    forall i, j :: 0 <= i < j < |active| ==> active[i].id != active[j].id
  }

  // The cluster describes exactly the findings at these places, the first one leading.
  ghost predicate Describes(c: FindingCluster, active: seq<Finding>, members: seq<nat>) {
    DescribesButSummary(c, active, members) && c.summary == Summary(c, active[members[0]])
  }

  ghost predicate DescribesButSummary(c: FindingCluster, active: seq<Finding>, members: seq<nat>) {
    InRange(active, members) && Leads(c, active[members[0]]) && Lists(c, active, members) &&
    HighestAmong(c.highestSeverity, active, members) && CommonAmong(c.commonResource, active, members)
  }

  predicate InRange(active: seq<Finding>, members: seq<nat>) {
    |members| > 0 && forall m :: 0 <= m < |members| ==> members[m] < |active|
  }

  predicate Leads(c: FindingCluster, f: Finding) {
    |f.id| >= 8 && c.id == "cluster-" + f.id[..8] && c.primaryFindingID == f.id && c.commonCategory == f.category
  }

  predicate Lists(c: FindingCluster, active: seq<Finding>, members: seq<nat>)
    requires InRange(active, members)
  {
    c.totalCount == |members| == |c.relatedIDs| + 1 &&
    forall m :: 0 <= m < |c.relatedIDs| ==> c.relatedIDs[m] == active[members[m + 1]].id
  }

  // The severity of some member, and no member is more severe.
  ghost predicate HighestAmong(severity: string, active: seq<Finding>, members: seq<nat>)
    requires InRange(active, members)
  {
    (exists m :: 0 <= m < |members| && active[members[m]].severity == severity) &&
    (forall m :: 0 <= m < |members| ==> SeverityOrder(active[members[m]].severity) <= SeverityOrder(severity))
  }

  // The leader's resource if every member is on it, and nothing otherwise.
  ghost predicate CommonAmong(resource: string, active: seq<Finding>, members: seq<nat>)
    requires InRange(active, members)
  {
    var r := active[members[0]].resourceID;
    resource == if forall m :: 0 <= m < |members| ==> active[members[m]].resourceID == r then r else ""
  }

  function Summary(c: FindingCluster, f: Finding): string {
    if c.totalCount > 1 then
      Decimal(c.totalCount) + " related " + c.commonCategory + " findings" +
      (if c.commonResource != "" then " for " + c.commonResource else "")
    else f.title
  }

  ghost predicate Increasing(members: seq<nat>) {
    forall i, j :: 0 <= i < j < |members| ==> members[i] < members[j]
  }

  function Places(members: seq<nat>): set<nat> {
    set k | k in members
  }

  // The ids of the findings at these places.
  ghost predicate MarksExactly(clustered: set<string>, active: seq<Finding>, taken: set<nat>) {
    forall k :: 0 <= k < |active| ==> (active[k].id in clustered <==> k in taken)
  }

  // One more finding in the cluster led by f.
  function Absorbed(c: FindingCluster, f: Finding, other: Finding): FindingCluster {
    c.(relatedIDs := c.relatedIDs + [other.id], totalCount := c.totalCount + 1,
       commonResource := if other.resourceID != f.resourceID then "" else c.commonResource,
       highestSeverity := if SeverityOrder(other.severity) > SeverityOrder(c.highestSeverity) then other.severity else c.highestSeverity)
  }

  lemma AbsorbedHighest(severity: string, active: seq<Finding>, members: seq<nat>, j: nat)
    requires InRange(active, members) && j < |active| && HighestAmong(severity, active, members)
    ensures InRange(active, members + [j])
    ensures HighestAmong(if SeverityOrder(active[j].severity) > SeverityOrder(severity) then active[j].severity else severity,
                         active, members + [j])
  {
    var more := members + [j];
    var m :| 0 <= m < |members| && active[members[m]].severity == severity;
    assert active[more[m]].severity == severity && active[more[|members|]].severity == active[j].severity;
  }

  lemma AbsorbedCommon(resource: string, active: seq<Finding>, members: seq<nat>, j: nat)
    requires InRange(active, members) && j < |active| && CommonAmong(resource, active, members)
    ensures InRange(active, members + [j])
    ensures CommonAmong(if active[j].resourceID != active[members[0]].resourceID then "" else resource, active, members + [j])
  {
    var more := members + [j];
    assert active[more[|members|]].resourceID == active[j].resourceID;
    assert forall m :: 0 <= m < |members| ==> more[m] == members[m];
  }

  lemma AbsorbedDescribes(c: FindingCluster, active: seq<Finding>, members: seq<nat>, j: nat)
    requires DescribesButSummary(c, active, members) && j < |active|
    ensures DescribesButSummary(Absorbed(c, active[members[0]], active[j]), active, members + [j])
  {
    AbsorbedHighest(c.highestSeverity, active, members, j);
    AbsorbedCommon(c.commonResource, active, members, j);
  }

  // The places similar enough to the leader, among the first n that are not taken.
  ghost predicate CollectedUpTo(members: seq<nat>, active: seq<Finding>, i: nat, n: nat, sim: (Finding, Finding) -> real,
                                minSimilarity: real, taken: set<nat>)
    requires i < |active| && n <= |active|
  {
    |members| > 0 && members[0] == i && Increasing(members) &&
    (forall k: nat :: k in members <==> k == i || (k < n && k !in taken && sim(active[i], active[k]) >= minSimilarity))
  }

  lemma CollectOneMore(members: seq<nat>, active: seq<Finding>, i: nat, n: nat, sim: (Finding, Finding) -> real,
                       minSimilarity: real, taken: set<nat>)
    requires i < |active| && n < |active| && CollectedUpTo(members, active, i, n, sim, minSimilarity, taken)
    requires forall k :: 0 <= k < i ==> k in taken
    ensures CollectedUpTo(if n != i && n !in taken && sim(active[i], active[n]) >= minSimilarity then members + [n] else members,
                          active, i, n + 1, sim, minSimilarity, taken)
  {
    if n != i && n !in taken && sim(active[i], active[n]) >= minSimilarity {
      forall k | 0 <= k < |members| ensures members[k] < n {
        assert members[k] in members;
      }
    }
  }

  // During the scan, an id not marked belongs to a place not taken before.
  lemma FreshMeans(clustered: set<string>, active: seq<Finding>, taken: set<nat>, members: seq<nat>, i: nat, j: nat)
    requires i < |active| && j < |active| && DistinctIds(active) && members != [] && members[0] == i
    requires MarksExactly(clustered, active, taken + Places(members))
    requires j in members ==> j == i || j in taken
    ensures j != i && j !in taken <==> !(active[j].id == active[i].id || active[j].id in clustered)
  {
  }

  lemma MarkOneMore(clustered: set<string>, active: seq<Finding>, taken: set<nat>, members: seq<nat>, j: nat)
    requires DistinctIds(active) && j < |active| && MarksExactly(clustered, active, taken + Places(members))
    ensures MarksExactly(clustered + {active[j].id}, active, taken + Places(members + [j]))
  {
    forall k | 0 <= k < |active|
      ensures active[k].id in clustered + {active[j].id} <==> k in taken + Places(members + [j])
    {
      assert active[k].id in clustered <==> k in taken + Places(members);
      assert active[k].id == active[j].id <==> k == j;
    }
  }

  function Seed(f: Finding): FindingCluster
    requires |f.id| >= 8
  {
    FindingCluster("cluster-" + f.id[..8], f.id, [], f.category, f.resourceID, "", f.severity, 1)
  }

  lemma SeedDescribes(active: seq<Finding>, i: nat, sim: (Finding, Finding) -> real, minSimilarity: real,
                      already: set<string>, taken: set<nat>)
    requires i < |active| && DistinctIds(active) && |active[i].id| >= 8 && MarksExactly(already, active, taken)
    ensures DescribesButSummary(Seed(active[i]), active, [i])
    ensures CollectedUpTo([i], active, i, 0, sim, minSimilarity, taken)
    ensures MarksExactly(already + {active[i].id}, active, taken + Places([i]))
  {
    var members: seq<nat> := [i];
    assert active[members[0]].severity == active[i].severity;
    MarkOneMore(already, active, taken, [], i);
    assert [] + [i] == members;
  }

  method Absorb(c: FindingCluster, f: Finding, other: Finding) returns (cluster: FindingCluster)
    ensures cluster == Absorbed(c, f, other)
  {
    cluster := c.(relatedIDs := c.relatedIDs + [other.id]);
    cluster := cluster.(totalCount := cluster.totalCount + 1);
    if other.resourceID != f.resourceID {
      cluster := cluster.(commonResource := "");
    }
    if SeverityOrder(other.severity) > SeverityOrder(cluster.highestSeverity) {
      cluster := cluster.(highestSeverity := other.severity);
    }
  }

  method Summarize(c: FindingCluster, f: Finding) returns (cluster: FindingCluster)
    ensures cluster == c.(summary := Summary(c, f))
  {
    if c.totalCount > 1 {
      cluster := c.(summary := Decimal(c.totalCount) + " related " + c.commonCategory + " findings");
      if cluster.commonResource != "" {
        cluster := cluster.(summary := cluster.summary + " for " + cluster.commonResource);
      }
    } else {
      cluster := c.(summary := f.title);
    }
    assert cluster == c.(summary := Summary(c, f));
  }

  // One cluster: the finding at i and every finding not taken yet that is similar to it.
  method BuildCluster(active: seq<Finding>, i: nat, sim: (Finding, Finding) -> real, minSimilarity: real,
                      already: set<string>, ghost taken: set<nat>)
    returns (cluster: FindingCluster, clustered: set<string>, ghost members: seq<nat>)
    requires i < |active| && DistinctIds(active) && |active[i].id| >= 8
    requires i !in taken && (forall k :: 0 <= k < i ==> k in taken) && MarksExactly(already, active, taken)
    ensures Describes(cluster, active, members)
    ensures CollectedUpTo(members, active, i, |active|, sim, minSimilarity, taken)
    ensures MarksExactly(clustered, active, taken + Places(members))
  {
    var f := active[i];
    SeedDescribes(active, i, sim, minSimilarity, already, taken);
    cluster := FindingCluster("cluster-" + f.id[..8], f.id, [], f.category, f.resourceID, "", f.severity, 1);
    clustered := already + {f.id};
    members := [i];
    for j := 0 to |active|
      invariant DescribesButSummary(cluster, active, members)
      invariant CollectedUpTo(members, active, i, j, sim, minSimilarity, taken)
      invariant MarksExactly(clustered, active, taken + Places(members))
    {
      var other := active[j];
      CollectOneMore(members, active, i, j, sim, minSimilarity, taken);
      FreshMeans(clustered, active, taken, members, i, j);
      if other.id == f.id || other.id in clustered {
        continue;
      }
      var similarity := sim(f, other);
      if similarity >= minSimilarity {
        AbsorbedDescribes(cluster, active, members, j);
        MarkOneMore(clustered, active, taken, members, j);
        cluster := Absorb(cluster, f, other);
        clustered := clustered + {other.id};
        members := members + [j];
      }
    }
    ghost var unsummarized := cluster;
    cluster := Summarize(cluster, f);
    assert DescribesButSummary(cluster, active, members) by {
      assert DescribesButSummary(unsummarized, active, members);
    }
  }

  // ----- all clusters -----

  // Place k belongs to the cluster of leader c: similar enough to it, and to no earlier one.
  ghost predicate Belongs(active: seq<Finding>, leaders: seq<nat>, sim: (Finding, Finding) -> real, minSimilarity: real,
                          k: nat, c: nat)
    requires k < |active| && c < |leaders| && forall d :: 0 <= d < |leaders| ==> leaders[d] < |active|
  {
    (k == leaders[c] || sim(active[leaders[c]], active[k]) >= minSimilarity) &&
    (forall d :: 0 <= d < c ==> sim(active[leaders[d]], active[k]) < minSimilarity)
  }

  function Total(clusters: seq<FindingCluster>): nat {
    if clusters == [] then 0 else Total(clusters[..|clusters| - 1]) + clusters[|clusters| - 1].totalCount
  }

  ghost predicate AllDescribed(clusters: seq<FindingCluster>, active: seq<Finding>, members: seq<seq<nat>>) {
    |clusters| == |members| &&
    forall c :: 0 <= c < |clusters| ==> Describes(clusters[c], active, members[c]) && Increasing(members[c])
  }

  predicate LeadersOf(leaders: seq<nat>, members: seq<seq<nat>>, active: seq<Finding>) {
    |leaders| == |members| && forall d :: 0 <= d < |leaders| ==> members[d] != [] && members[d][0] == leaders[d] < |active|
  }

  // Each place so far has one owner, and is listed by that cluster alone.
  ghost predicate OwnedOnce(owner: map<nat, nat>, members: seq<seq<nat>>) {
    forall d, k: nat :: 0 <= d < |members| ==> (k in members[d] <==> k in owner && owner[k] == d)
  }

  ghost predicate OwnedGreedily(owner: map<nat, nat>, active: seq<Finding>, leaders: seq<nat>, sim: (Finding, Finding) -> real,
                                minSimilarity: real)
    requires forall d :: 0 <= d < |leaders| ==> leaders[d] < |active|
  {
    (forall k: nat :: k in owner ==>
      k < |active| && owner[k] < |leaders| && Belongs(active, leaders, sim, minSimilarity, k, owner[k])) &&
    (forall k: nat, d :: k < |active| && k !in owner && 0 <= d < |leaders| ==>
      sim(active[leaders[d]], active[k]) < minSimilarity)
  }

  function OwnMore(owner: map<nat, nat>, more: seq<nat>, c: nat): (o: map<nat, nat>)
    ensures o.Keys == owner.Keys + Places(more)
  {
    owner + (map k | k in more :: c)
  }

  lemma OneMoreOwner(owner: map<nat, nat>, active: seq<Finding>, leaders: seq<nat>, sim: (Finding, Finding) -> real,
                     minSimilarity: real, i: nat, more: seq<nat>)
    requires forall d :: 0 <= d < |leaders| ==> leaders[d] < |active|
    requires OwnedGreedily(owner, active, leaders, sim, minSimilarity)
    requires i < |active| && i !in owner && InRange(active, more)
    requires CollectedUpTo(more, active, i, |active|, sim, minSimilarity, owner.Keys)
    ensures OwnedGreedily(OwnMore(owner, more, |leaders|), active, leaders + [i], sim, minSimilarity)
  {
    var o := OwnMore(owner, more, |leaders|);
    forall k: nat | k in o
      ensures k < |active| && o[k] < |leaders + [i]| && Belongs(active, leaders + [i], sim, minSimilarity, k, o[k])
    {
      if k in more {
        assert k !in owner;
      } else {
        assert Belongs(active, leaders, sim, minSimilarity, k, owner[k]);
      }
    }
  }

  lemma OneMoreOwnedOnce(owner: map<nat, nat>, members: seq<seq<nat>>, more: seq<nat>)
    requires OwnedOnce(owner, members) && (forall k :: k in more ==> k !in owner)
    requires forall k :: k in owner ==> owner[k] < |members|
    ensures OwnedOnce(OwnMore(owner, more, |members|), members + [more])
  {
  }

  lemma {:induction false} IncreasingSize(members: seq<nat>)
    requires Increasing(members)
    ensures |Places(members)| == |members|
  {
    if members != [] {
      var n := |members| - 1;
      var last := members[n];
      IncreasingSize(members[..n]);
      PlacesOfLast(members);
      assert last !in Places(members[..n]);
    }
  }

  lemma PlacesOfLast(members: seq<nat>)
    requires members != []
    ensures Places(members) == Places(members[..|members| - 1]) + {members[|members| - 1]}
  {
    assert members == members[..|members| - 1] + [members[|members| - 1]];
  }

  lemma {:induction false} FullSize(taken: set<nat>, n: nat)
    requires forall k: nat :: k in taken <==> k < n
    ensures |taken| == n
  {
    if n == 0 {
      assert taken == {};
    } else {
      FullSize(taken - {n - 1}, n - 1);
      assert taken == (taken - {n - 1}) + {n - 1};
    }
  }

  // The clusters so far, the places each one lists, its leader, and who owns each place.
  datatype Clustering = Clustering(clusters: seq<FindingCluster>, members: seq<seq<nat>>, leaders: seq<nat>, owner: map<nat, nat>)

  function Extended(g: Clustering, i: nat, cluster: FindingCluster, more: seq<nat>): Clustering {
    Clustering(g.clusters + [cluster], g.members + [more], g.leaders + [i], OwnMore(g.owner, more, |g.members|))
  }

  // They describe their members, everything taken has one owner, and the totals count
  // what is taken.
  ghost predicate Progress(g: Clustering, active: seq<Finding>, sim: (Finding, Finding) -> real, minSimilarity: real) {
    AllDescribed(g.clusters, active, g.members) && LeadersOf(g.leaders, g.members, active) && OwnedOnce(g.owner, g.members) &&
    OwnedGreedily(g.owner, active, g.leaders, sim, minSimilarity) && Total(g.clusters) == |g.owner|
  }

  lemma OneMoreDescribed(clusters: seq<FindingCluster>, active: seq<Finding>, members: seq<seq<nat>>, leaders: seq<nat>,
                         cluster: FindingCluster, more: seq<nat>)
    requires AllDescribed(clusters, active, members) && LeadersOf(leaders, members, active)
    requires Describes(cluster, active, more) && Increasing(more)
    ensures AllDescribed(clusters + [cluster], active, members + [more])
    ensures LeadersOf(leaders + [more[0]], members + [more], active)
  {
  }

  lemma OneMoreTotal(clusters: seq<FindingCluster>, owner: map<nat, nat>, cluster: FindingCluster, more: seq<nat>, c: nat)
    requires Total(clusters) == |owner| && cluster.totalCount == |more| && Increasing(more)
    requires forall k :: k in more ==> k !in owner
    ensures Total(clusters + [cluster]) == |OwnMore(owner, more, c)|
  {
    IncreasingSize(more);
    assert owner.Keys !! Places(more);
    assert |OwnMore(owner, more, c).Keys| == |owner.Keys| + |Places(more)|;
    assert (clusters + [cluster])[..|clusters|] == clusters;
  }

  lemma OneMoreCluster(g: Clustering, active: seq<Finding>, sim: (Finding, Finding) -> real, minSimilarity: real,
                       i: nat, cluster: FindingCluster, more: seq<nat>)
    requires Progress(g, active, sim, minSimilarity)
    requires i < |active| && i !in g.owner && Describes(cluster, active, more)
    requires CollectedUpTo(more, active, i, |active|, sim, minSimilarity, g.owner.Keys)
    ensures Progress(Extended(g, i, cluster, more), active, sim, minSimilarity)
  {
    assert forall k :: k in more ==> k !in g.owner;
    OneMoreDescribed(g.clusters, active, g.members, g.leaders, cluster, more);
    OneMoreOwner(g.owner, active, g.leaders, sim, minSimilarity, i, more);
    OneMoreOwnedOnce(g.owner, g.members, more);
    OneMoreTotal(g.clusters, g.owner, cluster, more, |g.members|);
  }

  // The state of the outer loop before the finding at i.
  ghost predicate Running(g: Clustering, active: seq<Finding>, sim: (Finding, Finding) -> real, minSimilarity: real,
                          clustered: set<string>, i: nat)
  {
    Progress(g, active, sim, minSimilarity) && MarksExactly(clustered, active, g.owner.Keys) &&
    forall k :: 0 <= k < i ==> k in g.owner
  }

  lemma Advance(g: Clustering, active: seq<Finding>, sim: (Finding, Finding) -> real, minSimilarity: real,
                clustered: set<string>, i: nat, cluster: FindingCluster, marked: set<string>, more: seq<nat>)
    requires Running(g, active, sim, minSimilarity, clustered, i) && i < |active| && i !in g.owner
    requires Describes(cluster, active, more)
    requires CollectedUpTo(more, active, i, |active|, sim, minSimilarity, g.owner.Keys)
    requires MarksExactly(marked, active, g.owner.Keys + Places(more))
    ensures Running(Extended(g, i, cluster, more), active, sim, minSimilarity, marked, i + 1)
  {
    OneMoreCluster(g, active, sim, minSimilarity, i, cluster, more);
    assert Extended(g, i, cluster, more).owner.Keys == g.owner.Keys + Places(more);
    assert i in more;
  }

  const NoClusters := Clustering([], [], [], map[])

  lemma Starts(active: seq<Finding>, sim: (Finding, Finding) -> real, minSimilarity: real)
    ensures Running(NoClusters, active, sim, minSimilarity, {}, 0)
  {
  }

  lemma Skip(g: Clustering, active: seq<Finding>, sim: (Finding, Finding) -> real, minSimilarity: real,
             clustered: set<string>, i: nat)
    requires Running(g, active, sim, minSimilarity, clustered, i) && i < |active|
    ensures active[i].id in clustered <==> i in g.owner
    ensures active[i].id in clustered ==> Running(g, active, sim, minSimilarity, clustered, i + 1)
    ensures forall k :: 0 <= k < i ==> k in g.owner
    ensures MarksExactly(clustered, active, g.owner.Keys)
  {
  }

  lemma Finished(g: Clustering, active: seq<Finding>, sim: (Finding, Finding) -> real, minSimilarity: real, clustered: set<string>)
    requires Running(g, active, sim, minSimilarity, clustered, |active|)
    ensures (forall k: nat :: k in g.owner <==> k < |active|) && Total(g.clusters) == |active|
  {
    FullSize(g.owner.Keys, |active|);
  }

  // Whatever the order of the findings, each one is in exactly one cluster: the one of
  // the first leader it is similar enough to. The totals add up to the number of findings.
  method ClusterAll(active: seq<Finding>, sim: (Finding, Finding) -> real, minSimilarity: real)
    returns (clusters: seq<FindingCluster>, ghost g: Clustering)
    requires DistinctIds(active) && forall k :: 0 <= k < |active| ==> |active[k].id| >= 8
    ensures g.clusters == clusters && Progress(g, active, sim, minSimilarity)
    ensures (forall k: nat :: k in g.owner <==> k < |active|) && Total(clusters) == |active|
  {
    var clustered: set<string> := {};
    clusters := [];
    g := NoClusters;
    Starts(active, sim, minSimilarity);
    for i := 0 to |active|
      invariant g.clusters == clusters && Running(g, active, sim, minSimilarity, clustered, i)
    {
      Skip(g, active, sim, minSimilarity, clustered, i);
      if active[i].id in clustered {
        continue;
      }
      ghost var before := clustered;
      ghost var more: seq<nat>;
      var cluster: FindingCluster;
      cluster, clustered, more := BuildCluster(active, i, sim, minSimilarity, clustered, g.owner.Keys);
      Advance(g, active, sim, minSimilarity, before, i, cluster, clustered, more);
      clusters := clusters + [cluster];
      g := Extended(g, i, cluster, more);
    }
    Finished(g, active, sim, minSimilarity, clustered);
  }

  // No two active findings have one id.
  ghost predicate DistinctlyNamed(findings: map<string, Finding>, now: Time) {
    forall a, b :: a in findings && b in findings && a != b && findings[a].IsActive(now) && findings[b].IsActive(now) ==>
      findings[a].id != findings[b].id
  }

  // The active findings, in map order.
  method CollectActive(findings: map<string, Finding>, now: Time) returns (active: seq<Finding>)
    requires DistinctlyNamed(findings, now)
    ensures DistinctIds(active)
    ensures forall f :: f in active <==> exists id :: id in findings && findings[id] == f && f.IsActive(now)
  {
    active := [];
    var todo := findings.Keys;
    while todo != {}
      invariant todo <= findings.Keys && DistinctIds(active)
      invariant forall f :: f in active <==> exists id :: id in findings && id !in todo && findings[id] == f && f.IsActive(now)
      decreases todo
    {
      var id :| id in todo;
      todo := todo - {id};
      if findings[id].IsActive(now) {
        forall f | f in active ensures f.id != findings[id].id {
          var k :| k in findings && k !in todo + {id} && findings[k] == f && f.IsActive(now);
        }
        assert forall k :: 0 <= k < |active| ==> active[k] in active;
        active := active + [findings[id]];
      }
    }
  }

  method GetFindingClusters(findings: map<string, Finding>, minSimilarity: real, now: Time)
    returns (clusters: seq<FindingCluster>, ghost active: seq<Finding>, ghost g: Clustering)
    requires DistinctlyNamed(findings, now)
    requires forall id :: id in findings && findings[id].IsActive(now) ==> |findings[id].id| >= 8
    ensures DistinctIds(active)
    ensures forall f :: f in active <==> exists id :: id in findings && findings[id] == f && f.IsActive(now)
    ensures g.clusters == clusters && Progress(g, active, SemanticSimilarity, minSimilarity)
    ensures (forall k: nat :: k in g.owner <==> k < |active|) && Total(clusters) == |active|
  {
    var activeFindings := CollectActive(findings, now);
    active := activeFindings;
    assert forall k :: 0 <= k < |active| ==> active[k] in active;
    clusters, g := ClusterAll(activeFindings, SemanticSimilarity, minSimilarity);
  }

  lemma LeaderBelongs(g: Clustering, active: seq<Finding>, sim: (Finding, Finding) -> real, minSimilarity: real, c: nat)
    requires Progress(g, active, sim, minSimilarity) && c < |g.leaders|
    ensures g.leaders[c] < |active|
    ensures forall d :: 0 <= d < c ==> g.leaders[d] < |active| && sim(active[g.leaders[d]], active[g.leaders[c]]) < minSimilarity
  {
    assert g.leaders[c] in g.members[c];
    assert g.leaders[c] in g.owner && g.owner[g.leaders[c]] == c;
    assert Belongs(active, g.leaders, sim, minSimilarity, g.leaders[c], c);
  }

  // Leaders of different clusters are dissimilar, in either direction.
  lemma LeadersAreDissimilar(g: Clustering, active: seq<Finding>, minSimilarity: real, c: nat, d: nat)
    requires Progress(g, active, SemanticSimilarity, minSimilarity)
    requires c < |g.leaders| && d < |g.leaders| && c != d
    ensures SemanticSimilarity(active[g.leaders[c]], active[g.leaders[d]]) < minSimilarity
  {
    LeaderBelongs(g, active, SemanticSimilarity, minSimilarity, c);
    LeaderBelongs(g, active, SemanticSimilarity, minSimilarity, d);
    SimilarityIsSymmetricAndBounded(active[g.leaders[c]], active[g.leaders[d]]);
  }

  predicate Mentions(c: FindingCluster, id: string) {
    id == c.primaryFindingID || id in c.relatedIDs
  }

  lemma MentionedIsMember(c: FindingCluster, active: seq<Finding>, members: seq<nat>, k: nat)
    requires DistinctIds(active) && Describes(c, active, members) && k < |active|
    ensures Mentions(c, active[k].id) <==> k in members
  {
    if k in members {
      var m :| 0 <= m < |members| && members[m] == k;
      assert m > 0 ==> c.relatedIDs[m - 1] == active[k].id;
    }
    if active[k].id in c.relatedIDs {
      var m :| 0 <= m < |c.relatedIDs| && c.relatedIDs[m] == active[k].id;
      assert members[m + 1] == k;
    }
  }

  // In the clusters handed out, each active finding's id is named by exactly one.
  lemma NamedByOneCluster(g: Clustering, active: seq<Finding>, sim: (Finding, Finding) -> real, minSimilarity: real, k: nat)
    requires DistinctIds(active) && Progress(g, active, sim, minSimilarity) && k < |active| && k in g.owner
    ensures g.owner[k] < |g.clusters|
    ensures forall c :: 0 <= c < |g.clusters| ==> (Mentions(g.clusters[c], active[k].id) <==> c == g.owner[k])
  {
    forall c | 0 <= c < |g.clusters| ensures Mentions(g.clusters[c], active[k].id) <==> c == g.owner[k] {
      MentionedIsMember(g.clusters[c], active, g.members[c], k);
    }
  }

  // A cluster of several findings is summed up by their number, their category and, when all
  // are on one, their resource; a single finding by its title.
  lemma SummaryReads(c: FindingCluster, active: seq<Finding>, members: seq<nat>)
    requires Describes(c, active, members)
    ensures |members| == 1 ==> c.summary == active[members[0]].title
    ensures |members| > 1 ==>
      var all := Decimal(|members|) + " related " + active[members[0]].category + " findings";
      if active[members[0]].resourceID != "" &&
        forall m :: 0 <= m < |members| ==> active[members[m]].resourceID == active[members[0]].resourceID
      then c.summary == all + " for " + active[members[0]].resourceID
      else c.summary == all
  {
    var all := Decimal(|members|) + " related " + active[members[0]].category + " findings";
    assert all + "" == all;
    assert all + (" for " + c.commonResource) == all + " for " + c.commonResource;
  }
}
