// Sequences of store operations, in any order and at any times: the index agrees with the
// map, and the store remembers what the user dismissed.
module FindingsStoreRuns {
  import opened Prelude
  import opened Findings
  import opened FindingsStore

  // One locked section each; AddWithDeduplication is an Add or a Merge, and anything may
  // run between its two sections.
  datatype Op =
    | Add(f: Finding)
    | Merge(id: string, f: Finding)
    | Resolve(id: string, auto: bool, because: Option<string>)
    | Acknowledge(id: string)
    | Snooze(id: string, duration: int)
    | Unsnooze(id: string)
    | Dismiss(id: string, reason: string, note: string)
    | Undismiss(id: string)
    | Suppress(id: string, ruleID: string)
    | AddRule(ruleID: string, rule: SuppressionRule)
    | DeleteRule(ruleID: string)
    | Cleanup(maxAge: int, order: seq<string>)
    | ClearAll

  datatype Event = Event(now: Time, op: Op)

  ghost function Apply(s: Store, now: Time, op: Op): Store {
    match op
    case Add(f) => Added(s, f, now).0
    case Merge(id, f) => MergedInto(s, id, f, now)
    case Resolve(id, auto, reason) => Resolved(s, id, auto, reason, now).0
    case Acknowledge(id) => Acknowledged(s, id, now).0
    case Snooze(id, duration) => Snoozed(s, id, duration, now).0
    case Unsnooze(id) => Unsnoozed(s, id).0
    case Dismiss(id, reason, note) => Dismissed(s, id, reason, note, now).0
    case Undismiss(id) => Undismissed(s, id).0
    case Suppress(id, ruleID) => Suppressed(s, id, ruleID, now).0
    case AddRule(ruleID, rule) => RuleAdded(s, ruleID, rule)
    case DeleteRule(ruleID) => RuleDeleted(s, ruleID).0
    case Cleanup(maxAge, order) => if Enumerates(order, StaleIds(s, maxAge, now)) then WithoutAll(s, order) else s
    case ClearAll => Store(map[], map[], s.rules)
  }

  ghost function Run(s: Store, events: seq<Event>): Store {
    if events == [] then s
    else Apply(Run(s, events[..|events| - 1]), events[|events| - 1].now, events[|events| - 1].op)
  }

  // ----- the index -----

  // Every stored id occurs once, under its finding's resource, and nowhere else.
  ghost predicate IndexInv(s: Store) {
    (forall r :: NoDup(Ids(s.byResource, r))) &&
    (forall r, id :: id in Ids(s.byResource, r) <==> id in s.findings && s.findings[id].resourceID == r)
  }

  predicate SamePlace(f: Finding, g: Finding) {
    g.id == f.id && g.resourceID == f.resourceID && g.category == f.category
  }

  // The same findings, each where it was.
  ghost predicate SamePlaces(s: Store, t: Store) {
    t.byResource == s.byResource && t.findings.Keys == s.findings.Keys &&
    forall id :: id in s.findings ==> SamePlace(s.findings[id], t.findings[id])
  }

  lemma SamePlacesSameIndex(s: Store, t: Store)
    requires IndexInv(s) && SamePlaces(s, t)
    ensures IndexInv(t)
  {
    forall r ensures Ids(t.byResource, r) == Ids(s.byResource, r) {
    }
  }

  lemma AppendedIds(byResource: map<string, seq<string>>, r: string, id: string, q: string)
    ensures Ids(byResource[r := Ids(byResource, r) + [id]], q) ==
      if q == r then Ids(byResource, r) + [id] else Ids(byResource, q)
  {
  }

  lemma NewFindingKeepsIndex(s: Store, id: string, f: Finding)
    requires IndexInv(s) && id !in s.findings
    ensures IndexInv(LoadedOne(s, id, f))
  {
    forall q ensures Ids(LoadedOne(s, id, f).byResource, q) ==
      if q == f.resourceID then Ids(s.byResource, f.resourceID) + [id] else Ids(s.byResource, q)
    {
      AppendedIds(s.byResource, f.resourceID, id, q);
    }
    assert id !in Ids(s.byResource, f.resourceID);
  }

  lemma IdsWithout(s: Store, id: string, q: string)
    requires id in s.findings
    ensures Ids(Without(s, id).byResource, q) ==
      if q == s.findings[id].resourceID then RemoveFirst(Ids(s.byResource, q), id) else Ids(s.byResource, q)
  {
    if id !in Ids(s.byResource, q) {
      RemovedAt(Ids(s.byResource, q), id, |Ids(s.byResource, q)|);
    }
  }

  lemma RemovalKeepsIndex(s: Store, id: string)
    requires IndexInv(s) && id in s.findings
    ensures IndexInv(Without(s, id))
  {
    var t := Without(s, id);
    forall q
      ensures NoDup(Ids(t.byResource, q))
      ensures forall x :: x in Ids(t.byResource, q) <==> x in t.findings && t.findings[x].resourceID == q
    {
      IdsWithout(s, id, q);
      assert NoDup(Ids(s.byResource, q));
      RemoveFirstMeans(Ids(s.byResource, q), id);
      if q != s.findings[id].resourceID {
        assert id !in Ids(s.byResource, q);
      }
    }
  }

  lemma {:induction false} RemovalsKeepIndex(s: Store, order: seq<string>)
    requires IndexInv(s)
    requires forall i :: 0 <= i < |order| ==> order[i] in s.findings
    requires forall i, j :: 0 <= i < j < |order| ==> order[i] != order[j]
    ensures IndexInv(WithoutAll(s, order))
  {
    if order != [] {
      RemovalsKeepIndex(s, order[..|order| - 1]);
      RemovalKeepsIndex(WithoutAll(s, order[..|order| - 1]), order[|order| - 1]);
    }
  }

  // ----- the sections that only touch one known finding, and perhaps the rules -----

  lemma PutKeepsPlaces(s: Store, id: string, f: Finding)
    requires id in s.findings && SamePlace(s.findings[id], f)
    ensures SamePlaces(s, Put(s, id, f))
  {
  }

  lemma MergeKeepsPlaces(s: Store, id: string, f: Finding, now: Time)
    ensures SamePlaces(s, MergedInto(s, id, f, now)) && MergedInto(s, id, f, now).rules == s.rules
  {
    if id in s.findings { PutKeepsPlaces(s, id, Folded(s.findings[id], f, now)); }
  }

  lemma ResolveKeepsPlaces(s: Store, id: string, auto: bool, reason: Option<string>, now: Time)
    ensures SamePlaces(s, Resolved(s, id, auto, reason, now).0) && Resolved(s, id, auto, reason, now).0.rules == s.rules
  {
    var t := Resolved(s, id, auto, reason, now);
    if t.1 { PutKeepsPlaces(s, id, t.0.findings[id]); }
  }

  lemma AcknowledgeKeepsPlaces(s: Store, id: string, now: Time)
    ensures SamePlaces(s, Acknowledged(s, id, now).0) && Acknowledged(s, id, now).0.rules == s.rules
  {
    var t := Acknowledged(s, id, now);
    if t.1 { PutKeepsPlaces(s, id, t.0.findings[id]); }
  }

  lemma SnoozeKeepsPlaces(s: Store, id: string, duration: int, now: Time)
    ensures SamePlaces(s, Snoozed(s, id, duration, now).0) && Snoozed(s, id, duration, now).0.rules == s.rules
    ensures SamePlaces(s, Unsnoozed(s, id).0) && Unsnoozed(s, id).0.rules == s.rules
  {
    var t := Snoozed(s, id, duration, now);
    if t.1 {
      PutKeepsPlaces(s, id, t.0.findings[id]);
      PutKeepsPlaces(s, id, Unsnoozed(s, id).0.findings[id]);
    }
  }

  lemma DismissKeepsPlaces(s: Store, id: string, reason: string, note: string, now: Time)
    ensures SamePlaces(s, Dismissed(s, id, reason, note, now).0) && Dismissed(s, id, reason, note, now).0.rules == s.rules
  {
    var t := Dismissed(s, id, reason, note, now);
    if t.1 { PutKeepsPlaces(s, id, t.0.findings[id]); }
  }

  lemma UndismissKeepsPlaces(s: Store, id: string)
    ensures SamePlaces(s, Undismissed(s, id).0)
  {
    var t := Undismissed(s, id);
    if t.1 { PutKeepsPlaces(s, id, t.0.findings[id]); }
  }

  lemma SuppressKeepsPlaces(s: Store, id: string, ruleID: string, now: Time)
    ensures SamePlaces(s, Suppressed(s, id, ruleID, now).0)
    ensures forall r :: r != ruleID && r in s.rules ==>
      r in Suppressed(s, id, ruleID, now).0.rules && Suppressed(s, id, ruleID, now).0.rules[r] == s.rules[r]
  {
    var t := Suppressed(s, id, ruleID, now);
    if t.1 { PutKeepsPlaces(s, id, t.0.findings[id]); }
  }

  lemma DeleteRuleKeepsPlaces(s: Store, ruleID: string)
    ensures SamePlaces(s, RuleDeleted(s, ruleID).0)
    ensures RuleDeleted(s, ruleID).0.rules == s.rules - {ruleID}
  {
    if ruleID !in s.rules {
      assert s.rules - {ruleID} == s.rules;
      if FINDING_RULE <= ruleID {
        var id := ruleID[|FINDING_RULE|..];
        if id in s.findings { PutKeepsPlaces(s, id, RuleDeleted(s, ruleID).0.findings[id]); }
      }
    }
  }

  // Everything but new findings and removals.
  predicate Touches(op: Op) {
    !op.Add? && !op.Cleanup? && !op.ClearAll?
  }

  lemma ApplyKeepsPlaces(s: Store, now: Time, op: Op)
    requires Touches(op)
    ensures SamePlaces(s, Apply(s, now, op))
  {
    match op
    case Merge(id, f) => MergeKeepsPlaces(s, id, f, now);
    case Resolve(id, auto, reason) => ResolveKeepsPlaces(s, id, auto, reason, now);
    case Acknowledge(id) => AcknowledgeKeepsPlaces(s, id, now);
    case Snooze(id, duration) => SnoozeKeepsPlaces(s, id, duration, now);
    case Unsnooze(id) => SnoozeKeepsPlaces(s, id, 0, now);
    case Dismiss(id, reason, note) => DismissKeepsPlaces(s, id, reason, note, now);
    case Undismiss(id) => UndismissKeepsPlaces(s, id);
    case Suppress(id, ruleID) => SuppressKeepsPlaces(s, id, ruleID, now);
    case AddRule(ruleID, rule) =>
    case DeleteRule(ruleID) => DeleteRuleKeepsPlaces(s, ruleID);
    case _ =>
  }

  lemma ReportedKeepsPlace(known: Finding, f: Finding, now: Time)
    ensures SamePlace(known, Reported(known, f, now))
  {
  }

  lemma NewKeepsId(g: Finding, now: Time)
    ensures WithType(g).id == g.id && Stamped(WithType(g), now).id == g.id
  {
  }

  lemma ReportKeepsPlaces(s: Store, g: Finding, now: Time)
    requires g.id in s.findings
    ensures SamePlaces(s, Added(s, g, now).0) && Added(s, g, now).0.rules == s.rules
  {
    NewKeepsId(g, now);
    ReportedKeepsPlace(s.findings[g.id], WithType(g), now);
    PutKeepsPlaces(s, g.id, Reported(s.findings[g.id], WithType(g), now));
  }

  lemma AddKeepsIndex(s: Store, g: Finding, now: Time)
    requires IndexInv(s)
    ensures IndexInv(Added(s, g, now).0)
  {
    NewKeepsId(g, now);
    var f := WithType(g);
    if g.id in s.findings {
      ReportKeepsPlaces(s, g, now);
      SamePlacesSameIndex(s, Added(s, g, now).0);
    } else if !IsSuppressed(s.rules, f.resourceID, f.category) {
      NewFindingKeepsIndex(s, f.id, Stamped(f, now));
    }
  }

  lemma ApplyKeepsIndex(s: Store, now: Time, op: Op)
    requires IndexInv(s)
    ensures IndexInv(Apply(s, now, op))
  {
    match op
    case Add(f) => AddKeepsIndex(s, f, now);
    case Cleanup(maxAge, order) =>
      if Enumerates(order, StaleIds(s, maxAge, now)) { RemovalsKeepIndex(s, order); }
    case ClearAll =>
      assert forall r :: Ids(Store(map[], map[], s.rules).byResource, r) == [];
    case _ =>
      ApplyKeepsPlaces(s, now, op);
      SamePlacesSameIndex(s, Apply(s, now, op));
  }

  // ----- findings are stored under their own ids -----

  ghost predicate KeyedById(findings: map<string, Finding>) {
    forall id :: id in findings ==> findings[id].id == id
  }

  lemma AddKeepsKeys(s: Store, g: Finding, now: Time)
    requires KeyedById(s.findings)
    ensures KeyedById(Added(s, g, now).0.findings)
  {
    NewKeepsId(g, now);
    if g.id in s.findings {
      ReportKeepsPlaces(s, g, now);
    }
  }

  lemma RemovalsKeepKeys(s: Store, order: seq<string>)
    requires KeyedById(s.findings)
    requires forall i :: 0 <= i < |order| ==> order[i] in s.findings
    requires forall i, j :: 0 <= i < j < |order| ==> order[i] != order[j]
    ensures KeyedById(WithoutAll(s, order).findings)
  {
  }

  lemma ApplyKeepsKeys(s: Store, now: Time, op: Op)
    requires KeyedById(s.findings)
    ensures KeyedById(Apply(s, now, op).findings)
  {
    match op
    case Add(f) => AddKeepsKeys(s, f, now);
    case Cleanup(maxAge, order) =>
      if Enumerates(order, StaleIds(s, maxAge, now)) { RemovalsKeepKeys(s, order); }
    case ClearAll =>
    case _ => ApplyKeepsPlaces(s, now, op);
  }

  lemma {:induction false} LoadedFindings(s: Store, loaded: map<string, Finding>, order: seq<string>, id: string)
    requires forall i :: 0 <= i < |order| ==> order[i] in loaded
    ensures var t := LoadedAll(s, loaded, order).findings;
      (id in t <==> id in order || id in s.findings) &&
      (id in t ==> t[id] == if id in order then loaded[id] else s.findings[id])
  {
    if order != [] {
      var n := |order| - 1;
      LoadedFindings(s, loaded, order[..n], id);
      assert order == order[..n] + [order[n]];
    }
  }

  lemma LoadKeepsKeys(loaded: map<string, Finding>, order: seq<string>)
    requires Enumerates(order, loaded.Keys) && KeyedById(loaded)
    ensures KeyedById(LoadedAll(EmptyStore, loaded, order).findings)
  {
    forall id | id in LoadedAll(EmptyStore, loaded, order).findings
      ensures LoadedAll(EmptyStore, loaded, order).findings[id].id == id
    {
      LoadedFindings(EmptyStore, loaded, order, id);
    }
  }

  // Findings are stored under their own ids after every run from a load of findings that
  // are filed so.
  lemma {:induction false} KeysAreIds(loaded: map<string, Finding>, order: seq<string>, events: seq<Event>)
    requires Enumerates(order, loaded.Keys) && KeyedById(loaded)
    ensures KeyedById(Run(LoadedAll(EmptyStore, loaded, order), events).findings)
  {
    if events == [] {
      LoadKeepsKeys(loaded, order);
    } else {
      KeysAreIds(loaded, order, events[..|events| - 1]);
      ApplyKeepsKeys(Run(LoadedAll(EmptyStore, loaded, order), events[..|events| - 1]), events[|events| - 1].now, events[|events| - 1].op);
    }
  }

  // ----- loading -----

  // Loading is safe exactly when none of the loaded ids is stored already.
  lemma {:induction false} LoadKeepsIndexIff(s: Store, loaded: map<string, Finding>, order: seq<string>)
    requires IndexInv(s) && Enumerates(order, loaded.Keys)
    ensures IndexInv(LoadedAll(s, loaded, order)) <==> loaded.Keys !! s.findings.Keys
  {
    if loaded.Keys !! s.findings.Keys {
      FreshLoadKeepsIndex(s, loaded, order);
    } else {
      var id :| id in loaded && id in s.findings;
      assert id in order;
      ReloadBreaksIndex(s, loaded, order, id);
    }
  }

  lemma {:induction false} FreshLoadKeepsIndex(s: Store, loaded: map<string, Finding>, order: seq<string>)
    requires IndexInv(s) && loaded.Keys !! s.findings.Keys && NoDup(order)
    requires forall i :: 0 <= i < |order| ==> order[i] in loaded
    ensures IndexInv(LoadedAll(s, loaded, order))
    ensures forall id :: id in LoadedAll(s, loaded, order).findings <==> id in s.findings || id in order
  {
    if order != [] {
      var n := |order| - 1;
      FreshLoadKeepsIndex(s, loaded, order[..n]);
      assert order[n] !in LoadedAll(s, loaded, order[..n]).findings;
      NewFindingKeepsIndex(LoadedAll(s, loaded, order[..n]), order[n], loaded[order[n]]);
      assert order == order[..n] + [order[n]];
    }
  }

  function Occurrences(ids: seq<string>, id: string): nat {
    multiset(ids)[id]
  }

  lemma DistinctOccursOnce(ids: seq<string>, id: string)
    requires NoDup(ids)
    ensures Occurrences(ids, id) <= 1
    decreases |ids|
  {
    if ids != [] {
      var n := |ids| - 1;
      assert ids == ids[..n] + [ids[n]];
      DistinctOccursOnce(ids[..n], id);
      if ids[n] == id {
        assert id !in ids[..n];
      }
    }
  }

  // Lists only grow while loading.
  lemma {:induction false} LoadOnlyAppends(s: Store, loaded: map<string, Finding>, order: seq<string>, r: string, id: string)
    requires forall i :: 0 <= i < |order| ==> order[i] in loaded
    ensures Occurrences(Ids(LoadedAll(s, loaded, order).byResource, r), id) >=
      Occurrences(Ids(s.byResource, r), id) + (if id in order && loaded[id].resourceID == r then 1 else 0)
    ensures id in order ==> id in LoadedAll(s, loaded, order).findings && LoadedAll(s, loaded, order).findings[id] == loaded[id]
  {
    if order != [] {
      var n := |order| - 1;
      var before := LoadedAll(s, loaded, order[..n]);
      LoadOnlyAppends(s, loaded, order[..n], r, id);
      assert order == order[..n] + [order[n]];
      AppendedIds(before.byResource, loaded[order[n]].resourceID, order[n], r);
      assert Occurrences(Ids(before.byResource, r) + [order[n]], id) ==
        Occurrences(Ids(before.byResource, r), id) + (if order[n] == id then 1 else 0);
    }
  }

  lemma IndexedOnce(s: Store, r: string, id: string)
    requires IndexInv(s)
    ensures Occurrences(Ids(s.byResource, r), id) == if id in s.findings && s.findings[id].resourceID == r then 1 else 0
  {
    assert NoDup(Ids(s.byResource, r));
    DistinctOccursOnce(Ids(s.byResource, r), id);
    assert id in Ids(s.byResource, r) <==> id in multiset(Ids(s.byResource, r));
  }

  lemma ReloadBreaksIndex(s: Store, loaded: map<string, Finding>, order: seq<string>, id: string)
    requires IndexInv(s) && id in s.findings && id in order
    requires forall i :: 0 <= i < |order| ==> order[i] in loaded
    ensures !IndexInv(LoadedAll(s, loaded, order))
  {
    var t := LoadedAll(s, loaded, order);
    var r := s.findings[id].resourceID;
    LoadOnlyAppends(s, loaded, order, r, id);
    IndexedOnce(s, r, id);
    if IndexInv(t) {
      IndexedOnce(t, r, id);
    }
  }

  lemma {:induction false} IndexAlwaysAgrees(loaded: map<string, Finding>, order: seq<string>, events: seq<Event>)
    requires Enumerates(order, loaded.Keys)
    ensures IndexInv(Run(LoadedAll(EmptyStore, loaded, order), events))
  {
    if events == [] {
      assert forall r :: Ids(EmptyStore.byResource, r) == [];
      LoadKeepsIndexIff(EmptyStore, loaded, order);
    } else {
      IndexAlwaysAgrees(loaded, order, events[..|events| - 1]);
      ApplyKeepsIndex(Run(LoadedAll(EmptyStore, loaded, order), events[..|events| - 1]), events[|events| - 1].now, events[|events| - 1].op);
    }
  }

  lemma {:induction false} ActiveOfMembers(findings: map<string, Finding>, ids: seq<string>, now: Time, f: Finding)
    ensures f in ActiveOf(findings, ids, now) <==>
      exists id :: id in ids && id in findings && findings[id] == f && f.IsActive(now)
  {
    if ids != [] {
      ActiveOfMembers(findings, ids[..|ids| - 1], now, f);
      assert ids == ids[..|ids| - 1] + [ids[|ids| - 1]];
    }
  }

  function ActiveIds(findings: map<string, Finding>, ids: seq<string>, now: Time): set<string> {
    set id | id in ids && id in findings && findings[id].IsActive(now)
  }

  lemma ActiveIdsAppend(findings: map<string, Finding>, ids: seq<string>, id: string, now: Time)
    requires id !in ids
    ensures var active := id in findings && findings[id].IsActive(now);
      |ActiveIds(findings, ids + [id], now)| == |ActiveIds(findings, ids, now)| + (if active then 1 else 0)
  {
    var active := id in findings && findings[id].IsActive(now);
    assert ActiveIds(findings, ids + [id], now) == ActiveIds(findings, ids, now) + if active then {id} else {};
  }

  lemma {:induction false} ActiveOfSize(findings: map<string, Finding>, ids: seq<string>, now: Time)
    requires NoDup(ids)
    ensures |ActiveOf(findings, ids, now)| == |ActiveIds(findings, ids, now)|
  {
    if ids != [] {
      var n := |ids| - 1;
      assert ids == ids[..n] + [ids[n]];
      ActiveOfSize(findings, ids[..n], now);
      ActiveIdsAppend(findings, ids[..n], ids[n], now);
    }
  }

  // What GetByResource returns is the plain filter of the map, each finding once.
  lemma GetByResourceIsTheFilter(s: Store, r: string, now: Time)
    requires IndexInv(s)
    ensures forall f :: f in ActiveOf(s.findings, Ids(s.byResource, r), now) <==>
      exists id :: id in s.findings && s.findings[id] == f && f.resourceID == r && f.IsActive(now)
    ensures |ActiveOf(s.findings, Ids(s.byResource, r), now)| ==
      |set id | id in s.findings && s.findings[id].resourceID == r && s.findings[id].IsActive(now)|
  {
    assert NoDup(Ids(s.byResource, r));
    forall f ensures f in ActiveOf(s.findings, Ids(s.byResource, r), now) <==>
      exists id :: id in Ids(s.byResource, r) && id in s.findings && s.findings[id] == f && f.IsActive(now)
    {
      ActiveOfMembers(s.findings, Ids(s.byResource, r), now, f);
    }
    ActiveOfSize(s.findings, Ids(s.byResource, r), now);
    assert ActiveIds(s.findings, Ids(s.byResource, r), now) ==
      (set id | id in s.findings && s.findings[id].resourceID == r && s.findings[id].IsActive(now));
  }

  // ----- what the store remembers -----

  function LevelAfter(level: nat, id: string, op: Op): nat {
    match op
    case Merge(i, f) => if i == id then Max(level, SeverityOrder(f.severity)) else level
    case _ => level
  }

  // The severity a silenced finding has reached: merges raise it without waking it.
  function Level(start: nat, id: string, events: seq<Event>): nat {
    if events == [] then start
    else LevelAfter(Level(start, id, events[..|events| - 1]), id, events[|events| - 1].op)
  }

  function RaisedBy(id: string, op: Op): nat {
    match op
    case Add(f) => if f.id == id then 1 else 0
    case Merge(i, f) => if i == id then 1 else 0
    case _ => 0
  }

  function Raises(id: string, events: seq<Event>): nat {
    if events == [] then 0
    else Raises(id, events[..|events| - 1]) + RaisedBy(id, events[|events| - 1].op)
  }

  // Operations that may not wake the finding: its reports are no worse than what is
  // known, and the user does not take the dismissal back. Cleaning up is harmless only
  // for a suppressed finding that was not resolved.
  predicate Quiet(op: Op, id: string, level: nat, lasting: bool) {
    match op
    case Add(f) => f.id == id ==> SeverityOrder(f.severity) <= level
    case Dismiss(i, reason, note) => i == id ==> reason != ""
    case Undismiss(i) => i != id
    case DeleteRule(ruleID) => ruleID != FINDING_RULE + id
    case Cleanup(maxAge, order) => lasting
    case ClearAll => false
    case _ => true
  }

  ghost predicate QuietRun(start: nat, id: string, events: seq<Event>, lasting: bool) {
    forall n :: 0 <= n < |events| ==> Quiet(events[n].op, id, Level(start, id, events[..n]), lasting)
  }

  // The finding is still there, silenced, at this level, raised this often.
  ghost predicate Remembers(s: Store, id: string, level: nat, raised: int, lasting: bool) {
    id in s.findings && s.findings[id].Silenced() && SeverityOrder(s.findings[id].severity) == level &&
    s.findings[id].timesRaised == raised &&
    (lasting ==> s.findings[id].suppressed && s.findings[id].resolvedAt.None?)
  }

  lemma CleanupRemembers(s: Store, now: Time, maxAge: int, order: seq<string>, id: string, level: nat, raised: int)
    requires Remembers(s, id, level, raised, true)
    ensures Remembers(Apply(s, now, Cleanup(maxAge, order)), id, level, raised, true)
  {
    if Enumerates(order, StaleIds(s, maxAge, now)) {
      assert id !in StaleIds(s, maxAge, now);
    }
  }

  lemma AddRemembers(s: Store, now: Time, f: Finding, id: string, level: nat, raised: int, lasting: bool)
    requires Remembers(s, id, level, raised, lasting) && (f.id == id ==> SeverityOrder(f.severity) <= level)
    ensures Remembers(Added(s, f, now).0, id, level, if f.id == id then raised + 1 else raised, lasting)
  {
  }

  lemma DeleteRuleRemembers(s: Store, ruleID: string, id: string, level: nat, raised: int, lasting: bool)
    requires Remembers(s, id, level, raised, lasting) && ruleID != FINDING_RULE + id
    ensures Remembers(RuleDeleted(s, ruleID).0, id, level, raised, lasting)
  {
    if FINDING_RULE <= ruleID {
      assert ruleID == FINDING_RULE + ruleID[|FINDING_RULE|..];
    }
  }

  lemma ReportsRemember(s: Store, now: Time, op: Op, id: string, level: nat, raised: int, lasting: bool)
    requires Remembers(s, id, level, raised, lasting)
    requires op.Resolve? || op.Acknowledge? || op.Snooze? || op.Unsnooze?
    ensures Remembers(Apply(s, now, op), id, level, raised, lasting)
  {
  }

  lemma FeedbackRemembers(s: Store, now: Time, op: Op, id: string, level: nat, raised: int, lasting: bool)
    requires Remembers(s, id, level, raised, lasting) && Quiet(op, id, level, lasting)
    requires op.Dismiss? || op.Undismiss? || op.Suppress? || op.AddRule?
    ensures Remembers(Apply(s, now, op), id, level, raised, lasting)
  {
  }

  lemma ApplyRemembers(s: Store, e: Event, id: string, level: nat, raised: int, lasting: bool)
    requires Remembers(s, id, level, raised, lasting) && Quiet(e.op, id, level, lasting)
    ensures Remembers(Apply(s, e.now, e.op), id, LevelAfter(level, id, e.op), raised + RaisedBy(id, e.op), lasting)
  {
    match e.op
    case Add(f) => AddRemembers(s, e.now, f, id, level, raised, lasting);
    case Merge(i, f) =>
    case Cleanup(maxAge, order) => CleanupRemembers(s, e.now, maxAge, order, id, level, raised);
    case DeleteRule(ruleID) => DeleteRuleRemembers(s, ruleID, id, level, raised, lasting);
    case Dismiss(i, reason, note) => FeedbackRemembers(s, e.now, e.op, id, level, raised, lasting);
    case Undismiss(i) => FeedbackRemembers(s, e.now, e.op, id, level, raised, lasting);
    case Suppress(i, ruleID) => FeedbackRemembers(s, e.now, e.op, id, level, raised, lasting);
    case AddRule(ruleID, rule) => FeedbackRemembers(s, e.now, e.op, id, level, raised, lasting);
    case _ => ReportsRemember(s, e.now, e.op, id, level, raised, lasting);
  }

  lemma QuietPrefix(start: nat, id: string, events: seq<Event>, lasting: bool)
    requires QuietRun(start, id, events, lasting) && events != []
    ensures QuietRun(start, id, events[..|events| - 1], lasting)
    ensures Quiet(events[|events| - 1].op, id, Level(start, id, events[..|events| - 1]), lasting)
  {
    var front := events[..|events| - 1];
    forall k | 0 <= k < |front| ensures Quiet(front[k].op, id, Level(start, id, front[..k]), lasting) {
      assert front[..k] == events[..k];
    }
  }

  lemma {:induction false} RunRemembers(s: Store, id: string, start: nat, raised: int, events: seq<Event>, lasting: bool)
    requires Remembers(s, id, start, raised, lasting) && QuietRun(start, id, events, lasting)
    ensures Remembers(Run(s, events), id, Level(start, id, events), raised + Raises(id, events), lasting)
  {
    if events != [] {
      var n := |events| - 1;
      QuietPrefix(start, id, events, lasting);
      RunRemembers(s, id, start, raised, events[..n], lasting);
      ApplyRemembers(Run(s, events[..n]), events[n], id, Level(start, id, events[..n]), raised + Raises(id, events[..n]), lasting);
    }
  }

  // A silenced finding stays silenced through every quiet run, at the level its merges
  // gave it, counting every report; so it is inactive at every moment.
  lemma DismissalIsRemembered(s: Store, id: string, events: seq<Event>, lasting: bool)
    requires id in s.findings && s.findings[id].Silenced()
    requires lasting ==> s.findings[id].suppressed && s.findings[id].resolvedAt.None?
    requires QuietRun(SeverityOrder(s.findings[id].severity), id, events, lasting)
    ensures Remembers(Run(s, events), id, Level(SeverityOrder(s.findings[id].severity), id, events),
                      s.findings[id].timesRaised + Raises(id, events), lasting)
    ensures forall now :: !Run(s, events).findings[id].IsActive(now)
  {
    RunRemembers(s, id, SeverityOrder(s.findings[id].severity), s.findings[id].timesRaised, events, lasting);
  }

  lemma AddToKnown(s: Store, g: Finding, now: Time)
    requires g.id in s.findings
    ensures WithType(g).severity == g.severity
    ensures Added(s, g, now) == (Put(s, g.id, Reported(s.findings[g.id], WithType(g), now)), false)
  {
  }

  predicate Worse(g: Finding, known: Finding) {
    SeverityOrder(g.severity) > SeverityOrder(known.severity)
  }

  // A report at most as bad leaves a silenced finding silenced.
  lemma ReportKeepsSilence(known: Finding, g: Finding, now: Time)
    requires known.Silenced() && !Worse(g, known)
    ensures var f := Reported(known, g, now);
      f.Silenced() && f.severity == known.severity && f.timesRaised == known.timesRaised + 1
  {
  }

  lemma ReportEndsSilence(known: Finding, g: Finding, now: Time)
    requires known.Silenced() && Worse(g, known)
    ensures var f := Reported(known, g, now);
      !f.Silenced() && (f.IsActive(now) <==> !known.IsSnoozed(now)) && f.timesRaised == known.timesRaised + 1 &&
      f.severity == g.severity && f.resolvedAt.None? && f.acknowledgedAt.None? && f.userNote == ""
  {
  }

  // The one report that ends the silence is a strictly worse one, and it clears
  // everything but the snooze.
  lemma EscalationWakes(s: Store, id: string, g: Finding, now: Time)
    requires id in s.findings && s.findings[id].Silenced() && g.id == id
    ensures id in Added(s, g, now).0.findings
    ensures var known := s.findings[id]; var f := Added(s, g, now).0.findings[id];
      var worse := SeverityOrder(g.severity) > SeverityOrder(known.severity);
      (!f.Silenced() <==> worse) && (f.IsActive(now) <==> worse && !known.IsSnoozed(now)) &&
      (worse ==> f.severity == g.severity && f.resolvedAt.None? && f.acknowledgedAt.None? && f.userNote == "") &&
      (!worse ==> f.severity == known.severity) &&
      f.timesRaised == known.timesRaised + 1
  {
    AddToKnown(s, g, now);
    if Worse(g, s.findings[id]) {
      ReportEndsSilence(s.findings[id], WithType(g), now);
    } else {
      ReportKeepsSilence(s.findings[id], WithType(g), now);
    }
  }

  // After any quiet run, the next report wakes the finding exactly when it is worse than
  // the level reached.
  lemma OnlyEscalationWakes(s: Store, id: string, events: seq<Event>, lasting: bool, g: Finding, now: Time)
    requires id in s.findings && s.findings[id].Silenced() && g.id == id
    requires lasting ==> s.findings[id].suppressed && s.findings[id].resolvedAt.None?
    requires QuietRun(SeverityOrder(s.findings[id].severity), id, events, lasting)
    ensures id in Added(Run(s, events), g, now).0.findings
    ensures var f := Added(Run(s, events), g, now).0.findings[id];
      !f.Silenced() <==> SeverityOrder(g.severity) > Level(SeverityOrder(s.findings[id].severity), id, events)
  {
    DismissalIsRemembered(s, id, events, lasting);
    EscalationWakes(Run(s, events), id, g, now);
  }

  // A merge that slips in after the dismissal hides the escalation from the next Add,
  // which would have woken the finding.
  lemma MergeMasksEscalation(s: Store, id: string, f: Finding, g: Finding, now: Time)
    requires id in s.findings && s.findings[id].Silenced() && g.id == id
    requires SeverityOrder(f.severity) >= SeverityOrder(g.severity) > SeverityOrder(s.findings[id].severity)
    ensures id in Added(s, g, now).0.findings && !Added(s, g, now).0.findings[id].Silenced()
    ensures id in Added(MergedInto(s, id, f, now), g, now).0.findings
    ensures Added(MergedInto(s, id, f, now), g, now).0.findings[id].Silenced()
  {
    EscalationWakes(s, id, g, now);
    EscalationWakes(MergedInto(s, id, f, now), id, g, now);
  }

  // ----- suppression and its undoing -----

  lemma SuppressBlocksNewFindings(s: Store, id: string, ruleID: string, now: Time, g: Finding, later: Time)
    requires id in s.findings && g.id !in s.findings
    requires g.resourceID == s.findings[id].resourceID && g.category == s.findings[id].category
    ensures Added(Suppressed(s, id, ruleID, now).0, g, later) == (Suppressed(s, id, ruleID, now).0, false)
  {
    var t := Suppressed(s, id, ruleID, now).0;
    assert t.rules[ruleID].Matches(g.resourceID, g.category);
  }

  // Undismissing the finding deletes the rule.
  predicate Lifts(f: Finding, rule: SuppressionRule) {
    f.suppressed && f.resourceID != "" && rule.resourceID == f.resourceID && rule.category == f.category
  }

  // What undismissing a finding leaves blocked: all that a rule matches which names another
  // place than the finding does, and all of it when the finding is not suppressed, or names
  // no resource.
  lemma UndismissLeavesRules(s: Store, id: string, resource: string, category: string)
    requires id in s.findings
    ensures IsSuppressed(Undismissed(s, id).0.rules, resource, category) <==>
      exists r :: r in s.rules && s.rules[r].Matches(resource, category) && !Lifts(s.findings[id], s.rules[r])
  {
    var f, t := s.findings[id], Undismissed(s, id).0;
    forall r ensures r in t.rules <==> r in s.rules && !Lifts(f, s.rules[r]) {
    }
    assert forall r :: r in t.rules ==> t.rules[r] == s.rules[r];
  }

  // Undismiss is meant to lift the block a Suppress put on the finding's resource and
  // category. It lifts that block exactly when every rule on them names just them, and the
  // finding is suppressed and names a resource.
  lemma UndismissLiftsSuppression(s: Store, id: string)
    requires id in s.findings
    ensures var f := s.findings[id];
      !IsSuppressed(Undismissed(s, id).0.rules, f.resourceID, f.category) <==>
        forall r :: r in s.rules && s.rules[r].Matches(f.resourceID, f.category) ==>
          f.suppressed && f.resourceID != "" && s.rules[r].resourceID == f.resourceID && s.rules[r].category == f.category
  {
    UndismissLeavesRules(s, id, s.findings[id].resourceID, s.findings[id].category);
  }

  // Operations that leave the rule and the finding's place alone.
  predicate Spares(op: Op, ruleID: string) {
    match op
    case Undismiss(i) => false
    case Suppress(i, r) => r != ruleID
    case AddRule(r, rule) => r != ruleID
    case DeleteRule(r) => r != ruleID
    case Cleanup(maxAge, order) => false
    case ClearAll => false
    case _ => true
  }

  ghost predicate Stays(s: Store, id: string, ruleID: string, rule: SuppressionRule, resource: string, category: string) {
    id in s.findings && s.findings[id].resourceID == resource && s.findings[id].category == category &&
    ruleID in s.rules && s.rules[ruleID] == rule
  }

  lemma ApplySparesRule(s: Store, now: Time, op: Op, ruleID: string)
    requires Spares(op, ruleID) && ruleID in s.rules
    ensures ruleID in Apply(s, now, op).rules && Apply(s, now, op).rules[ruleID] == s.rules[ruleID]
  {
    match op
    case Suppress(id, r) => SuppressKeepsPlaces(s, id, r, now);
    case DeleteRule(r) => DeleteRuleKeepsPlaces(s, r);
    case _ =>
  }

  lemma AddedKeepsFinding(s: Store, g: Finding, now: Time, id: string)
    requires id in s.findings
    ensures id in Added(s, g, now).0.findings && SamePlace(s.findings[id], Added(s, g, now).0.findings[id])
  {
    NewKeepsId(g, now);
    if g.id in s.findings {
      ReportKeepsPlaces(s, g, now);
    }
  }

  lemma ApplyStays(s: Store, e: Event, id: string, ruleID: string, rule: SuppressionRule, resource: string, category: string)
    requires Stays(s, id, ruleID, rule, resource, category) && Spares(e.op, ruleID)
    ensures Stays(Apply(s, e.now, e.op), id, ruleID, rule, resource, category)
  {
    ApplySparesRule(s, e.now, e.op, ruleID);
    if e.op.Add? {
      AddedKeepsFinding(s, e.op.f, e.now, id);
    } else {
      ApplyKeepsPlaces(s, e.now, e.op);
    }
  }

  lemma {:induction false} RunStays(s: Store, events: seq<Event>, id: string, ruleID: string, rule: SuppressionRule,
                                    resource: string, category: string)
    requires Stays(s, id, ruleID, rule, resource, category) && forall e :: e in events ==> Spares(e.op, ruleID)
    ensures Stays(Run(s, events), id, ruleID, rule, resource, category)
  {
    if events != [] {
      RunStays(s, events[..|events| - 1], id, ruleID, rule, resource, category);
      ApplyStays(Run(s, events[..|events| - 1]), events[|events| - 1], id, ruleID, rule, resource, category);
    }
  }

  // Whatever comes between a Suppress and the Undismiss, the rule of the Suppress goes
  // exactly when the finding is still suppressed by then and names a resource.
  lemma SuppressionRuleGoesIff(s: Store, id: string, ruleID: string, now: Time, events: seq<Event>)
    requires id in s.findings && forall e :: e in events ==> Spares(e.op, ruleID)
    ensures var u := Run(Suppressed(s, id, ruleID, now).0, events); var f := s.findings[id];
      id in u.findings && ruleID in u.rules && u.rules[ruleID].Matches(f.resourceID, f.category) &&
      (ruleID !in Undismissed(u, id).0.rules <==> u.findings[id].suppressed && f.resourceID != "")
  {
    var f := s.findings[id];
    var rule := SuppressionRule(f.resourceID, f.resourceName, f.category, "Suppressed via finding");
    RunStays(Suppressed(s, id, ruleID, now).0, events, id, ruleID, rule, f.resourceID, f.category);
  }

  // For instance, a worse report after the Suppress wakes the finding but keeps the rule: a
  // later dismissal and its undoing leave the finding's own resource and category blocked.
  lemma EscalationLeavesRule(s: Store, id: string, ruleID: string, g: Finding, reason: string, now: Time)
    requires id in s.findings && s.findings[id].resourceID != "" && s.rules == map[]
    requires g.id == id && SeverityOrder(g.severity) > SeverityOrder(s.findings[id].severity)
    requires reason != "" && reason != "not_an_issue"
    ensures var suppressed := Suppressed(s, id, ruleID, now).0;
      var dismissed := Dismissed(Added(suppressed, g, now).0, id, reason, "", now).0;
      var (undone, ok) := Undismissed(dismissed, id);
      ok && id in undone.findings && !undone.findings[id].Silenced() &&
      IsSuppressed(undone.rules, s.findings[id].resourceID, s.findings[id].category)
  {
    var suppressed := Suppressed(s, id, ruleID, now).0;
    var woken := Added(suppressed, g, now).0;
    EscalationWakes(suppressed, id, g, now);
    AddToKnown(suppressed, g, now);
    var dismissed := Dismissed(woken, id, reason, "", now).0;
    assert ruleID in dismissed.rules && !dismissed.findings[id].suppressed;
    UndismissLeavesRules(dismissed, id, s.findings[id].resourceID, s.findings[id].category);
  }

  // And in a store without other rules, a finding that names no resource stays suppressed,
  // and its category with it everywhere.
  lemma SuppressionWithoutResourceStays(s: Store, id: string, ruleID: string, now: Time, resource: string)
    requires id in s.findings && s.findings[id].resourceID == "" && s.rules == map[]
    ensures var t := Undismissed(Suppressed(s, id, ruleID, now).0, id).0;
      IsSuppressed(t.rules, resource, s.findings[id].category)
  {
    var t := Undismissed(Suppressed(s, id, ruleID, now).0, id).0;
    assert ruleID in t.rules && t.rules[ruleID].Matches(resource, s.findings[id].category);
  }
}
