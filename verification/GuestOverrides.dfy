// Looking up, and migrating, the override of a guest
// (internal/alerts/filter_evaluation.go:277-336).
module GuestOverrides {
  import opened Prelude
  import opened Text
  import opened GuestKeys
  import opened Numbers

  // Where a guest's override may be: its stable key, and for a clustered guest the legacy
  // key and the older keys that name one of its nodes.
  datatype Places = Places(stable: string, legacy: string, clustered: bool, older: string -> bool)

  function PlacesOf(ident: Identity): Places {
    Places(StableKeyOf(ident), LegacyKey(ident), ident.instance != ident.node, key => IsCanonicalKeyOf(key, ident))
  }

  function GuestPlaces(guest: Guest, id: string): Option<Places> {
    match IdentityOf(guest, id)
    case None => None
    case Some(ident) => Some(PlacesOf(ident))
  }

  // Move an override from one key to another.
  function Moved<T>(m: map<string, T>, from: string, to: string): map<string, T>
    requires from in m
  {
    m[to := m[from]] - {from}
  }

  // What one lookup may do to the map, and what it may return. Among several older keys
  // of the guest the map order decides.
  ghost predicate LookedUp<T(!new)>(m: map<string, T>, id: string, at: Option<Places>, after: map<string, T>, found: Option<T>) {
    if id != "" && id in m then
      found == Some(m[id]) &&
      after == if at.Some? && at.value.clustered && id != at.value.stable then Moved(m, id, at.value.stable) else m
    else if at.None? then found == None && after == m
    else if at.value.stable in m then found == Some(m[at.value.stable]) && after == m
    else if !at.value.clustered then found == None && after == m
    else if at.value.legacy in m then
      found == Some(m[at.value.legacy]) && after == Moved(m, at.value.legacy, at.value.stable)
    else if exists key :: key in m && at.value.older(key) then
      exists key :: key in m && at.value.older(key) && found == Some(m[key]) && after == Moved(m, key, at.value.stable)
    else found == None && after == m
  }

  ghost predicate Looked<T(!new)>(m: map<string, T>, guest: Guest, rawID: string, after: map<string, T>, found: Option<T>) {
    LookedUp(m, TrimSpace(rawID), GuestPlaces(guest, TrimSpace(rawID)), after, found)
  }

  class OverrideTable<T(==, !new)> {
    var overrides: map<string, T>

    constructor (m: map<string, T>)
      ensures overrides == m
    {
      overrides := m;
    }

    method MigrateOlder(at: Places) returns (found: Option<T>)
      requires at.stable !in overrides
      modifies this
      ensures found.None? ==> overrides == old(overrides)
      ensures found.None? ==> forall key :: key in overrides ==> !at.older(key)
      ensures found.Some? ==>
        exists key :: key in old(overrides) && at.older(key) && found == Some(old(overrides)[key]) &&
          overrides == Moved(old(overrides), key, at.stable)
    {
      var todo := overrides.Keys;
      while todo != {}
        invariant overrides == old(overrides) && todo <= overrides.Keys
        invariant forall key :: key in overrides && key !in todo ==> !at.older(key)
        decreases todo
      {
        var key :| key in todo;
        todo := todo - {key};
        if !at.older(key) {
          continue;
        }
        var override := overrides[key];
        overrides := overrides[at.stable := override];
        overrides := overrides - {key};
        return Some(override);
      }
      return None;
    }

    method LookupTrimmed(guestID: string, at: Option<Places>) returns (found: Option<T>)
      modifies this
      ensures LookedUp(old(overrides), guestID, at, overrides, found)
    {
      if guestID != "" && guestID in overrides {
        var override := overrides[guestID];
        if at.None? || !at.value.clustered {
          return Some(override);
        }
        if guestID != at.value.stable {
          overrides := overrides[at.value.stable := override];
          overrides := overrides - {guestID};
        }
        return Some(override);
      }
      if at.None? {
        return None;
      }
      if at.value.stable in overrides {
        return Some(overrides[at.value.stable]);
      }
      if at.value.clustered {
        if at.value.legacy in overrides {
          var legacyOverride := overrides[at.value.legacy];
          overrides := overrides[at.value.stable := legacyOverride];
          overrides := overrides - {at.value.legacy};
          return Some(legacyOverride);
        }
        found := MigrateOlder(at.value);
        return found;
      }
      return None;
    }

    method LookupGuestOverride(guest: Guest, rawID: string) returns (found: Option<T>)
      modifies this
      ensures Looked(old(overrides), guest, rawID, overrides, found)
    {
      var guestID := TrimSpace(rawID);
      found := LookupTrimmed(guestID, GuestPlaces(guest, guestID));
    }
  }

  lemma StableIgnoresNode(a: Identity, b: Identity)
    requires Proper(a) && a.instance == b.instance && a.vmid == b.vmid
    ensures PlacesOf(a).stable == PlacesOf(b).stable
  {
    StableKeyOfTrimmed(a);
    StableKeyOfTrimmed(b);
  }

  lemma LegacyIsNotOwnStable(ident: Identity)
    requires Proper(ident)
    ensures PlacesOf(ident).legacy != PlacesOf(ident).stable
  {
    StableKeyOfTrimmed(ident);
    assert |LegacyKey(ident)| > |ident.instance + "-" + Itoa(ident.vmid)|;
  }

  // A lookup of a clustered guest that finds o leaves o under the stable key.
  lemma FoundIsStored<T(!new)>(m: map<string, T>, id: string, at: Option<Places>, after: map<string, T>, o: T)
    requires LookedUp(m, id, at, after, Some(o)) && at.Some? && at.value.clustered && at.value.legacy != at.value.stable
    ensures at.value.stable in after && after[at.value.stable] == o
  {
  }

  lemma SurvivesMoves<T(!new)>(m: map<string, T>, id: string, at: Option<Places>, after: map<string, T>, o: T,
                               laterID: string, laterAt: Option<Places>, final: map<string, T>, found: Option<T>)
    requires LookedUp(m, id, at, after, Some(o)) && LookedUp(after, laterID, laterAt, final, found)
    requires at.Some? && at.value.clustered && at.value.legacy != at.value.stable
    requires laterAt.Some? && laterAt.value.stable == at.value.stable
    requires laterID !in after || laterID == at.value.stable
    ensures found == Some(o) && final == after
  {
    FoundIsStored(m, id, at, after, o);
  }

  // Once a clustered guest's override was found it follows the guest: on whatever node it
  // is looked up, with an id that is not itself a key or is the stable key, the same
  // override is found and nothing changes.
  lemma OverrideSurvivesMoves<T(!new)>(m: map<string, T>, guest: Guest, rawID: string, after: map<string, T>, o: T,
                                       later: Guest, laterID: string, final: map<string, T>, found: Option<T>)
    requires Looked(m, guest, rawID, after, Some(o)) && Looked(after, later, laterID, final, found)
    requires IdentityOf(guest, TrimSpace(rawID)).Some? && IdentityOf(later, TrimSpace(laterID)).Some?
    requires var a, b := IdentityOf(guest, TrimSpace(rawID)).value, IdentityOf(later, TrimSpace(laterID)).value;
      a.instance != a.node && b.instance == a.instance && b.vmid == a.vmid &&
      (TrimSpace(laterID) !in after || TrimSpace(laterID) == StableKeyOf(a))
    ensures found == Some(o) && final == after
    ensures var key := StableKeyOf(IdentityOf(guest, TrimSpace(rawID)).value);
      key in after && after[key] == o
  {
    var id, id2 := TrimSpace(rawID), TrimSpace(laterID);
    var a, b := IdentityOf(guest, id).value, IdentityOf(later, id2).value;
    IdentityIsProper(guest, id);
    StableIgnoresNode(a, b);
    LegacyIsNotOwnStable(a);
    FoundIsStored(m, id, GuestPlaces(guest, id), after, o);
    SurvivesMoves(m, id, GuestPlaces(guest, id), after, o, id2, GuestPlaces(later, id2), final, found);
  }

  // A lookup moves at most one override, to the stable key; every other entry stays.
  lemma OnlyOneKeyMoves<T(!new)>(m: map<string, T>, id: string, at: Option<Places>, after: map<string, T>, found: Option<T>)
    requires LookedUp(m, id, at, after, found)
    ensures after == m ||
      (at.Some? && exists key :: key in m && found == Some(m[key]) && after == Moved(m, key, at.value.stable))
  {
    if id != "" && id in m && after != m {
      assert after == Moved(m, id, at.value.stable);
    }
  }

  // The lookup finds something exactly when the id, the stable key or, for a clustered
  // guest, an earlier form of key is present.
  lemma FindsIff<T(!new)>(m: map<string, T>, id: string, at: Option<Places>, after: map<string, T>, found: Option<T>)
    requires LookedUp(m, id, at, after, found)
    ensures found.Some? <==>
      (id != "" && id in m) ||
      (at.Some? &&
       (at.value.stable in m ||
        (at.value.clustered && (at.value.legacy in m || exists key :: key in m && at.value.older(key)))))
  {
  }

  // ----- whose keys a lookup reaches -----

  predicate Reaches(at: Places, key: string) {
    key == at.stable || (at.clustered && (key == at.legacy || at.older(key)))
  }

  // A lookup finds something exactly when it was given a key of the table or reaches one,
  // and what it finds is under such a key.
  lemma FoundIsReached<T(!new)>(m: map<string, T>, id: string, at: Option<Places>, after: map<string, T>, found: Option<T>)
    requires LookedUp(m, id, at, after, found)
    ensures found.Some? <==>
      exists key :: key in m && ((id != "" && key == id) || (at.Some? && Reaches(at.value, key)))
    ensures found.Some? ==>
      exists key :: key in m && ((id != "" && key == id) || (at.Some? && Reaches(at.value, key))) && found == Some(m[key])
  {
    if id != "" && id in m {
    } else if at.Some? && at.value.stable in m {
      assert Reaches(at.value, at.value.stable);
    } else if at.Some? && at.value.clustered && at.value.legacy in m {
      assert Reaches(at.value, at.value.legacy);
    } else if at.Some? && at.value.clustered && found.Some? {
      var key :| key in m && at.value.older(key) && found == Some(m[key]);
      assert Reaches(at.value, key);
    }
  }

  datatype KeyForm = Stable | Legacy | Built

  function KeyOf(form: KeyForm, ident: Identity): string {
    match form
    case Stable => StableKeyOf(ident)
    case Legacy => LegacyKey(ident)
    case Built => BuildGuestKey(ident.instance, ident.node, ident.vmid)
  }

  predicate Clustered(ident: Identity) {
    ident.instance != ident.node
  }

  // Guest a reads a key of a name, a dash and an id as one of its own.
  predicate ReadsDashed(a: Identity, name: string, vmid: int) {
    Alike(a.instance, a.vmid, name, vmid) ||
    (Clustered(a) && (Alike(ClusterName(a), a.vmid, name, vmid) || ReadsAs(ReadDashed(name, vmid), a)))
  }

  // Guest a reads the key BuildGuestKey makes for b as one of its own: as the key it is, or
  // through the dash of a negative id.
  predicate ReadsBuilt(a: Identity, b: Identity) {
    (Clustered(a) && BuiltFor(a, b)) ||
    ReadAtDash(b, a.instance, a.vmid) || (Clustered(a) && ReadAtDash(b, ClusterName(a), a.vmid))
  }

  // The key BuildGuestKey makes for b reads back, as a guest with a's stable key.
  predicate BuiltFor(a: Identity, b: Identity) {
    Parsable(b) && a.instance == b.instance && a.vmid == b.vmid
  }

  // The minus sign of the id in b's key, taken as a dash behind a name.
  predicate ReadAtDash(b: Identity, name: string, vmid: int) {
    b.vmid < 0 && vmid == -b.vmid && name == PairName(b) + ":"
  }

  predicate Reads(a: Identity, form: KeyForm, b: Identity) {
    match form
    case Stable => ReadsDashed(a, b.instance, b.vmid)
    case Legacy => ReadsDashed(a, ClusterName(b), b.vmid)
    case Built => ReadsBuilt(a, b)
  }

  lemma ReachesDashedIff(a: Identity, name: string, vmid: int)
    requires Proper(a) && name != "" && Trimmed(name)
    ensures Reaches(PlacesOf(a), Dashed(name, vmid)) <==> ReadsDashed(a, name, vmid)
  {
    KeysSpelled(a);
    DashedEqualIff(a.instance, a.vmid, name, vmid);
    DashedEqualIff(ClusterName(a), a.vmid, name, vmid);
    ParseDashed(name, vmid);
    ReachesIff(a, Dashed(name, vmid), Alike(a.instance, a.vmid, name, vmid), Alike(ClusterName(a), a.vmid, name, vmid),
               ReadsAs(ReadDashed(name, vmid), a), ReadsDashed(a, name, vmid));
  }

  lemma ReachesIff(a: Identity, key: string, stable: bool, legacy: bool, older: bool, reached: bool)
    requires key == StableKeyOf(a) <==> stable
    requires key == LegacyKey(a) <==> legacy
    requires IsCanonicalKeyOf(key, a) <==> older
    requires reached <==> stable || (Clustered(a) && (legacy || older))
    ensures Reaches(PlacesOf(a), key) <==> reached
  {
  }

  lemma BuiltIsStableIff(a: Identity, b: Identity)
    requires Proper(a) && Proper(b)
    ensures KeyOf(Built, b) == StableKeyOf(a) <==> ReadAtDash(b, a.instance, a.vmid)
  {
    KeysSpelled(a);
    BuiltIsDashedIff(b, a.instance, a.vmid);
  }

  lemma BuiltIsLegacyIff(a: Identity, b: Identity)
    requires Proper(a) && Proper(b)
    ensures KeyOf(Built, b) == LegacyKey(a) <==> ReadAtDash(b, ClusterName(a), a.vmid)
  {
    KeysSpelled(a);
    BuiltIsDashedIff(b, ClusterName(a), a.vmid);
  }

  lemma BuiltIsOwnIff(a: Identity, b: Identity)
    requires Proper(b)
    ensures IsCanonicalKeyOf(KeyOf(Built, b), a) <==> BuiltFor(a, b)
  {
    BuiltIsCanonicalIff(b, a);
  }

  lemma ReadsBuiltIff(a: Identity, b: Identity)
    ensures ReadsBuilt(a, b) <==>
      ReadAtDash(b, a.instance, a.vmid) || (Clustered(a) && (ReadAtDash(b, ClusterName(a), a.vmid) || BuiltFor(a, b)))
  {
  }

  lemma ReachesBuiltIff(a: Identity, b: Identity)
    requires Proper(a) && Proper(b)
    ensures Reaches(PlacesOf(a), KeyOf(Built, b)) <==> ReadsBuilt(a, b)
  {
    BuiltIsStableIff(a, b);
    BuiltIsLegacyIff(a, b);
    BuiltIsOwnIff(a, b);
    ReadsBuiltIff(a, b);
    ReachesIff(a, KeyOf(Built, b), ReadAtDash(b, a.instance, a.vmid), ReadAtDash(b, ClusterName(a), a.vmid),
               BuiltFor(a, b), ReadsBuilt(a, b));
  }

  lemma ClusterNameTrimmed(ident: Identity)
    requires Proper(ident)
    ensures ClusterName(ident) != "" && Trimmed(ClusterName(ident))
  {
    var name := ClusterName(ident);
    assert name[0] == ident.instance[0] && name[|name| - 1] == ident.node[|ident.node| - 1];
  }

  // The lookup of guest a reaches the override filed under a key of guest b, in any of the
  // three forms, exactly when a reads that key as its own.
  lemma ReachesOthersKeyIff(a: Identity, form: KeyForm, b: Identity)
    requires Proper(a) && Proper(b)
    ensures Reaches(PlacesOf(a), KeyOf(form, b)) <==> Reads(a, form, b)
  {
    match form
    case Stable =>
      KeysSpelled(b);
      ReachesDashedIff(a, b.instance, b.vmid);
      SameReach(PlacesOf(a), Dashed(b.instance, b.vmid), KeyOf(form, b), Reads(a, form, b));
    case Legacy =>
      ClusterNameTrimmed(b);
      ReachesDashedIff(a, ClusterName(b), b.vmid);
      SameReach(PlacesOf(a), Dashed(ClusterName(b), b.vmid), KeyOf(form, b), Reads(a, form, b));
    case Built => ReachesBuiltIff(a, b);
  }

  lemma SameReach(at: Places, key: string, same: string, reached: bool)
    requires key == same && (Reaches(at, key) <==> reached)
    ensures Reaches(at, same) <==> reached
  {
  }

  // Names without colons, and an id that is not negative.
  predicate Plain(ident: Identity) {
    Proper(ident) && Parsable(ident) && ident.vmid >= 0
  }

  lemma PlainAlike(a: string, v: int, b: string, w: int)
    requires v >= 0 && w >= 0
    ensures Alike(a, v, b, w) <==> a == b && v == w
  {
  }

  lemma PlainReadsDashedIff(a: Identity, name: string, vmid: int)
    requires a.vmid >= 0 && vmid >= 0 && ':' !in name
    ensures ReadsDashed(a, name, vmid) <==>
      a.vmid == vmid && (a.instance == name || (Clustered(a) && ClusterName(a) == name))
  {
    PlainAlike(a.instance, a.vmid, name, vmid);
    PlainAlike(ClusterName(a), a.vmid, name, vmid);
    NoColonReadsNothing(name, vmid);
  }

  predicate SharesPlainKey(a: Identity, form: KeyForm, b: Identity) {
    a.vmid == b.vmid &&
    match form
    case Stable => a.instance == b.instance || (Clustered(a) && ClusterName(a) == b.instance)
    case Legacy => a.instance == ClusterName(b) || (Clustered(a) && ClusterName(a) == ClusterName(b))
    case Built => Clustered(a) && a.instance == b.instance
  }

  // Among plain guests a key is shared only by name: through the same instance, an instance
  // that reads like another's instance and node, or an instance and node that do.
  lemma PlainReadsIff(a: Identity, form: KeyForm, b: Identity)
    requires Plain(a) && Plain(b)
    ensures Reads(a, form, b) <==> SharesPlainKey(a, form, b)
  {
    match form
    case Stable => PlainReadsDashedIff(a, b.instance, b.vmid);
    case Legacy => PlainReadsDashedIff(a, ClusterName(b), b.vmid);
    case Built =>
  }

  // ----- one guest's lookup and another's override -----

  // What is left for the second guest after a lookup of the first moved the only entry it
  // reaches. Neither lookup is given a key of the table.
  lemma TakenIff<T(!new)>(m: map<string, T>, key: string, id: string, first: Places, laterID: string, second: Places,
                          after: map<string, T>, found: Option<T>, final: map<string, T>, left: Option<T>)
    requires first.clustered && key in m && Reaches(first, key)
    requires forall k :: k in m && k != key ==> !Reaches(first, k) && !Reaches(second, k)
    requires (id == "" || id !in m) && (laterID == "" || laterID !in after)
    requires LookedUp(m, id, Some(first), after, found) && LookedUp(after, laterID, Some(second), final, left)
    ensures found == Some(m[key]) && left == if Reaches(second, first.stable) then Some(m[key]) else None
  {
    FoundIsReached(m, id, Some(first), after, found);
    OnlyEntryMoves(m, key, id, first, after, found);
    FoundIsReached(after, laterID, Some(second), final, left);
    if Reaches(second, first.stable) {
      assert first.stable in after;
    }
  }

  lemma OnlyEntryMoves<T(!new)>(m: map<string, T>, key: string, id: string, at: Places, after: map<string, T>, found: Option<T>)
    requires at.clustered && key in m && Reaches(at, key) && forall k :: k in m && k != key ==> !Reaches(at, k)
    requires (id == "" || id !in m) && LookedUp(m, id, Some(at), after, found)
    ensures found == Some(m[key]) && after == (m - {key})[at.stable := m[key]]
  {
    assert at.stable in m ==> Reaches(at, at.stable);
    assert at.legacy in m ==> Reaches(at, at.legacy);
    assert forall k :: k in m && at.older(k) ==> Reaches(at, k);
    if key == at.stable {
      assert after == m && m == (m - {key})[at.stable := m[key]];
    } else {
      assert after == Moved(m, key, at.stable);
    }
  }

  // Guest first's lookup takes the override filed under a key of guest second, for good,
  // exactly when it reads that key as its own and second does not read first's stable key
  // as its own. (Neither reads any other key of the table.)
  lemma OverrideTakenIff<T(!new)>(m: map<string, T>, form: KeyForm, id: string, first: Identity, laterID: string, second: Identity,
                                  after: map<string, T>, found: Option<T>, final: map<string, T>, left: Option<T>)
    requires Proper(first) && Proper(second) && Clustered(first) && KeyOf(form, second) in m
    requires forall k :: k in m && k != KeyOf(form, second) ==> !Reaches(PlacesOf(first), k) && !Reaches(PlacesOf(second), k)
    requires (id == "" || id !in m) && (laterID == "" || laterID !in after)
    requires LookedUp(m, id, Some(PlacesOf(first)), after, found) && LookedUp(after, laterID, Some(PlacesOf(second)), final, left)
    ensures found.Some? <==> Reads(first, form, second)
    ensures found.Some? ==>
      found == Some(m[KeyOf(form, second)]) && (left == None <==> !Reads(second, Stable, first))
    ensures found == None ==> after == m
  {
    ReachesOthersKeyIff(first, form, second);
    ReachesOthersKeyIff(second, Stable, first);
    FoundIsReached(m, id, Some(PlacesOf(first)), after, found);
    if Reads(first, form, second) {
      TakenIff(m, KeyOf(form, second), id, PlacesOf(first), laterID, PlacesOf(second), after, found, final, left);
    }
  }

  // The same in a table with one entry.
  lemma TakenAlone<T(!new)>(key: string, o: T, first: Places, second: Places, after: map<string, T>, found: Option<T>,
                            final: map<string, T>, left: Option<T>)
    requires first.clustered && Reaches(first, key) && !Reaches(second, first.stable)
    requires LookedUp(map[key := o], "", Some(first), after, found) && LookedUp(after, "", Some(second), final, left)
    ensures found == Some(o) && left == None
  {
    TakenIff(map[key := o], key, "", first, "", second, after, found, final, left);
  }

  lemma LegacyReadsInstance(first: Identity, second: Identity)
    requires Proper(first) && Proper(second) && Clustered(first) && ':' !in first.instance
    requires second.instance == ClusterName(first) && second.vmid == first.vmid >= 0
    ensures Reads(first, Stable, second) && !Reads(second, Stable, first)
  {
    PlainAlike(ClusterName(first), first.vmid, second.instance, second.vmid);
    PlainReadsDashedIff(second, first.instance, first.vmid);
    assert |ClusterName(second)| > |second.instance| > |first.instance|;
  }

  // Two clustered guests can get in each other's way when one's instance reads like the
  // other's instance and node (instance "a-b" beside instance "a" with node "b"): the
  // other's lookup takes its override over, and its own next lookup finds nothing.
  lemma LegacyLookupTakesAnothersOverride<T(!new)>(o: T, first: Identity, second: Identity, after: map<string, T>, found: Option<T>,
                                                   final: map<string, T>, left: Option<T>)
    requires Proper(first) && Proper(second) && Clustered(first) && ':' !in first.instance
    requires second.instance == ClusterName(first) && second.vmid == first.vmid >= 0
    requires LookedUp(map[KeyOf(Stable, second) := o], "", Some(PlacesOf(first)), after, found)
    requires LookedUp(after, "", Some(PlacesOf(second)), final, left)
    ensures found == Some(o) && left == None
  {
    LegacyReadsInstance(first, second);
    ReachesOthersKeyIff(first, Stable, second);
    ReachesOthersKeyIff(second, Stable, first);
    TakenAlone(KeyOf(Stable, second), o, PlacesOf(first), PlacesOf(second), after, found, final, left);
  }

  lemma SharedLegacyReads(first: Identity, second: Identity)
    requires Proper(first) && Proper(second) && Clustered(first) && ':' !in first.instance
    requires ClusterName(first) == ClusterName(second) && first.instance != second.instance && second.vmid == first.vmid >= 0
    ensures Reads(first, Legacy, second) && !Reads(second, Stable, first)
  {
    PlainAlike(ClusterName(first), first.vmid, ClusterName(second), second.vmid);
    PlainReadsDashedIff(second, first.instance, first.vmid);
    assert |ClusterName(second)| == |ClusterName(first)| > |first.instance|;
  }

  // So can two whose instances and nodes read alike together: they have one legacy key.
  lemma SharedLegacyKeyIsTaken<T(!new)>(o: T, first: Identity, second: Identity, after: map<string, T>, found: Option<T>,
                                        final: map<string, T>, left: Option<T>)
    requires Proper(first) && Proper(second) && Clustered(first) && ':' !in first.instance
    requires ClusterName(first) == ClusterName(second) && first.instance != second.instance && second.vmid == first.vmid >= 0
    requires LookedUp(map[KeyOf(Legacy, second) := o], "", Some(PlacesOf(first)), after, found)
    requires LookedUp(after, "", Some(PlacesOf(second)), final, left)
    ensures found == Some(o) && left == None
  {
    SharedLegacyReads(first, second);
    ReachesOthersKeyIff(first, Legacy, second);
    ReachesOthersKeyIff(second, Stable, first);
    TakenAlone(KeyOf(Legacy, second), o, PlacesOf(first), PlacesOf(second), after, found, final, left);
  }

  lemma SharedLegacyNames(first: Identity, second: Identity)
    requires first == Identity("a", "b-c", 5) && second == Identity("a-b", "c", 5)
    ensures Proper(first) && Proper(second) && Clustered(first) && ':' !in first.instance
    ensures ClusterName(first) == ClusterName(second) && first.instance != second.instance
  {
    assert "a" + "-" + "b-c" == "a-b" + "-" + "c";
    assert |first.instance| == 1 && |second.instance| == 3;
  }

  // For instance, both guests below file an override under "a-b-c-5".
  lemma SharedLegacyKeyExample<T(!new)>(o: T, first: Identity, second: Identity, after: map<string, T>, found: Option<T>,
                                        final: map<string, T>, left: Option<T>)
    requires first == Identity("a", "b-c", 5) && second == Identity("a-b", "c", 5)
    requires LookedUp(map[KeyOf(Legacy, second) := o], "", Some(PlacesOf(first)), after, found)
    requires LookedUp(after, "", Some(PlacesOf(second)), final, left)
    ensures found == Some(o) && left == None
  {
    SharedLegacyNames(first, second);
    SharedLegacyKeyIsTaken(o, first, second, after, found, final, left);
  }

  // A key that names a node of the guest (when older holds) is moved to the stable key, or
  // another such key is.
  ghost predicate Migrates<T(!new)>(m: map<string, T>, at: Places, key: string, older: bool, after: map<string, T>, found: Option<T>)
    requires key in m
  {
    (older ==> exists k :: k in m && at.older(k) && found == Some(m[k]) && after == Moved(m, k, at.stable)) &&
    ((forall k :: k in m && at.older(k) ==> k == key) ==>
      if older then found == Some(m[key]) && after == Moved(m, key, at.stable) else found == None && after == m)
  }

  lemma MovesOlder<T(!new)>(m: map<string, T>, id: string, at: Places, key: string, older: bool, after: map<string, T>, found: Option<T>)
    requires at.clustered && key in m && at.stable !in m && at.legacy !in m && (id == "" || id !in m)
    requires LookedUp(m, id, Some(at), after, found) && (at.older(key) <==> older)
    ensures Migrates(m, at, key, older, after, found)
  {
  }

  lemma BuiltIsOlderIff(was: Identity, now: Identity)
    requires Proper(was) && now.instance == was.instance && now.vmid == was.vmid
    ensures PlacesOf(now).older(KeyOf(Built, was)) <==> Parsable(was)
  {
    BuiltIsCanonicalIff(was, now);
  }

  // In a table with a key BuildGuestKey made for some node of the guest, and with neither
  // its stable nor its legacy key, the lookup migrates such a key; with no other, it
  // migrates this one exactly when no name has a colon.
  lemma NodeBoundKeyIsMigrated<T(!new)>(m: map<string, T>, id: string, was: Identity, now: Identity, after: map<string, T>, found: Option<T>)
    requires Proper(was) && now.instance == was.instance && now.vmid == was.vmid && Clustered(now)
    requires KeyOf(Built, was) in m && PlacesOf(now).stable !in m && PlacesOf(now).legacy !in m && (id == "" || id !in m)
    requires LookedUp(m, id, Some(PlacesOf(now)), after, found)
    ensures Migrates(m, PlacesOf(now), KeyOf(Built, was), Parsable(was), after, found)
  {
    BuiltIsOlderIff(was, now);
    MovesOlder(m, id, PlacesOf(now), KeyOf(Built, was), Parsable(was), after, found);
  }
}
