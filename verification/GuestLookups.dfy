// Which guest a lookup is for, in terms of what the caller hands in, and which entry of the
// table it then finds and moves (internal/alerts/filter_evaluation.go:198-336).
module GuestLookups {
  import opened Prelude
  import opened Text
  import opened Numbers
  import opened GuestKeys
  import opened GuestOverrides

  // The key consists of the names a and b and the number n between colons, and means the
  // guest vmid of instance i: a, or b where a is blank.
  predicate SpellsOut(key: string, a: string, b: string, n: string, i: string, vmid: int) {
    TrimSpace(key) == a + ":" + b + ":" + n && ':' !in a && ':' !in b && ':' !in n &&
    Atoi(n) == Some(vmid) && TrimSpace(b) != "" && i == if TrimSpace(a) == "" then TrimSpace(b) else TrimSpace(a)
  }

  ghost predicate NamesGuest(key: string, i: string, vmid: int) {
    exists a, b, n :: SpellsOut(key, a, b, n, i, vmid)
  }

  // The guest of the lookup is vmid of instance i on this node: a machine says so itself,
  // and for anything else the id has to.
  ghost predicate IsGuest(guest: Guest, id: string, i: string, node: string, vmid: int) {
    match guest
    case Other => exists a, b, n :: SpellsOut(id, a, b, n, i, vmid) && node == TrimSpace(b)
    case _ =>
      vmid == guest.vmid > 0 && node == TrimSpace(guest.node) && node != "" &&
      i == if TrimSpace(guest.instance) == "" then node else TrimSpace(guest.instance)
  }

  lemma ThreeJoined(parts: seq<string>)
    requires |parts| == 3
    ensures Join(parts, ':') == parts[0] + ":" + parts[1] + ":" + parts[2]
  {
    assert parts[1..][1..] == [parts[2]] && Join([parts[2]], ':') == parts[2];
    assert Join(parts[1..], ':') == parts[1] + [':'] + parts[2];
    assert parts[0] + [':'] + (parts[1] + [':'] + parts[2]) == parts[0] + ":" + parts[1] + ":" + parts[2];
  }

  // A text is three parts without a colon exactly when splitting at the colons gives them.
  lemma SplitsInThree(s: string, a: string, b: string, n: string)
    ensures Split(s, ':') == [a, b, n] <==> s == a + ":" + b + ":" + n && ':' !in a && ':' !in b && ':' !in n
  {
    ThreeJoined([a, b, n]);
    if Split(s, ':') == [a, b, n] {
      JoinSplit(s, ':');
      SplitSeparates(s, ':');
      assert ':' !in Split(s, ':')[0] && ':' !in Split(s, ':')[1] && ':' !in Split(s, ':')[2];
    }
    if s == a + ":" + b + ":" + n && ':' !in a && ':' !in b && ':' !in n {
      SplitJoin([a, b, n], ':');
    }
  }

  lemma NamedMeans(a: string, b: string, vmid: int, ident: Identity)
    ensures Named(a, b, vmid) == Some(ident) <==>
      ident.vmid == vmid && ident.node == TrimSpace(b) && TrimSpace(b) != "" &&
      ident.instance == if TrimSpace(a) == "" then TrimSpace(b) else TrimSpace(a)
  {
  }

  lemma PartsMean(parts: seq<string>, named: (string, string, int) -> Option<Identity>, atoi: string -> Option<int>, ident: Identity)
    ensures ParseParts(parts, named, atoi) == Some(ident) <==>
      exists a, b, n :: parts == [a, b, n] && atoi(n).Some? && named(a, b, atoi(n).value) == Some(ident)
  {
    if |parts| == 3 {
      assert parts == [parts[0], parts[1], parts[2]];
    }
  }

  lemma ReadsPart(s: string, key: string, a: string, b: string, n: string, ident: Identity)
    requires s == TrimSpace(key)
    ensures Split(s, ':') == [a, b, n] && Atoi(n).Some? && Named(a, b, Atoi(n).value) == Some(ident) <==>
      SpellsOut(key, a, b, n, ident.instance, ident.vmid) && ident.node == TrimSpace(b)
  {
    SplitsInThree(s, a, b, n);
    if Atoi(n).Some? {
      NamedMeans(a, b, Atoi(n).value, ident);
    }
  }

  lemma ParsedMeans(key: string, ident: Identity)
    ensures ParseCanonicalGuestKey(key) == Some(ident) <==>
      exists a, b, n :: SpellsOut(key, a, b, n, ident.instance, ident.vmid) && ident.node == TrimSpace(b)
  {
    var parts := Split(TrimSpace(key), ':');
    PartsMean(parts, Named, Atoi, ident);
    forall a, b, n
      ensures parts == [a, b, n] && Atoi(n).Some? && Named(a, b, Atoi(n).value) == Some(ident) <==>
        SpellsOut(key, a, b, n, ident.instance, ident.vmid) && ident.node == TrimSpace(b)
    {
      ReadsPart(TrimSpace(key), key, a, b, n, ident);
    }
  }

  // A key counts as one of the guest's older ones exactly when it spells out its instance
  // and id, with whatever node.
  lemma OlderKeyIff(key: string, ident: Identity)
    ensures IsCanonicalKeyOf(key, ident) <==> NamesGuest(key, ident.instance, ident.vmid)
  {
    var read := ParseCanonicalGuestKey(key);
    if read.Some? {
      ParsedMeans(key, read.value);
    }
    if a, b, n :| SpellsOut(key, a, b, n, ident.instance, ident.vmid) {
      ParsedMeans(key, Identity(ident.instance, TrimSpace(b), ident.vmid));
    }
  }

  lemma MachineIs(guest: Guest, id: string, ident: Identity, parse: string -> Option<Identity>)
    requires !guest.Other?
    ensures IdentityFrom(guest, id, parse, Named) == Some(ident) <==> IsGuest(guest, id, ident.instance, ident.node, ident.vmid)
  {
    NamedMeans(guest.instance, guest.node, guest.vmid, ident);
  }

  lemma IdentityIff(guest: Guest, id: string, ident: Identity)
    ensures IdentityOf(guest, id) == Some(ident) <==> IsGuest(guest, id, ident.instance, ident.node, ident.vmid)
  {
    if guest.Other? {
      ParsedMeans(id, ident);
    } else {
      MachineIs(guest, id, ident, ParseCanonicalGuestKey);
    }
  }

  // ----- the lookup -----

  // What a lookup with an id that is no key of the table does, for guest vmid of instance i.
  ghost predicate FindsFor<T(!new)>(m: map<string, T>, i: string, node: string, vmid: int, after: map<string, T>, found: Option<T>) {
    var (stable, legacy) := (i + "-" + Itoa(vmid), i + "-" + node + "-" + Itoa(vmid));
    if stable in m then found == Some(m[stable]) && after == m
    else if i == node then found == None && after == m
    else if legacy in m then found == Some(m[legacy]) && after == m[stable := m[legacy]] - {legacy}
    else if exists key :: key in m && NamesGuest(key, i, vmid) then
      exists key :: key in m && NamesGuest(key, i, vmid) && found == Some(m[key]) && after == m[stable := m[key]] - {key}
    else found == None && after == m
  }

  lemma FindsAt<T(!new)>(m: map<string, T>, id: string, at: Places, i: string, node: string, vmid: int,
                         after: map<string, T>, found: Option<T>)
    requires id == "" || id !in m
    requires at.stable == i + "-" + Itoa(vmid) && at.legacy == i + "-" + node + "-" + Itoa(vmid)
    requires (at.clustered <==> i != node) && forall key :: at.older(key) <==> NamesGuest(key, i, vmid)
    requires LookedUp(m, id, Some(at), after, found)
    ensures FindsFor(m, i, node, vmid, after, found)
  {
    if key :| key in m && at.older(key) && found == Some(m[key]) && after == Moved(m, key, at.stable) {
      assert NamesGuest(key, i, vmid);
    }
    if key :| key in m && NamesGuest(key, i, vmid) {
      assert at.older(key);
    }
  }

  lemma PlacesAre(ident: Identity)
    requires Proper(ident)
    ensures PlacesOf(ident).stable == ident.instance + "-" + Itoa(ident.vmid)
    ensures PlacesOf(ident).legacy == ident.instance + "-" + ident.node + "-" + Itoa(ident.vmid)
    ensures PlacesOf(ident).clustered <==> ident.instance != ident.node
    ensures forall key :: PlacesOf(ident).older(key) <==> NamesGuest(key, ident.instance, ident.vmid)
  {
    StableKeyOfTrimmed(ident);
    forall key: string ensures PlacesOf(ident).older(key) <==> NamesGuest(key, ident.instance, ident.vmid) {
      OlderKeyIff(key, ident);
    }
  }

  // The lookup of a guest finds the entry under its instance and id; on a cluster it falls
  // back to the entry that names the node too and then to any key that spells out instance
  // and id, and moves what it finds there.
  lemma GuestFindsItsOverride<T(!new)>(m: map<string, T>, guest: Guest, rawID: string, i: string, node: string, vmid: int,
                                       after: map<string, T>, found: Option<T>)
    requires IsGuest(guest, TrimSpace(rawID), i, node, vmid) && (TrimSpace(rawID) == "" || TrimSpace(rawID) !in m)
    requires Looked(m, guest, rawID, after, found)
    ensures FindsFor(m, i, node, vmid, after, found)
  {
    var ident := Identity(i, node, vmid);
    IdentityIff(guest, TrimSpace(rawID), ident);
    IdentityIsProper(guest, TrimSpace(rawID));
    PlacesAre(ident);
    FindsAt(m, TrimSpace(rawID), PlacesOf(ident), i, node, vmid, after, found);
  }

  // An id that is a key of the table wins; for a guest on a cluster its entry is moved to
  // the instance and id.
  lemma KeyIsTakenAsItIs<T(!new)>(m: map<string, T>, guest: Guest, rawID: string, i: string, node: string, vmid: int,
                                  after: map<string, T>, found: Option<T>)
    requires IsGuest(guest, TrimSpace(rawID), i, node, vmid) && TrimSpace(rawID) != "" && TrimSpace(rawID) in m
    requires Looked(m, guest, rawID, after, found)
    ensures var (id, stable) := (TrimSpace(rawID), i + "-" + Itoa(vmid));
      found == Some(m[id]) && after == if i == node || id == stable then m else m[stable := m[id]] - {id}
  {
    var ident := Identity(i, node, vmid);
    IdentityIff(guest, TrimSpace(rawID), ident);
    IdentityIsProper(guest, TrimSpace(rawID));
    PlacesAre(ident);
  }

  lemma NobodyFindsByIdOnly<T(!new)>(m: map<string, T>, id: string, after: map<string, T>, found: Option<T>)
    requires LookedUp(m, id, None, after, found)
    ensures after == m && found == if id != "" && id in m then Some(m[id]) else None
  {
  }

  // A machine without an id above zero or without a node, and anything else whose id spells
  // out no guest, gets nothing but the entry under the id itself.
  lemma NamelessGuestFindsByIdOnly<T(!new)>(m: map<string, T>, guest: Guest, rawID: string, after: map<string, T>, found: Option<T>)
    requires if guest.Other? then forall i, vmid :: !NamesGuest(TrimSpace(rawID), i, vmid)
      else guest.vmid <= 0 || TrimSpace(guest.node) == ""
    requires Looked(m, guest, rawID, after, found)
    ensures after == m && found == if TrimSpace(rawID) != "" && TrimSpace(rawID) in m then Some(m[TrimSpace(rawID)]) else None
  {
    var read := IdentityOf(guest, TrimSpace(rawID));
    if read.Some? {
      IdentityIff(guest, TrimSpace(rawID), read.value);
      assert guest.Other? ==> NamesGuest(TrimSpace(rawID), read.value.instance, read.value.vmid);
    }
    NobodyFindsByIdOnly(m, TrimSpace(rawID), after, found);
  }

  // So the override of a machine on a cluster follows it: once found, it is found again on
  // whatever node the machine turns up, and nothing changes any more.
  lemma OverrideFollowsMachine<T(!new)>(m: map<string, T>, guest: Guest, rawID: string, after: map<string, T>, o: T,
                                        later: Guest, laterID: string, final: map<string, T>, found: Option<T>)
    requires !guest.Other? && !later.Other? && guest.vmid > 0 && later.vmid == guest.vmid
    requires TrimSpace(guest.instance) != "" && TrimSpace(later.instance) == TrimSpace(guest.instance)
    requires TrimSpace(guest.node) != "" && TrimSpace(guest.node) != TrimSpace(guest.instance) && TrimSpace(later.node) != ""
    requires Looked(m, guest, rawID, after, Some(o)) && Looked(after, later, laterID, final, found)
    requires TrimSpace(laterID) !in after || TrimSpace(laterID) == TrimSpace(guest.instance) + "-" + Itoa(guest.vmid)
    ensures found == Some(o) && final == after
    ensures var key := TrimSpace(guest.instance) + "-" + Itoa(guest.vmid); key in after && after[key] == o
  {
    var i := TrimSpace(guest.instance);
    var (a, b) := (Identity(i, TrimSpace(guest.node), guest.vmid), Identity(i, TrimSpace(later.node), guest.vmid));
    IdentityIff(guest, TrimSpace(rawID), a);
    IdentityIff(later, TrimSpace(laterID), b);
    IdentityIsProper(guest, TrimSpace(rawID));
    StableKeyOfTrimmed(a);
    OverrideSurvivesMoves(m, guest, rawID, after, o, later, laterID, final, found);
  }
}
