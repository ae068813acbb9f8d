// The keys guest overrides are stored under (internal/alerts/filter_evaluation.go:192-275
// and BuildGuestKey in internal/alerts/alerts.go:5574-5581).
module GuestKeys {
  import opened Prelude
  import opened Text
  import opened Numbers

  // ----- identities and keys -----

  datatype Identity = Identity(instance: string, node: string, vmid: int)

  function StableKey(instance: string, node: string, vmid: int): string {
    var i := TrimSpace(instance);
    (if i == "" then TrimSpace(node) else i) + "-" + Itoa(vmid)
  }

  function LegacyKey(ident: Identity): string {
    ident.instance + "-" + ident.node + "-" + Itoa(ident.vmid)
  }

  function BuildGuestKey(instance: string, node: string, vmid: int): string {
    var i := TrimSpace(instance);
    var n := TrimSpace(node);
    (if i == "" then n else i) + ":" + n + ":" + Itoa(vmid)
  }

  // Trimmed, and with the node standing in for a missing instance.
  function Normal(instance: string, node: string, vmid: int): Identity {
    var n := TrimSpace(node);
    var i := TrimSpace(instance);
    Identity(if i == "" then n else i, n, vmid)
  }

  predicate Complete(ident: Identity) {
    ident.instance != "" && ident.node != ""
  }

  function Named(instance: string, node: string, vmid: int): Option<Identity> {
    var ident := Normal(instance, node, vmid);
    if Complete(ident) then Some(ident) else None
  }

  function ParseParts(parts: seq<string>, named: (string, string, int) -> Option<Identity>,
                      atoi: string -> Option<int>): Option<Identity>
  {
    if |parts| != 3 then None
    else
      var vmid := atoi(parts[2]);
      if vmid.None? then None else named(parts[0], parts[1], vmid.value)
  }

  function ParseCanonicalGuestKey(guestID: string): Option<Identity> {
    ParseParts(Split(TrimSpace(guestID), ':'), Named, Atoi)
  }

  predicate ReadsAs(read: Option<Identity>, ident: Identity) {
    read.Some? && read.value.instance == ident.instance && read.value.vmid == ident.vmid
  }

  predicate IsCanonicalKeyOf(key: string, ident: Identity) {
    ReadsAs(ParseCanonicalGuestKey(key), ident)
  }

  // models.VM, models.Container, or anything else (in practice nil).
  datatype Guest =
    | VM(instance: string, node: string, vmid: int)
    | Container(instance: string, node: string, vmid: int)
    | Other

  function IdentityFrom(guest: Guest, guestID: string, parse: string -> Option<Identity>,
                        named: (string, string, int) -> Option<Identity>): Option<Identity>
  {
    match guest
    case Other => parse(guestID)
    case _ => if guest.vmid > 0 then named(guest.instance, guest.node, guest.vmid) else None
  }

  function IdentityOf(guest: Guest, guestID: string): Option<Identity> {
    IdentityFrom(guest, guestID, ParseCanonicalGuestKey, Named)
  }

  predicate Proper(ident: Identity) {
    Complete(ident) && Trimmed(ident.instance) && Trimmed(ident.node)
  }

  lemma NormalIsTrimmed(instance: string, node: string, vmid: int)
    ensures Trimmed(Normal(instance, node, vmid).instance) && Trimmed(Normal(instance, node, vmid).node)
  {
    TrimSpaceTrims(instance);
    TrimSpaceTrims(node);
  }

  predicate ProperIfAny(read: Option<Identity>) {
    read.Some? ==> Proper(read.value)
  }

  lemma ParsedIsProper(parts: seq<string>)
    ensures ProperIfAny(ParseParts(parts, Named, Atoi))
  {
    if |parts| == 3 && Atoi(parts[2]).Some? {
      NamedIsProper(parts[0], parts[1], Atoi(parts[2]).value);
    }
  }

  lemma ReadKeyIsProper(guestID: string)
    ensures ProperIfAny(ParseCanonicalGuestKey(guestID))
  {
    ParsedIsProper(Split(TrimSpace(guestID), ':'));
  }

  lemma FromIsProper(guest: Guest, guestID: string, parse: string -> Option<Identity>,
                     named: (string, string, int) -> Option<Identity>)
    requires ProperIfAny(parse(guestID))
    requires guest.Other? || ProperIfAny(named(guest.instance, guest.node, guest.vmid))
    ensures ProperIfAny(IdentityFrom(guest, guestID, parse, named))
  {
  }

  lemma IdentityIsProper(guest: Guest, guestID: string)
    ensures ProperIfAny(IdentityOf(guest, guestID))
  {
    ReadKeyIsProper(guestID);
    if !guest.Other? {
      NamedIsProper(guest.instance, guest.node, guest.vmid);
    }
    FromIsProper(guest, guestID, ParseCanonicalGuestKey, Named);
  }

  lemma NamedIsProper(instance: string, node: string, vmid: int)
    ensures var ident := Named(instance, node, vmid); ident.Some? ==> Proper(ident.value) && ident.value.vmid == vmid
  {
    NormalIsTrimmed(instance, node, vmid);
  }

  function StableKeyOf(ident: Identity): string {
    StableKey(ident.instance, ident.node, ident.vmid)
  }

  lemma StableKeyOfTrimmed(ident: Identity)
    requires ident.instance != "" && Trimmed(ident.instance)
    ensures StableKeyOf(ident) == ident.instance + "-" + Itoa(ident.vmid)
  {
    TrimSpaceTrims(ident.instance);
  }

  // ----- how the keys are spelled -----

  function Dashed(name: string, vmid: int): string {
    name + "-" + Itoa(vmid)
  }

  function Colonned(name: string, vmid: int): string {
    name + ":" + Itoa(vmid)
  }

  // The names in front of the id in the legacy key and in the key BuildGuestKey makes.
  function ClusterName(ident: Identity): string {
    ident.instance + "-" + ident.node
  }

  function PairName(ident: Identity): string {
    ident.instance + ":" + ident.node
  }

  lemma KeysSpelled(ident: Identity)
    requires Proper(ident)
    ensures StableKeyOf(ident) == Dashed(ident.instance, ident.vmid)
    ensures LegacyKey(ident) == Dashed(ClusterName(ident), ident.vmid)
    ensures BuildGuestKey(ident.instance, ident.node, ident.vmid) == Colonned(PairName(ident), ident.vmid)
  {
    TrimSpaceTrims(ident.instance);
    TrimSpaceTrims(ident.node);
  }

  // A text is found again behind the last of the characters that it has none of.
  lemma AfterLast(a: string, d: string, b: string, e: string, c: char)
    requires c !in d && c !in e && a + [c] + d == b + [c] + e
    ensures a == b && d == e
  {
    var s, t := a + [c] + d, b + [c] + e;
    assert forall k :: |a| < k < |s| ==> s[k] == d[k - |a| - 1];
    assert forall k :: |b| < k < |t| ==> t[k] == e[k - |b| - 1];
    assert s[|a|] == c && t[|b|] == c;
    assert |a| == |b|;
    assert a == s[..|a|] && b == t[..|b|];
    assert d == s[|a| + 1..] && e == t[|b| + 1..];
  }

  // The name as the key reads: the sign of a negative id sticks to it.
  function Signed(name: string, vmid: int): string {
    if vmid < 0 then name + "-" else name
  }

  // Names that read alike in front of ids that read alike.
  predicate Alike(a: string, v: int, b: string, w: int) {
    Signed(a, v) == Signed(b, w) && Magnitude(v) == Magnitude(w)
  }

  lemma DashedSpelled(name: string, vmid: int)
    ensures Dashed(name, vmid) == Signed(name, vmid) + ['-'] + Decimal(Magnitude(vmid))
  {
    if vmid < 0 {
      assert name + "-" + ("-" + Decimal(-vmid)) == name + "-" + ['-'] + Decimal(-vmid);
    }
  }

  lemma DashedEqualIff(a: string, v: int, b: string, w: int)
    ensures Dashed(a, v) == Dashed(b, w) <==> Alike(a, v, b, w)
  {
    DashedSpelled(a, v);
    DashedSpelled(b, w);
    if Dashed(a, v) == Dashed(b, w) {
      DecimalIsDigits(Magnitude(v));
      DecimalIsDigits(Magnitude(w));
      AfterLast(Signed(a, v), Decimal(Magnitude(v)), Signed(b, w), Decimal(Magnitude(w)), '-');
      DecimalInjective(Magnitude(v), Magnitude(w));
    }
  }

  lemma NoColonInItoa(n: int)
    ensures ':' !in Itoa(n)
    ensures Trimmed(Itoa(n)) && Itoa(n) != ""
  {
    DecimalIsDigits(Magnitude(n));
    var d := Decimal(Magnitude(n));
    assert IsDigit(d[0]) && IsDigit(d[|d| - 1]);
  }

  lemma ColonnedEqualIff(a: string, v: int, b: string, w: int)
    ensures Colonned(a, v) == Colonned(b, w) <==> a == b && v == w
  {
    if Colonned(a, v) == Colonned(b, w) {
      NoColonInItoa(v);
      NoColonInItoa(w);
      AfterLast(a, Itoa(v), b, Itoa(w), ':');
      ItoaInjective(v, w);
    }
  }

  lemma DigitsBehind(a: string, c: string, d: string)
    requires AllDigits(d) && |c| == 1
    ensures var s := a + c + d; s[|a|] == c[0] && forall k :: |a| < k < |s| ==> IsDigit(s[k])
  {
    var s := a + c + d;
    assert forall k :: |a| < k < |s| ==> s[k] == d[k - |a| - 1];
  }

  lemma ColonIsNoDash(a: string, d: string, b: string, e: string)
    requires AllDigits(d) && AllDigits(e)
    ensures a + ":" + d != b + "-" + e
  {
    DigitsBehind(a, ":", d);
    DigitsBehind(b, "-", e);
  }

  // A key with a colon before its id reads like one with a dash only through its sign.
  lemma ColonnedIsDashedIff(a: string, v: int, b: string, w: int)
    ensures Colonned(a, v) == Dashed(b, w) <==> v < 0 && w == -v && b == a + ":"
  {
    if v < 0 {
      assert a + ":" + ("-" + Decimal(-v)) == a + ":" + "-" + Decimal(-v);
      assert Colonned(a, v) == Dashed(a + ":", -v);
      DashedEqualIff(a + ":", -v, b, w);
      if w < 0 {
        assert (a + ":")[|a|] == ':' && (b + "-")[|b|] == '-';
      }
    } else {
      DashedSpelled(b, w);
      DecimalIsDigits(v);
      DecimalIsDigits(Magnitude(w));
      ColonIsNoDash(a, Decimal(v), Signed(b, w), Decimal(Magnitude(w)));
    }
  }

  // ----- which keys of two guests are the same -----

  // Stable keys are the same exactly for names and ids that read alike: the same instance
  // and id, or opposite ids where one instance has a dash more.
  lemma StableKeyInjective(a: Identity, b: Identity)
    requires Proper(a) && Proper(b)
    ensures StableKeyOf(a) == StableKeyOf(b) <==> Alike(a.instance, a.vmid, b.instance, b.vmid)
    ensures (a.vmid < 0 <==> b.vmid < 0) ==>
      (StableKeyOf(a) == StableKeyOf(b) <==> a.instance == b.instance && a.vmid == b.vmid)
  {
    KeysSpelled(a);
    KeysSpelled(b);
    DashedEqualIff(a.instance, a.vmid, b.instance, b.vmid);
    SameKeys(StableKeyOf(a), StableKeyOf(b), Dashed(a.instance, a.vmid), Dashed(b.instance, b.vmid),
             Alike(a.instance, a.vmid, b.instance, b.vmid));
    if a.vmid < 0 <==> b.vmid < 0 {
      SameSignAlike(a.instance, a.vmid, b.instance, b.vmid);
    }
  }

  lemma SameKeys(s: string, t: string, d: string, e: string, same: bool)
    requires s == d && t == e && (d == e <==> same)
    ensures s == t <==> same
  {
  }

  lemma SameSignAlike(a: string, v: int, b: string, w: int)
    requires v < 0 <==> w < 0
    ensures Alike(a, v, b, w) <==> a == b && v == w
  {
    if v < 0 && a + "-" == b + "-" {
      assert a == (a + "-")[..|a|] && b == (b + "-")[..|b|];
    }
  }

  // Negative ids, which only the key parser lets through, make two guests' keys the same.
  lemma NegativeIdCollides(a: Identity, b: Identity)
    requires Proper(a) && Proper(b) && a.vmid < 0 && b.vmid == -a.vmid && b.instance == a.instance + "-"
    ensures a != b && StableKeyOf(a) == StableKeyOf(b)
  {
    StableKeyInjective(a, b);
  }

  lemma NegativeIdsCollide(a: Identity, b: Identity)
    requires a == Identity("a", "n", -5) && b == Identity("a-", "n", 5)
    ensures StableKeyOf(a) == StableKeyOf(b)
  {
    assert Proper(a) && Proper(b);
    NegativeIdCollides(a, b);
  }

  // The legacy key of one guest is the stable key of another exactly when the other's
  // instance reads like the first one's instance and node.
  lemma LegacyIsStableIff(ident: Identity, other: Identity)
    requires Proper(ident) && Proper(other)
    ensures LegacyKey(ident) == StableKeyOf(other) <==> Alike(ClusterName(ident), ident.vmid, other.instance, other.vmid)
  {
    KeysSpelled(ident);
    KeysSpelled(other);
    DashedEqualIff(ClusterName(ident), ident.vmid, other.instance, other.vmid);
    SameKeys(LegacyKey(ident), StableKeyOf(other), Dashed(ClusterName(ident), ident.vmid), Dashed(other.instance, other.vmid),
             Alike(ClusterName(ident), ident.vmid, other.instance, other.vmid));
  }

  // Two guests have one legacy key exactly when their instances and nodes read alike
  // together.
  lemma LegacyIsLegacyIff(ident: Identity, other: Identity)
    requires Proper(ident) && Proper(other)
    ensures LegacyKey(ident) == LegacyKey(other) <==> Alike(ClusterName(ident), ident.vmid, ClusterName(other), other.vmid)
  {
    DashedEqualIff(ClusterName(ident), ident.vmid, ClusterName(other), other.vmid);
  }

  // ----- what the key parser reads -----

  lemma TrimmedEnds(a: string, middle: string, c: string)
    requires a != "" && c != "" && Trimmed(a) && Trimmed(c)
    ensures TrimSpace(a + middle + c) == a + middle + c
  {
    var key := a + middle + c;
    assert key[0] == a[0] && key[|key| - 1] == c[|c| - 1];
    TrimSpaceTrims(key);
  }

  lemma ProperIsNamed(ident: Identity)
    requires Proper(ident)
    ensures Named(ident.instance, ident.node, ident.vmid) == Some(ident)
  {
    TrimSpaceTrims(ident.instance);
    TrimSpaceTrims(ident.node);
  }

  predicate Parsable(ident: Identity) {
    ':' !in ident.instance && ':' !in ident.node && MIN_INT <= ident.vmid <= MAX_INT
  }

  lemma ParseOfParts(key: string, parts: seq<string>, named: (string, string, int) -> Option<Identity>,
                     atoi: string -> Option<int>)
    requires TrimSpace(key) == key && Split(key, ':') == parts
    ensures ParseParts(Split(TrimSpace(key), ':'), named, atoi) == ParseParts(parts, named, atoi)
  {
  }

  lemma ThreeParts(names: seq<string>, id: string, named: (string, string, int) -> Option<Identity>, atoi: string -> Option<int>)
    ensures ParseParts(names + [id], named, atoi) ==
      if |names| == 2 && atoi(id).Some? then named(names[0], names[1], atoi(id).value) else None
  {
  }

  lemma SplitPair(a: string, b: string)
    ensures Split(a + ":" + b, ':') == Split(a, ':') + Split(b, ':')
    ensures |Split(a + ":" + b, ':')| == 2 <==> ':' !in a && ':' !in b
    ensures ':' !in a && ':' !in b ==> Split(a + ":" + b, ':') == [a, b]
  {
    SplitConcat(a, b, ':');
    OnePartIff(a, ':');
    OnePartIff(b, ':');
    if ':' !in a && ':' !in b {
      SplitNone(a, ':');
      SplitNone(b, ':');
    }
  }

  lemma ParseOfNames(key: string, names: seq<string>, id: string, named: (string, string, int) -> Option<Identity>,
                     atoi: string -> Option<int>)
    requires TrimSpace(key) == key && Split(key, ':') == names + [id]
    ensures ParseParts(Split(TrimSpace(key), ':'), named, atoi) ==
      if |names| == 2 && atoi(id).Some? then named(names[0], names[1], atoi(id).value) else None
  {
    ParseOfParts(key, names + [id], named, atoi);
    ThreeParts(names, id, named, atoi);
  }

  // a and b are the names in front of the id.
  lemma ParseColonned(a: string, b: string, id: string, named: (string, string, int) -> Option<Identity>,
                      atoi: string -> Option<int>)
    requires ':' !in id && TrimSpace(a + ":" + b + ":" + id) == a + ":" + b + ":" + id
    ensures ParseParts(Split(TrimSpace(a + ":" + b + ":" + id), ':'), named, atoi) ==
      if ':' !in a && ':' !in b && atoi(id).Some? then named(a, b, atoi(id).value) else None
  {
    PairSplits(a + ":" + b, id);
    SplitPair(a, b);
    ParseOfNames(a + ":" + b + ":" + id, Split(a + ":" + b, ':'), id, named, atoi);
  }

  lemma PairTrimmed(ident: Identity, id: string)
    requires Proper(ident) && id != "" && Trimmed(id)
    ensures TrimSpace(PairName(ident) + ":" + id) == PairName(ident) + ":" + id
  {
    TrimmedEnds(ident.instance, ":" + ident.node + ":", id);
    assert PairName(ident) + ":" + id == ident.instance + (":" + ident.node + ":") + id;
  }

  lemma PairSplits(name: string, id: string)
    requires ':' !in id
    ensures Split(name + ":" + id, ':') == Split(name, ':') + [id]
  {
    SplitConcat(name, id, ':');
    SplitNone(id, ':');
  }

  lemma ParseAs(key: string, spelled: string, read: Option<Identity>)
    requires key == spelled && ParseParts(Split(TrimSpace(spelled), ':'), Named, Atoi) == read
    ensures ParseCanonicalGuestKey(key) == read
  {
  }

  // What the names and the id of a built key read as.
  function ReadColonned(ident: Identity): Option<Identity> {
    var vmid := Atoi(Itoa(ident.vmid));
    if ':' !in ident.instance && ':' !in ident.node && vmid.Some? then Named(ident.instance, ident.node, vmid.value) else None
  }

  lemma ReadsBack(ident: Identity)
    requires Proper(ident)
    ensures ReadColonned(ident) == if Parsable(ident) then Some(ident) else None
  {
    AtoiItoa(ident.vmid);
    ProperIsNamed(ident);
  }

  lemma ParsePair(ident: Identity)
    requires Proper(ident)
    ensures ParseParts(Split(TrimSpace(Colonned(PairName(ident), ident.vmid)), ':'), Named, Atoi) == ReadColonned(ident)
  {
    NoColonInItoa(ident.vmid);
    PairTrimmed(ident, Itoa(ident.vmid));
    ParseColonned(ident.instance, ident.node, Itoa(ident.vmid), Named, Atoi);
  }

  // The parser reads back what BuildGuestKey builds exactly when neither name has a colon
  // (and the id is a machine integer); it reads no other guest from it.
  lemma ParseBuiltKey(ident: Identity)
    requires Proper(ident)
    ensures ParseCanonicalGuestKey(BuildGuestKey(ident.instance, ident.node, ident.vmid)) ==
      if Parsable(ident) then Some(ident) else None
  {
    KeysSpelled(ident);
    ParsePair(ident);
    ReadsBack(ident);
    ParseAs(BuildGuestKey(ident.instance, ident.node, ident.vmid), Colonned(PairName(ident), ident.vmid),
            if Parsable(ident) then Some(ident) else None);
  }

  lemma ColonIsNotReadBack()
    ensures ParseCanonicalGuestKey(BuildGuestKey("a:b", "n", 5)) == None
  {
    assert "a:b"[1] == ':';
    ParseBuiltKey(Identity("a:b", "n", 5));
  }

  // What the parser makes of a name and an id with a dash between them: the name must end
  // in a colon, and the dash becomes the sign of the id.
  function ReadParts(parts: seq<string>, vmid: int, named: (string, string, int) -> Option<Identity>): Option<Identity> {
    if |parts| == 3 && parts[2] == "" && 0 <= vmid <= -MIN_INT then named(parts[0], parts[1], -vmid) else None
  }

  function ReadDashed(name: string, vmid: int): Option<Identity> {
    ReadParts(Split(name, ':'), vmid, Named)
  }

  lemma AppendedRead(parts: seq<string>, d: string, vmid: int, named: (string, string, int) -> Option<Identity>,
                     atoi: string -> Option<int>)
    requires parts != []
    requires atoi(parts[|parts| - 1] + d) == if parts[|parts| - 1] == "" && 0 <= vmid <= -MIN_INT then Some(-vmid) else None
    ensures ParseParts(Appended(parts, d), named, atoi) == ReadParts(parts, vmid, named)
  {
    ThreeParts(parts[..|parts| - 1], parts[|parts| - 1] + d, named, atoi);
  }

  lemma NameTrimmed(name: string, d: string)
    requires name != "" && Trimmed(name) && d != "" && !IsSpace(d[|d| - 1])
    ensures TrimSpace(name + d) == name + d
  {
    TrimSpaceTrims(name + d);
  }

  lemma ParseDashedParts(name: string, d: string, vmid: int, parts: seq<string>,
                         named: (string, string, int) -> Option<Identity>, atoi: string -> Option<int>)
    requires TrimSpace(name + d) == name + d && ':' !in d && parts == Split(name, ':')
    requires atoi(parts[|parts| - 1] + d) == if parts[|parts| - 1] == "" && 0 <= vmid <= -MIN_INT then Some(-vmid) else None
    ensures ParseParts(Split(TrimSpace(name + d), ':'), named, atoi) == ReadParts(parts, vmid, named)
  {
    SplitAppended(name, d, ':');
    ParseOfParts(name + d, Appended(parts, d), named, atoi);
    AppendedRead(parts, d, vmid, named, atoi);
  }

  lemma BehindDash(x: string, n: int)
    ensures x + ("-" + Itoa(n)) == x + "-" + Itoa(n)
  {
  }

  lemma ParseDashedKey(name: string, d: string, vmid: int)
    requires name != "" && Trimmed(name) && ':' !in d && d != "" && !IsSpace(d[|d| - 1])
    requires forall x :: Atoi(x + d) == if x == "" && 0 <= vmid <= -MIN_INT then Some(-vmid) else None
    ensures ParseCanonicalGuestKey(name + d) == ReadDashed(name, vmid)
  {
    NameTrimmed(name, d);
    ParseDashedParts(name, d, vmid, Split(name, ':'), Named, Atoi);
  }

  lemma ParseDashed(name: string, vmid: int)
    requires name != "" && Trimmed(name)
    ensures ParseCanonicalGuestKey(Dashed(name, vmid)) == ReadDashed(name, vmid)
  {
    NoColonInItoa(vmid);
    forall x: string ensures Atoi(x + ("-" + Itoa(vmid))) == if x == "" && 0 <= vmid <= -MIN_INT then Some(-vmid) else None {
      AtoiOfDashed(x, vmid);
      BehindDash(x, vmid);
    }
    ParseDashedKey(name, "-" + Itoa(vmid), vmid);
    BehindDash(name, vmid);
  }

  lemma NoColonReadsNothing(name: string, vmid: int)
    requires ':' !in name
    ensures ReadDashed(name, vmid) == None
  {
    SplitNone(name, ':');
  }

  // The key BuildGuestKey makes for one guest is another's stable or legacy key only
  // through the sign of a negative id, and a key of another's node exactly for the same
  // instance and id.
  lemma BuiltIsDashedIff(b: Identity, name: string, vmid: int)
    requires Proper(b)
    ensures BuildGuestKey(b.instance, b.node, b.vmid) == Dashed(name, vmid) <==>
      b.vmid < 0 && vmid == -b.vmid && name == PairName(b) + ":"
  {
    KeysSpelled(b);
    ColonnedIsDashedIff(PairName(b), b.vmid, name, vmid);
    SameKeys(BuildGuestKey(b.instance, b.node, b.vmid), Dashed(name, vmid), Colonned(PairName(b), b.vmid), Dashed(name, vmid),
             b.vmid < 0 && vmid == -b.vmid && name == PairName(b) + ":");
  }

  lemma BuiltIsCanonicalIff(b: Identity, a: Identity)
    requires Proper(b)
    ensures IsCanonicalKeyOf(BuildGuestKey(b.instance, b.node, b.vmid), a) <==>
      Parsable(b) && a.instance == b.instance && a.vmid == b.vmid
  {
    ParseBuiltKey(b);
    CanonicalAs(BuildGuestKey(b.instance, b.node, b.vmid), if Parsable(b) then Some(b) else None, a);
  }

  lemma CanonicalAs(key: string, read: Option<Identity>, a: Identity)
    requires ParseCanonicalGuestKey(key) == read
    ensures IsCanonicalKeyOf(key, a) <==> ReadsAs(read, a)
  {
  }

  lemma BuiltIsBuiltIff(a: Identity, b: Identity)
    requires Proper(a) && Proper(b)
    ensures BuildGuestKey(a.instance, a.node, a.vmid) == BuildGuestKey(b.instance, b.node, b.vmid) <==>
      PairName(a) == PairName(b) && a.vmid == b.vmid
  {
    KeysSpelled(a);
    KeysSpelled(b);
    ColonnedEqualIff(PairName(a), a.vmid, PairName(b), b.vmid);
    SameKeys(BuildGuestKey(a.instance, a.node, a.vmid), BuildGuestKey(b.instance, b.node, b.vmid),
             Colonned(PairName(a), a.vmid), Colonned(PairName(b), b.vmid), PairName(a) == PairName(b) && a.vmid == b.vmid);
  }
}
