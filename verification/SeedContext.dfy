// Reducing the patrol seed prompt to a budget (internal/ai/patrol_ai.go:1237-1403).
// The fixed texts, the priorities and the two renderings are fields of a layout;
// PatrolLayout has the source's.
module SeedContext {
  import opened Sorting
  import opened SeedSections

  datatype Layout = Layout(note: string, marker: string, priority: Section -> int,
    render: Section -> string, cut: (Section, int) -> string)

  datatype Piece = Piece(order: int, text: string)

  datatype Selection = Selection(chosen: seq<Piece>, used: nat)

  // ----- choosing sections by rank -----

  function OrderOf(s: Section): int { s.order }

  function PieceOrder(p: Piece): int { p.order }

  function Ranked(layout: Layout, sections: seq<Section>): seq<Section> {
    SortBy(layout.priority, OrderOf, sections)
  }

  function TakeOne(layout: Layout, room: int, st: Selection, s: Section): Selection {
    if st.used + |layout.render(s)| <= room then
      Selection(st.chosen + [Piece(s.order, layout.render(s))], st.used + |layout.render(s)|)
    else
      var text := layout.cut(s, room - st.used);
      if text == "" then st else Selection(st.chosen + [Piece(s.order, text)], st.used + |text|)
  }

  function TakeAll(layout: Layout, room: int, ranked: seq<Section>): Selection {
    if ranked == [] then Selection([], 0)
    else TakeOne(layout, room, TakeAll(layout, room, ranked[..|ranked| - 1]), ranked[|ranked| - 1])
  }

  lemma TakeAllNext(layout: Layout, room: int, ranked: seq<Section>, i: nat)
    requires i < |ranked|
    ensures TakeAll(layout, room, ranked[..i + 1]) == TakeOne(layout, room, TakeAll(layout, room, ranked[..i]), ranked[i])
  {
    assert ranked[..i + 1][..i] == ranked[..i];
  }

  function Selected(layout: Layout, sections: seq<Section>, maxChars: int): seq<Piece> {
    TakeAll(layout, maxChars - |layout.note|, Ranked(layout, sections)).chosen
  }

  function InOrder(chosen: seq<Piece>): seq<Piece> {
    SortBy(PieceOrder, PieceOrder, chosen)
  }

  function Assembled(pieces: seq<Piece>): string {
    if pieces == [] then "" else Assembled(pieces[..|pieces| - 1]) + pieces[|pieces| - 1].text
  }

  // The fallback: the first characters, with the marker where there is room for it.
  function CutOff(layout: Layout, s: string, maxChars: int): string
    requires 0 < maxChars < |s|
  {
    if maxChars <= 48 then s[..maxChars] else s[..maxChars - 44] + layout.marker
  }

  function Reduced(layout: Layout, sections: seq<Section>, seed: string, maxChars: int): string {
    if maxChars <= 0 || |seed| <= maxChars then seed
    else if sections == [] then CutOff(layout, seed, maxChars)
    else if |layout.note| >= maxChars then layout.note[..maxChars]
    else
      var chosen := Selected(layout, sections, maxChars);
      if chosen == [] then CutOff(layout, seed, maxChars)
      else
        var result := layout.note + Assembled(InOrder(chosen));
        if |result| <= maxChars then result else CutOff(layout, result, maxChars)
  }

  method ReducePatrolSeedContext(layout: Layout, seed: string, maxChars: int) returns (reduced: string)
    ensures reduced == Reduced(layout, Sections(seed), seed, maxChars)
  {
    if maxChars <= 0 || |seed| <= maxChars {
      return seed;
    }
    var sections := SplitPatrolSeedSections(seed);
    reduced := ReduceSections(layout, sections, seed, maxChars);
  }

  method ReduceSections(layout: Layout, sections: seq<Section>, seed: string, maxChars: int) returns (reduced: string)
    requires 0 < maxChars < |seed|
    ensures reduced == Reduced(layout, sections, seed, maxChars)
  {
    if |sections| == 0 {
      if maxChars <= 48 {
        return seed[..maxChars];
      }
      return seed[..maxChars - 44] + layout.marker;
    }
    if |layout.note| >= maxChars {
      return layout.note[..maxChars];
    }
    var chosen := Choose(layout, sections, maxChars);
    if |chosen| == 0 {
      if maxChars <= 48 {
        return seed[..maxChars];
      }
      return seed[..maxChars - 44] + layout.marker;
    }
    var result := Build(layout.note, InOrder(chosen));
    if |result| <= maxChars {
      return result;
    }
    if maxChars <= 48 {
      return result[..maxChars];
    }
    return result[..maxChars - 44] + layout.marker;
  }

  method Choose(layout: Layout, sections: seq<Section>, maxChars: int) returns (chosen: seq<Piece>)
    ensures chosen == Selected(layout, sections, maxChars)
  {
    var remaining := maxChars - |layout.note|;
    var ranked := Ranked(layout, sections);
    chosen := [];
    var used: nat := 0;
    for i := 0 to |ranked|
      invariant Selection(chosen, used) == TakeAll(layout, remaining, ranked[..i])
    {
      TakeAllNext(layout, remaining, ranked, i);
      var text := layout.render(ranked[i]);
      if used + |text| <= remaining {
        chosen := chosen + [Piece(ranked[i].order, text)];
        used := used + |text|;
        continue;
      }
      var truncated := layout.cut(ranked[i], remaining - used);
      if truncated == "" {
        continue;
      }
      chosen := chosen + [Piece(ranked[i].order, truncated)];
      used := used + |truncated|;
    }
    assert ranked[..|ranked|] == ranked;
  }

  method Build(note: string, pieces: seq<Piece>) returns (result: string)
    ensures result == note + Assembled(pieces)
  {
    result := note;
    assert note + "" == note;
    for i := 0 to |pieces|
      invariant result == note + Assembled(pieces[..i])
    {
      assert pieces[..i + 1][..i] == pieces[..i];
      assert note + Assembled(pieces[..i]) + pieces[i].text == note + (Assembled(pieces[..i]) + pieces[i].text);
      result := result + pieces[i].text;
    }
    assert pieces[..|pieces|] == pieces;
  }

  // ----- the budget is kept -----

  // What the source's texts and its truncation satisfy.
  ghost predicate Fits(layout: Layout) {
    |layout.marker| == 48 && |layout.note| > 48 &&
    forall s: Section, m: nat :: |layout.cut(s, m)| <= m
  }

  function Size(pieces: seq<Piece>): nat {
    if pieces == [] then 0 else Size(pieces[..|pieces| - 1]) + |pieces[|pieces| - 1].text|
  }

  lemma SizeAppend(pieces: seq<Piece>, p: Piece)
    ensures Size(pieces + [p]) == Size(pieces) + |p.text|
  {
    assert (pieces + [p])[..|pieces|] == pieces;
  }

  lemma {:induction false} SizeFront(p: Piece, pieces: seq<Piece>)
    ensures Size([p] + pieces) == |p.text| + Size(pieces)
  {
    if pieces == [] {
      assert [p] + pieces == [p] && [p][..0] == [];
    } else {
      assert ([p] + pieces)[..|pieces|] == [p] + pieces[..|pieces| - 1];
      SizeFront(p, pieces[..|pieces| - 1]);
    }
  }

  lemma {:induction false} AssembledSize(pieces: seq<Piece>)
    ensures |Assembled(pieces)| == Size(pieces)
  {
    if pieces != [] {
      AssembledSize(pieces[..|pieces| - 1]);
    }
  }

  lemma {:induction false} InsertSize(p: Piece, s: seq<Piece>)
    ensures Size(InsertBy(PieceOrder, PieceOrder, p, s)) == |p.text| + Size(s)
  {
    if s == [] || Before(PieceOrder, PieceOrder, p, s[0]) {
      SizeFront(p, s);
      assert [p] + s == if s == [] then [p] else [p] + s;
    } else {
      InsertSize(p, s[1..]);
      SizeFront(s[0], InsertBy(PieceOrder, PieceOrder, p, s[1..]));
      SizeFront(s[0], s[1..]);
      assert s == [s[0]] + s[1..];
    }
  }

  lemma {:induction false} SortedSize(s: seq<Piece>)
    ensures Size(InOrder(s)) == Size(s)
  {
    if s != [] {
      SortedSize(s[..|s| - 1]);
      InsertSize(s[|s| - 1], InOrder(s[..|s| - 1]));
    }
  }

  lemma TakeOneKeepsBudget(layout: Layout, room: int, st: Selection, s: Section)
    requires Fits(layout) && st.used <= room && Size(st.chosen) == st.used
    ensures var next := TakeOne(layout, room, st, s);
      st.used <= next.used <= room && Size(next.chosen) == next.used
  {
    SizeAppend(st.chosen, Piece(s.order, layout.render(s)));
    SizeAppend(st.chosen, Piece(s.order, layout.cut(s, room - st.used)));
  }

  lemma {:induction false} TakeAllKeepsBudget(layout: Layout, room: int, ranked: seq<Section>)
    requires Fits(layout) && 0 <= room
    ensures var st := TakeAll(layout, room, ranked);
      st.used <= room && Size(st.chosen) == st.used
  {
    if ranked != [] {
      TakeAllKeepsBudget(layout, room, ranked[..|ranked| - 1]);
      TakeOneKeepsBudget(layout, room, TakeAll(layout, room, ranked[..|ranked| - 1]), ranked[|ranked| - 1]);
    }
  }

  lemma ResultSize(layout: Layout, sections: seq<Section>, maxChars: int)
    requires Fits(layout) && |layout.note| <= maxChars
    ensures var st := TakeAll(layout, maxChars - |layout.note|, Ranked(layout, sections));
      |layout.note + Assembled(InOrder(st.chosen))| == |layout.note| + st.used <= maxChars
  {
    var room, ranked := maxChars - |layout.note|, Ranked(layout, sections);
    var chosen := TakeAll(layout, room, ranked).chosen;
    TakeAllKeepsBudget(layout, room, ranked);
    SortedSize(chosen);
    AssembledSize(InOrder(chosen));
  }

  // Whatever is chosen fits, so the last fallback of the source is never taken.
  lemma ChosenFits(layout: Layout, sections: seq<Section>, maxChars: int)
    requires Fits(layout) && |layout.note| < maxChars
    ensures |layout.note + Assembled(InOrder(Selected(layout, sections, maxChars)))| <= maxChars
  {
    ResultSize(layout, sections, maxChars);
  }

  // No section is shown, not even cut short.
  ghost predicate NothingShown(layout: Layout, sections: seq<Section>, maxChars: int) {
    sections == [] || (|layout.note| < maxChars && Selected(layout, sections, maxChars) == [])
  }

  // The budget is exceeded exactly when no section is shown and the marker, for which the
  // source sets aside four characters too few, is added; then it is exceeded by four.
  lemma ReducedSize(layout: Layout, sections: seq<Section>, seed: string, maxChars: int)
    requires Fits(layout) && 0 < maxChars
    ensures var over := |seed| > maxChars > 48 && NothingShown(layout, sections, maxChars);
      |Reduced(layout, sections, seed, maxChars)| <= maxChars + (if over then 4 else 0) &&
      (over ==> |Reduced(layout, sections, seed, maxChars)| == maxChars + 4)
  {
    if |layout.note| < maxChars {
      ChosenFits(layout, sections, maxChars);
    }
  }

  // ----- which sections are kept -----

  // Neither the whole section nor a shortened one fits in room characters.
  ghost predicate Refused(layout: Layout, room: int, s: Section) {
    |layout.render(s)| > room && layout.cut(s, room) == ""
  }

  lemma {:induction false} NothingTakenIff(layout: Layout, room: int, ranked: seq<Section>)
    requires Fits(layout) && 0 <= room
    ensures TakeAll(layout, room, ranked).chosen == [] <==> forall s :: s in ranked ==> Refused(layout, room, s)
  {
    if ranked != [] {
      var front, last := ranked[..|ranked| - 1], ranked[|ranked| - 1];
      assert ranked == front + [last];
      NothingTakenIff(layout, room, front);
      TakeAllKeepsBudget(layout, room, front);
      var st := TakeAll(layout, room, front);
      if st.chosen == [] {
        assert st == Selection([], 0);
        assert TakeOne(layout, room, st, last).chosen == [] <==> Refused(layout, room, last);
      } else {
        assert |TakeOne(layout, room, st, last).chosen| >= |st.chosen|;
        assert forall s :: s in front ==> s in ranked;
      }
    }
  }

  ghost predicate SameSections(a: seq<Section>, b: seq<Section>) {
    multiset(a) == multiset(b) && forall s :: s in a <==> s in b
  }

  lemma Rearranged(a: seq<Section>, b: seq<Section>)
    requires multiset(a) == multiset(b)
    ensures SameSections(a, b)
  {
    forall s ensures s in a <==> s in b {
      assert s in multiset(a) <==> s in multiset(b);
    }
  }

  lemma RankedRearranges(layout: Layout, sections: seq<Section>)
    ensures SameSections(Ranked(layout, sections), sections)
  {
    SortBySorts(layout.priority, OrderOf, sections);
    Rearranged(Ranked(layout, sections), sections);
  }

  // No section is shown exactly when each is refused the whole room left by the note.
  lemma NothingShownIff(layout: Layout, sections: seq<Section>, maxChars: int)
    requires Fits(layout) && |layout.note| < maxChars
    ensures NothingShown(layout, sections, maxChars) <==>
      forall s :: s in sections ==> Refused(layout, maxChars - |layout.note|, s)
  {
    RankedRearranges(layout, sections);
    RefusedAlike(layout, maxChars - |layout.note|, Ranked(layout, sections), sections);
  }

  lemma RefusedAlike(layout: Layout, room: int, ranked: seq<Section>, sections: seq<Section>)
    requires Fits(layout) && 0 <= room && SameSections(ranked, sections)
    ensures TakeAll(layout, room, ranked).chosen == [] <==> forall s :: s in sections ==> Refused(layout, room, s)
  {
    NothingTakenIff(layout, room, ranked);
  }

  // The piece shows the section, whole or cut to some room.
  ghost predicate Shows(layout: Layout, room: int, s: Section, p: Piece) {
    p.order == s.order &&
    (p.text == layout.render(s) ||
     (p.text != "" && exists m :: m <= room && |layout.render(s)| > m && p.text == layout.cut(s, m)))
  }

  ghost predicate AllShow(layout: Layout, room: int, ranked: seq<Section>, chosen: seq<Piece>) {
    forall p :: p in chosen ==> exists s :: s in ranked && Shows(layout, room, s, p)
  }

  ghost predicate DistinctOrders(sections: seq<Section>) {
    forall i, j :: 0 <= i < j < |sections| ==> sections[i].order != sections[j].order
  }

  ghost predicate DistinctPieces(chosen: seq<Piece>) {
    forall i, j :: 0 <= i < j < |chosen| ==> chosen[i].order != chosen[j].order
  }

  lemma TakeOneShows(layout: Layout, room: int, st: Selection, s: Section)
    ensures var next := TakeOne(layout, room, st, s).chosen;
      next == st.chosen ||
      (|next| == |st.chosen| + 1 && next[..|st.chosen|] == st.chosen && Shows(layout, room, s, next[|st.chosen|]))
  {
  }

  lemma {:induction false} TakeAllShows(layout: Layout, room: int, ranked: seq<Section>)
    requires DistinctOrders(ranked)
    ensures AllShow(layout, room, ranked, TakeAll(layout, room, ranked).chosen)
    ensures DistinctPieces(TakeAll(layout, room, ranked).chosen)
  {
    if ranked != [] {
      var front, last := ranked[..|ranked| - 1], ranked[|ranked| - 1];
      TakeAllShows(layout, room, front);
      var st := TakeAll(layout, room, front);
      TakeOneShows(layout, room, st, last);
      ShowsAfter(layout, room, front, last, st.chosen, TakeAll(layout, room, ranked).chosen);
    }
  }

  lemma ShowsAfter(layout: Layout, room: int, front: seq<Section>, last: Section, before: seq<Piece>, after: seq<Piece>)
    requires AllShow(layout, room, front, before) && DistinctPieces(before)
    requires forall i :: 0 <= i < |front| ==> front[i].order != last.order
    requires after == before ||
      (|after| == |before| + 1 && after[..|before|] == before && Shows(layout, room, last, after[|before|]))
    ensures AllShow(layout, room, front + [last], after) && DistinctPieces(after)
  {
    var n := |before|;
    forall p | p in after ensures exists s :: s in front + [last] && Shows(layout, room, s, p) {
      if p in before {
        var s :| s in front && Shows(layout, room, s, p);
        assert s in front + [last];
      } else {
        assert after == before + [after[n]] && last in front + [last];
      }
    }
    if after != before {
      forall i | 0 <= i < n ensures after[i].order != after[n].order {
        assert after[i] == before[i] && before[i] in before;
        var s :| s in front && Shows(layout, room, s, before[i]);
      }
      assert forall i :: 0 <= i < n ==> after[i] == before[i];
    }
  }

  lemma CountTwice(s: seq<Section>, i: nat, j: nat)
    requires i < j < |s| && s[i] == s[j]
    ensures multiset(s)[s[i]] >= 2
  {
    assert s == s[..j] + [s[j]] + s[j + 1..];
    assert s[i] in s[..j];
  }

  lemma CountOnce(s: seq<Section>, i: nat)
    requires i < |s| && forall j :: 0 <= j < |s| ==> s[j].order == j
    ensures multiset(s)[s[i]] == 1
  {
    assert s == s[..i] + [s[i]] + s[i + 1..];
    assert s[i] !in s[..i] && s[i] !in s[i + 1..];
  }

  lemma DistinctRearranged(a: seq<Section>, b: seq<Section>)
    requires multiset(a) == multiset(b)
    requires forall i :: 0 <= i < |a| ==> a[i].order == i
    ensures DistinctOrders(b)
  {
    forall i: nat, j: nat | i < j < |b| ensures b[i].order != b[j].order {
      assert b[i] in multiset(a) && b[j] in multiset(a);
      if b[i].order == b[j].order {
        CountTwice(b, i, j);
        CountOnce(a, b[i].order);
      }
    }
  }

  ghost predicate Faithful(layout: Layout, room: int, sections: seq<Section>, kept: seq<Piece>) {
    forall i :: 0 <= i < |kept| ==>
      0 <= kept[i].order < |sections| && Shows(layout, room, sections[kept[i].order], kept[i])
  }

  ghost predicate Ascending(kept: seq<Piece>) {
    forall i, j :: 0 <= i < j < |kept| ==> kept[i].order < kept[j].order
  }

  ghost predicate InOriginalOrder(layout: Layout, room: int, sections: seq<Section>, kept: seq<Piece>) {
    Ascending(kept) && Faithful(layout, room, sections, kept)
  }

  lemma InOrderAs(layout: Layout, room: int, sections: seq<Section>, chosen: seq<Piece>, selected: seq<Piece>)
    requires chosen == selected && InOriginalOrder(layout, room, sections, InOrder(chosen))
    ensures InOriginalOrder(layout, room, sections, InOrder(selected))
  {
  }

  // The pieces stand in the order of their sections, at most one a section, and each
  // shows its section whole or cut short.
  lemma KeptInOriginalOrder(layout: Layout, sections: seq<Section>, maxChars: int)
    requires forall i :: 0 <= i < |sections| ==> sections[i].order == i
    ensures InOriginalOrder(layout, maxChars - |layout.note|, sections, InOrder(Selected(layout, sections, maxChars)))
  {
    var room := maxChars - |layout.note|;
    RankedRearranges(layout, sections);
    KeptFaithfully(layout, room, sections, Ranked(layout, sections));
    InOrderAs(layout, room, sections, TakeAll(layout, room, Ranked(layout, sections)).chosen, Selected(layout, sections, maxChars));
  }

  lemma KeptFaithfully(layout: Layout, room: int, sections: seq<Section>, ranked: seq<Section>)
    requires SameSections(ranked, sections)
    requires forall i :: 0 <= i < |sections| ==> sections[i].order == i
    ensures InOriginalOrder(layout, room, sections, InOrder(TakeAll(layout, room, ranked).chosen))
  {
    DistinctRearranged(sections, ranked);
    TakeAllShows(layout, room, ranked);
    PutInOrder(layout, room, sections, ranked, TakeAll(layout, room, ranked).chosen);
  }

  lemma PutInOrder(layout: Layout, room: int, sections: seq<Section>, ranked: seq<Section>, chosen: seq<Piece>)
    requires AllShow(layout, room, ranked, chosen) && DistinctPieces(chosen)
    requires forall s :: s in ranked ==> s in sections
    requires forall i :: 0 <= i < |sections| ==> sections[i].order == i
    ensures InOriginalOrder(layout, room, sections, InOrder(chosen))
  {
    SortBySorts(PieceOrder, PieceOrder, chosen);
    StrictlyOrdered(chosen, InOrder(chosen));
    ShownFaithfully(layout, room, sections, ranked, chosen, InOrder(chosen));
  }

  lemma ShownFaithfully(layout: Layout, room: int, sections: seq<Section>, ranked: seq<Section>, chosen: seq<Piece>, kept: seq<Piece>)
    requires AllShow(layout, room, ranked, chosen) && multiset(kept) == multiset(chosen)
    requires forall s :: s in ranked ==> s in sections
    requires forall i :: 0 <= i < |sections| ==> sections[i].order == i
    ensures Faithful(layout, room, sections, kept)
  {
    forall i | 0 <= i < |kept|
      ensures 0 <= kept[i].order < |sections| && Shows(layout, room, sections[kept[i].order], kept[i])
    {
      assert kept[i] in multiset(kept) && kept[i] in chosen;
      var s :| s in ranked && Shows(layout, room, s, kept[i]);
      var k :| 0 <= k < |sections| && sections[k] == s;
    }
  }

  lemma StrictlyOrdered(chosen: seq<Piece>, kept: seq<Piece>)
    requires DistinctPieces(chosen) && multiset(kept) == multiset(chosen) && Ordered(PieceOrder, PieceOrder, kept)
    ensures Ascending(kept)
  {
    forall i, j | 0 <= i < j < |kept| ensures kept[i].order < kept[j].order {
      if kept[i].order == kept[j].order {
        PieceTwice(kept, i, j);
        assert kept[i] in multiset(chosen) && kept[j] in multiset(chosen);
        var k :| 0 <= k < |chosen| && chosen[k] == kept[i];
        PieceOnce(chosen, k);
      }
    }
  }

  lemma PieceTwice(s: seq<Piece>, i: nat, j: nat)
    requires i < j < |s|
    ensures s[i] == s[j] ==> multiset(s)[s[i]] >= 2
  {
    assert s == s[..j] + [s[j]] + s[j + 1..];
    assert s[i] in s[..j];
  }

  lemma PieceOnce(s: seq<Piece>, i: nat)
    requires i < |s| && DistinctPieces(s)
    ensures multiset(s)[s[i]] == 1
    ensures forall p :: p in multiset(s) && p.order == s[i].order ==> p == s[i]
  {
    assert s == s[..i] + [s[i]] + s[i + 1..];
    assert s[i] !in s[..i] && s[i] !in s[i + 1..];
  }

  // ----- the best-ranked sections are kept whole, and nothing left out would fit -----

  function Whole(layout: Layout, ranked: seq<Section>): seq<Piece> {
    if ranked == [] then []
    else Whole(layout, ranked[..|ranked| - 1]) + [Piece(ranked[|ranked| - 1].order, layout.render(ranked[|ranked| - 1]))]
  }

  lemma {:induction false} WholeAt(layout: Layout, ranked: seq<Section>, i: nat)
    requires i < |ranked|
    ensures Piece(ranked[i].order, layout.render(ranked[i])) in Whole(layout, ranked)
  {
    if i < |ranked| - 1 {
      WholeAt(layout, ranked[..|ranked| - 1], i);
    }
  }

  lemma {:induction false} FitsWhole(layout: Layout, room: int, ranked: seq<Section>)
    requires Size(Whole(layout, ranked)) <= room
    ensures TakeAll(layout, room, ranked) == Selection(Whole(layout, ranked), Size(Whole(layout, ranked)))
  {
    if ranked != [] {
      var front, last := ranked[..|ranked| - 1], ranked[|ranked| - 1];
      SizeAppend(Whole(layout, front), Piece(last.order, layout.render(last)));
      FitsWhole(layout, room, front);
    }
  }

  lemma TakeOneGrows(layout: Layout, room: int, st: Selection, s: Section)
    ensures var next := TakeOne(layout, room, st, s);
      st.used <= next.used && st.chosen <= next.chosen
  {
  }

  lemma {:induction false} TakeAllGrows(layout: Layout, room: int, ranked: seq<Section>, k: nat)
    requires k <= |ranked|
    ensures var (before, after) := (TakeAll(layout, room, ranked[..k]), TakeAll(layout, room, ranked));
      before.used <= after.used && before.chosen <= after.chosen
  {
    if k == |ranked| {
      assert ranked[..k] == ranked;
    } else {
      var front := ranked[..|ranked| - 1];
      assert front[..k] == ranked[..k];
      TakeAllGrows(layout, room, front, k);
      TakeOneGrows(layout, room, TakeAll(layout, room, front), ranked[|ranked| - 1]);
    }
  }

  lemma InOrderHas(chosen: seq<Piece>, p: Piece)
    requires p in chosen
    ensures p in InOrder(chosen)
  {
    SortBySorts(PieceOrder, PieceOrder, chosen);
    assert p in multiset(chosen) && p in multiset(InOrder(chosen));
  }

  // The sections up to any rank at which they all still fit are kept whole.
  lemma BestRankedKeptWhole(layout: Layout, sections: seq<Section>, maxChars: int, k: nat, i: nat)
    requires i < k <= |Ranked(layout, sections)|
    requires |layout.note| + Size(Whole(layout, Ranked(layout, sections)[..k])) <= maxChars
    ensures var s := Ranked(layout, sections)[i];
      Piece(s.order, layout.render(s)) in InOrder(Selected(layout, sections, maxChars))
  {
    var room, ranked := maxChars - |layout.note|, Ranked(layout, sections);
    FitsWhole(layout, room, ranked[..k]);
    TakeAllGrows(layout, room, ranked, k);
    WholeAt(layout, ranked[..k], i);
    InOrderHas(Selected(layout, sections, maxChars), Piece(ranked[i].order, layout.render(ranked[i])));
  }

  lemma ShownOrFull(layout: Layout, room: int, ranked: seq<Section>, i: nat)
    requires i < |ranked|
    ensures TakeAll(layout, room, ranked).used + |layout.render(ranked[i])| > room ||
      exists p :: p in TakeAll(layout, room, ranked).chosen && p.order == ranked[i].order
  {
    TakeAllGrows(layout, room, ranked, i);
    TakeAllGrows(layout, room, ranked, i + 1);
    var st := TakeAll(layout, room, ranked[..i]);
    assert ranked[..i + 1][..i] == ranked[..i];
    var next := TakeOne(layout, room, st, ranked[i]);
    if st.used + |layout.render(ranked[i])| <= room {
      assert next.chosen[|st.chosen|] in TakeAll(layout, room, ranked).chosen;
    }
  }

  lemma LeftOutIsFull(layout: Layout, room: int, ranked: seq<Section>, sections: seq<Section>, s: Section)
    requires SameSections(ranked, sections) && s in sections
    requires forall p :: p in InOrder(TakeAll(layout, room, ranked).chosen) ==> p.order != s.order
    ensures TakeAll(layout, room, ranked).used + |layout.render(s)| > room
  {
    var i :| 0 <= i < |ranked| && ranked[i] == s;
    ShownOrFull(layout, room, ranked, i);
    var chosen := TakeAll(layout, room, ranked).chosen;
    SortBySorts(PieceOrder, PieceOrder, chosen);
    AbsentAlike(chosen, InOrder(chosen), s.order);
  }

  lemma AbsentAlike(chosen: seq<Piece>, kept: seq<Piece>, order: int)
    requires multiset(kept) == multiset(chosen) && forall p :: p in kept ==> p.order != order
    ensures forall p :: p in chosen ==> p.order != order
  {
    forall p | p in chosen ensures p.order != order {
      assert p in multiset(chosen) && p in multiset(kept);
    }
  }

  // A section of which nothing is shown would not have fitted behind what is shown.
  lemma NothingLeftOutWouldFit(layout: Layout, sections: seq<Section>, maxChars: int, s: Section)
    requires Fits(layout) && |layout.note| < maxChars && s in sections
    requires forall p :: p in InOrder(Selected(layout, sections, maxChars)) ==> p.order != s.order
    ensures |layout.note + Assembled(InOrder(Selected(layout, sections, maxChars)))| + |layout.render(s)| > maxChars
  {
    RankedRearranges(layout, sections);
    LeftOutIsFull(layout, maxChars - |layout.note|, Ranked(layout, sections), sections, s);
    ResultSize(layout, sections, maxChars);
  }
}
