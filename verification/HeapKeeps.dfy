/** Each elementary change keeps the invariant, and what it does to the chunks handed out. */
module HeapKeeps {
  import opened Lists
  import opened BinIndex
  import opened HeapModel
  import opened HeapSteps

  // ----- lists -----

  lemma SortedSame(chunks: Tags, chunks': Tags, l: seq<int>)
    requires SortedList(chunks, l) && forall a :: a in l ==> Size(chunks', a) == Size(chunks, a)
    ensures SortedList(chunks', l)
  {
    forall j, k | 0 <= j < k < |l| ensures Size(chunks', l[j]) >= Size(chunks', l[k]) {
      assert l[j] in l && l[k] in l;
      assert Size(chunks, l[j]) >= Size(chunks, l[k]);
    }
  }

  lemma SortedCut(chunks: Tags, l: seq<int>, k: int, r: seq<int>)
    requires SortedList(chunks, l) && 0 <= k < |l| && r == l[..k] + l[k + 1..]
    ensures SortedList(chunks, r)
  {
    hide Size;
    forall i, j | 0 <= i < j < |r| ensures Size(chunks, r[i]) >= Size(chunks, r[j]) {
      var i', j' := if i < k then i else i + 1, if j < k then j else j + 1;
      assert r[i] == l[i'] && r[j] == l[j'];
      assert Size(chunks, l[i']) >= Size(chunks, l[j']);
    }
  }

  lemma SortedRemove(chunks: Tags, l: seq<int>, a: int)
    requires SortedList(chunks, l) && NoDup(l)
    ensures SortedList(chunks, Remove(l, a))
  {
    hide SortedList, Remove;
    if a in l {
      var k :| 0 <= k < |l| && l[k] == a;
      RemoveSplits(l, k);
      SortedCut(chunks, l, k, Remove(l, a));
    } else {
      RemoveAbsent(l, a);
    }
  }

  /** The sizes of listed chunks have not changed, nor the lists. */
  lemma SortedBinsSame(chunks: Tags, chunks': Tags, place: map<int, Place>, lists: map<Place, seq<int>>)
    requires SortedBins(chunks, lists) && ListsOk(place, lists)
    requires forall a :: a in place && Shelved(place[a]) ==> Size(chunks', a) == Size(chunks, a)
    ensures SortedBins(chunks', lists)
  {
    forall i | i > UNSORTED && InBin(i) in lists ensures SortedList(chunks', lists[InBin(i)]) {
      assert ListOk(place, InBin(i), lists[InBin(i)]);
      SortedSame(chunks, chunks', lists[InBin(i)]);
    }
  }

  /** Changes among places that are not lists. */
  lemma ListsElsewhere(place: map<int, Place>, place': map<int, Place>, lists: map<Place, seq<int>>)
    requires ListsOk(place, lists)
    requires forall a :: a in place && Shelved(place[a]) ==> a in place' && place'[a] == place[a]
    requires forall a :: a in place' && Shelved(place'[a]) ==> a in place && place[a] == place'[a]
    ensures ListsOk(place', lists)
  {
    forall p | p in lists ensures ListOk(place', p, lists[p]) {
      assert ListOk(place, p, lists[p]);
    }
  }

  // ----- taking a chunk from its list -----

  lemma TakeTagged(h: Heap, a: int)
    requires Tiled(h.chunks, h.base, h.end) && Tagged(h.chunks, h.place, h.base) && a in h.place && Shelved(h.place[a])
    ensures var t := Take(h, a); Tagged(t.chunks, t.place, t.base) && SameSizes(h.chunks, t.chunks)
  {
    var t := Take(h, a);
    assert forall x :: Next(t.chunks, x) == Next(h.chunks, x);
    forall x | x in t.chunks && Next(t.chunks, x) in t.chunks
      ensures var n := t.chunks[Next(t.chunks, x)];
              (n.pinuse <==> !Free(t.place[x])) && (Free(t.place[x]) ==> n.prevSize == t.chunks[x].size)
    {
      if x != a && Next(h.chunks, x) == Next(h.chunks, a) { SamePrev(h.chunks, h.base, x, a); }
      hide Sane, Chained, Disjoint;
    }
  }

  lemma TakeApart(h: Heap, a: int)
    requires Apart(h.chunks, h.place) && a in h.place && Shelved(h.place[a])
    ensures var t := Take(h, a); Apart(t.chunks, t.place)
  {
    var t := Take(h, a);
    assert forall x :: Next(t.chunks, x) == Next(h.chunks, x);
  }

  lemma TakeLists(h: Heap, a: int)
    requires ListsOk(h.place, h.lists) && a in h.place && Shelved(h.place[a])
    ensures var t := Take(h, a); ListsOk(t.place, t.lists)
  {
    var t, p := Take(h, a), h.place[a];
    assert ListOk(h.place, p, h.lists[p]);
    RemoveNoDup(h.lists[p], a);
    forall q | q in t.lists ensures ListOk(t.place, q, t.lists[q]) {
      assert ListOk(h.place, q, h.lists[q]);
    }
  }

  lemma TakeSorted(h: Heap, a: int)
    requires SortedBins(h.chunks, h.lists) && ListsOk(h.place, h.lists) && a in h.place && Shelved(h.place[a])
    ensures var t := Take(h, a); SortedBins(t.chunks, t.lists)
  {
    var t, p := Take(h, a), h.place[a];
    assert forall x :: Size(t.chunks, x) == Size(h.chunks, x);
    forall i | i > UNSORTED && InBin(i) in t.lists ensures SortedList(t.chunks, t.lists[InBin(i)]) {
      assert ListOk(h.place, InBin(i), h.lists[InBin(i)]);
      if InBin(i) == p { SortedRemove(h.chunks, h.lists[p], a); }
      SortedSame(h.chunks, t.chunks, t.lists[InBin(i)]);
    }
  }

  lemma TakeRest(h: Heap, a: int)
    requires Inv(h) && a in h.place && Shelved(h.place[a])
    ensures var t := Take(h, a);
            && TopOk(t.chunks, t.place, t.top, t.end) && SizesOk(t.chunks, t.place) && FlagsOk(t.place, t.any, t.quick)
            && a !in Lives(h) && a in h.chunks && Lives(t) == Lives(h)[a := h.chunks[a].size]
  {
    hide Tiled, Apart, ListsOk, SortedBins, BinFor;
    var t := Take(h, a);
    assert t.chunks.Keys == h.chunks.Keys && forall x :: x in h.chunks ==> t.chunks[x].size == h.chunks[x].size;
  }

  /** The chunk is handed out; the other chunks in use are as before. */
  lemma TakeKeeps(h: Heap, a: int)
    requires Inv(h) && a in h.place && Shelved(h.place[a])
    ensures Inv(Take(h, a))
    ensures a !in Lives(h) && a in h.chunks && Lives(Take(h, a)) == Lives(h)[a := h.chunks[a].size]
  {
    hide Tiled, Tagged, Apart, TopOk, ListsOk, SizesOk, SortedBins, FlagsOk, SameSizes, Lives, Take;
    TakeTagged(h, a);
    SizesTiled(h.chunks, Take(h, a).chunks, h.base, h.end);
    TakeApart(h, a);
    TakeLists(h, a);
    TakeSorted(h, a);
    TakeRest(h, a);
    TakeFrame(h, a);
  }

  lemma TakeFrame(h: Heap, a: int)
    requires a in h.place
    ensures var t := Take(h, a); t == h.(chunks := t.chunks, place := t.place, lists := t.lists)
  {}

  // ----- joining two neighbours -----

  ghost predicate Joinable(h: Heap, a: int) {
    && a in h.chunks && a in h.place && h.place[a] == Live
    && Next(h.chunks, a) in h.chunks && Next(h.chunks, a) in h.place && h.place[Next(h.chunks, a)] == Live
  }

  lemma JoinMerges(h: Heap, a: int)
    requires Joinable(h, a)
    ensures var t := Join(h, a); var n := Next(h.chunks, a);
                                 Merged(h.chunks, t.chunks, a, n) && t == h.(chunks := t.chunks, place := h.place - {n})
  {}

  /** `x` is not the joined chunk: it and its neighbour are as before. */
  lemma MergedElsewhere(chunks: Tags, chunks': Tags, base: int, end: int, a: int, n: int, x: int)
    requires Tiled(chunks, base, end) && Merged(chunks, chunks', a, n) && x in chunks' && x != a
    ensures x in chunks && x != n && Next(chunks', x) == Next(chunks, x) != n && chunks'[x] == chunks[x]
    ensures Next(chunks, x) in chunks ==>
              Next(chunks, x) in chunks' && chunks'[Next(chunks, x)].pinuse == chunks[Next(chunks, x)].pinuse
              && chunks'[Next(chunks, x)].prevSize == chunks[Next(chunks, x)].prevSize
  {
    Positive(chunks, base, a);
    MergedNext(chunks, chunks', a, n);
    if Next(chunks, x) == n { SamePrev(chunks, base, x, a); }
  }

  lemma MergedHere(chunks: Tags, chunks': Tags, base: int, end: int, a: int, n: int)
    requires Tiled(chunks, base, end) && Merged(chunks, chunks', a, n)
    ensures a in chunks' && n !in chunks' && a < n < Next(chunks, n) && Next(chunks', a) == Next(chunks, n)
    ensures chunks'[a].pinuse == chunks[a].pinuse && chunks'.Keys == chunks.Keys - {n}
    ensures Next(chunks, n) in chunks ==>
              Next(chunks, n) in chunks' && chunks'[Next(chunks, n)] == chunks[Next(chunks, n)]
  {
    Positive(chunks, base, a);
    Positive(chunks, base, n);
    MergedNext(chunks, chunks', a, n);
  }

  lemma JoinTagged(h: Heap, a: int)
    requires Tiled(h.chunks, h.base, h.end) && Tagged(h.chunks, h.place, h.base) && Joinable(h, a)
    ensures var t := Join(h, a); Tagged(t.chunks, t.place, t.base)
  {
    var t, n := Join(h, a), Next(h.chunks, a);
    JoinMerges(h, a);
    hide Join, Merged, Tiled;
    MergedHere(h.chunks, t.chunks, h.base, h.end, a, n);
    if h.base in t.chunks && h.base != a { MergedElsewhere(h.chunks, t.chunks, h.base, h.end, a, n, h.base); }
    forall x | x in t.chunks && Next(t.chunks, x) in t.chunks
      ensures var m := t.chunks[Next(t.chunks, x)];
              (m.pinuse <==> !Free(t.place[x])) && (Free(t.place[x]) ==> m.prevSize == t.chunks[x].size)
    {
      if x == a {
        Ends(h.chunks, h.base, h.end, n);
      } else {
        MergedElsewhere(h.chunks, t.chunks, h.base, h.end, a, n, x);
        Ends(h.chunks, h.base, h.end, x);
      }
    }
  }

  /** The neighbour of a chunk is a chunk, unless the region ends there; and no chunk begins at the end. */
  lemma Ends(chunks: Tags, base: int, end: int, x: int)
    requires Tiled(chunks, base, end) && x in chunks
    ensures end !in chunks && Next(chunks, x) <= end && (Next(chunks, x) == end || Next(chunks, x) in chunks)
  {
    if end in chunks { Positive(chunks, base, end); }
  }

  lemma JoinApart(h: Heap, a: int)
    requires Tiled(h.chunks, h.base, h.end) && Apart(h.chunks, h.place) && Joinable(h, a)
    ensures var t := Join(h, a); Apart(t.chunks, t.place)
  {
    var t, n := Join(h, a), Next(h.chunks, a);
    JoinMerges(h, a);
    hide Join, Merged, Tiled;
    MergedHere(h.chunks, t.chunks, h.base, h.end, a, n);
    forall x | x in t.chunks && x in t.place && Free(t.place[x])
      ensures Next(t.chunks, x) in t.chunks && Next(t.chunks, x) in t.place && !Free(t.place[Next(t.chunks, x)])
              && t.place[Next(t.chunks, x)] != Top
    {
      MergedElsewhere(h.chunks, t.chunks, h.base, h.end, a, n, x);
    }
  }

  lemma JoinRest(h: Heap, a: int)
    requires Inv(h) && Joinable(h, a)
    ensures var t := Join(h, a); var n := Next(h.chunks, a);
                                 && TopOk(t.chunks, t.place, t.top, t.end) && SizesOk(t.chunks, t.place)
                                 && FlagsOk(t.place, t.any, t.quick)
                                 && Lives(t) == (Lives(h) - {n})[a := h.chunks[a].size + h.chunks[n].size]
                                 && (forall x :: x in h.place && Shelved(h.place[x]) ==>
                                                   Size(t.chunks, x) == Size(h.chunks, x))
  {
    var t, n := Join(h, a), Next(h.chunks, a);
    JoinMerges(h, a);
    MergedHere(h.chunks, t.chunks, h.base, h.end, a, n);
    hide Tiled, Tagged, Apart, ListsOk, SortedBins, BinFor;
  }

  lemma JoinKeeps(h: Heap, a: int)
    requires Inv(h) && Joinable(h, a)
    ensures Inv(Join(h, a))
    ensures var n := Next(h.chunks, a); Lives(Join(h, a)) == (Lives(h) - {n})[a := h.chunks[a].size + h.chunks[n].size]
  {
    hide Tiled, Tagged, Apart, TopOk, ListsOk, SizesOk, SortedBins, FlagsOk, Lives, Join, Merged;
    var t, n := Join(h, a), Next(h.chunks, a);
    JoinMerges(h, a);
    MergeTiled(h.chunks, t.chunks, h.base, h.end, a, n);
    JoinTagged(h, a);
    JoinApart(h, a);
    JoinRest(h, a);
    ListsElsewhere(h.place, t.place, h.lists);
    SortedBinsSame(h.chunks, t.chunks, h.place, h.lists);
  }

  // ----- joining the top -----

  ghost predicate BelowTop(h: Heap, a: int) {
    a in h.chunks && a in h.place && h.place[a] == Live && Next(h.chunks, a) == h.top && h.chunks[a].pinuse
  }

  lemma JoinTopMerges(h: Heap, a: int)
    requires BelowTop(h, a) && h.top in h.chunks
    ensures var t := JoinTop(h, a);
            Merged(h.chunks, t.chunks, a, h.top)
            && t == h.(chunks := t.chunks, place := (h.place - {h.top})[a := Top], top := a)
  {}

  lemma JoinTopTagged(h: Heap, a: int)
    requires Tiled(h.chunks, h.base, h.end) && Tagged(h.chunks, h.place, h.base) && BelowTop(h, a)
    requires h.top in h.chunks && Next(h.chunks, h.top) == h.end
    ensures var t := JoinTop(h, a); Tagged(t.chunks, t.place, t.base)
  {
    var t, n := JoinTop(h, a), h.top;
    JoinTopMerges(h, a);
    hide JoinTop, Merged, Tiled;
    MergedHere(h.chunks, t.chunks, h.base, h.end, a, n);
    Ends(h.chunks, h.base, h.end, n);
    if h.base in t.chunks && h.base != a { MergedElsewhere(h.chunks, t.chunks, h.base, h.end, a, n, h.base); }
    forall x | x in t.chunks && Next(t.chunks, x) in t.chunks
      ensures var m := t.chunks[Next(t.chunks, x)];
              (m.pinuse <==> !Free(t.place[x])) && (Free(t.place[x]) ==> m.prevSize == t.chunks[x].size)
    {
      if x != a {
        MergedElsewhere(h.chunks, t.chunks, h.base, h.end, a, n, x);
        Ends(h.chunks, h.base, h.end, x);
      }
    }
  }

  lemma JoinTopApart(h: Heap, a: int)
    requires Tiled(h.chunks, h.base, h.end) && Tagged(h.chunks, h.place, h.base) && Apart(h.chunks, h.place)
    requires BelowTop(h, a) && h.top in h.chunks
    ensures var t := JoinTop(h, a); Apart(t.chunks, t.place)
  {
    var t, n := JoinTop(h, a), h.top;
    JoinTopMerges(h, a);
    hide JoinTop, Merged, Tiled;
    MergedHere(h.chunks, t.chunks, h.base, h.end, a, n);
    forall x | x in t.chunks && x in t.place && Free(t.place[x])
      ensures Next(t.chunks, x) in t.chunks && Next(t.chunks, x) in t.place && !Free(t.place[Next(t.chunks, x)])
              && t.place[Next(t.chunks, x)] != Top
    {
      MergedElsewhere(h.chunks, t.chunks, h.base, h.end, a, n, x);
    }
  }

  lemma JoinTopRest(h: Heap, a: int)
    requires Inv(h) && BelowTop(h, a)
    ensures var t := JoinTop(h, a);
            && TopOk(t.chunks, t.place, t.top, t.end) && SizesOk(t.chunks, t.place) && FlagsOk(t.place, t.any, t.quick)
            && Lives(t) == Lives(h) - {a}
            && (forall x :: x in h.place && Shelved(h.place[x]) ==> Size(t.chunks, x) == Size(h.chunks, x))
  {
    var t := JoinTop(h, a);
    JoinTopMerges(h, a);
    MergedHere(h.chunks, t.chunks, h.base, h.end, a, h.top);
    hide Tiled, Tagged, Apart, ListsOk, SortedBins, BinFor;
  }

  lemma JoinTopKeeps(h: Heap, a: int)
    requires Inv(h) && BelowTop(h, a)
    ensures Inv(JoinTop(h, a)) && Lives(JoinTop(h, a)) == Lives(h) - {a}
  {
    assert h.top in h.chunks && Next(h.chunks, h.top) == h.end;
    assert h.top in h.place && h.place[h.top] == Top;
    hide Tiled, Tagged, Apart, TopOk, ListsOk, SizesOk, SortedBins, FlagsOk, Lives, JoinTop, Merged;
    var t := JoinTop(h, a);
    JoinTopMerges(h, a);
    MergeTiled(h.chunks, t.chunks, h.base, h.end, a, h.top);
    JoinTopTagged(h, a);
    JoinTopApart(h, a);
    JoinTopRest(h, a);
    ListsElsewhere(h.place, t.place, h.lists);
    SortedBinsSame(h.chunks, t.chunks, h.place, h.lists);
  }

  // ----- putting a chunk on the unsorted list -----

  ghost predicate Shelvable(h: Heap, a: int) {
    && a in h.chunks && a in h.place && h.place[a] == Live && h.chunks[a].pinuse
    && Next(h.chunks, a) in h.chunks && Next(h.chunks, a) in h.place
    && !Free(h.place[Next(h.chunks, a)]) && h.place[Next(h.chunks, a)] != Top
  }

  lemma ShelveTagged(h: Heap, a: int)
    requires Tiled(h.chunks, h.base, h.end) && Tagged(h.chunks, h.place, h.base) && Shelvable(h, a)
    ensures var t := Shelve(h, a); Tagged(t.chunks, t.place, t.base) && SameSizes(h.chunks, t.chunks)
  {
    var t, n := Shelve(h, a), Next(h.chunks, a);
    assert forall x :: Next(t.chunks, x) == Next(h.chunks, x);
    Positive(h.chunks, h.base, a);
    assert n > h.base;
    forall x | x in t.chunks && Next(t.chunks, x) in t.chunks
      ensures var m := t.chunks[Next(t.chunks, x)];
              (m.pinuse <==> !Free(t.place[x])) && (Free(t.place[x]) ==> m.prevSize == t.chunks[x].size)
    {
      if x != a && Next(h.chunks, x) == n { SamePrev(h.chunks, h.base, x, a); }
      hide Sane, Chained, Disjoint;
    }
  }

  lemma ShelveApart(h: Heap, a: int)
    requires Apart(h.chunks, h.place) && Tagged(h.chunks, h.place, h.base) && Shelvable(h, a)
    requires Sane(h.chunks, h.base)
    ensures var t := Shelve(h, a); Apart(t.chunks, t.place)
  {
    var t := Shelve(h, a);
    assert forall x :: Next(t.chunks, x) == Next(h.chunks, x);
    Positive(h.chunks, h.base, a);
    hide Sane;
    forall x | x in t.chunks && x in t.place && Free(t.place[x])
      ensures Next(t.chunks, x) in t.chunks && Next(t.chunks, x) in t.place && !Free(t.place[Next(t.chunks, x)])
              && t.place[Next(t.chunks, x)] != Top
    {
      if x != a { assert Next(h.chunks, x) != a; }
    }
  }

  lemma PushLists(place: map<int, Place>, lists: map<Place, seq<int>>, a: int, p: Place)
    requires ListsOk(place, lists) && a in place && !Shelved(place[a]) && Shelved(p)
    ensures ListsOk(place[a := p], lists[p := [a] + (if p in lists then lists[p] else [])])
  {
    var l := if p in lists then lists[p] else [];
    var place', lists' := place[a := p], lists[p := [a] + l];
    forall q | q in lists' ensures ListOk(place', q, lists'[q]) {
      if q in lists { assert ListOk(place, q, lists[q]); }
      if q == p { ConcatNoDup([a], l); }
    }
    forall x | x in place' && Shelved(place'[x]) ensures place'[x] in lists' && x in lists'[place'[x]] {
      if x != a { assert place[x] in lists && x in lists[place[x]]; }
    }
  }

  lemma ShelveRest(h: Heap, a: int)
    requires Inv(h) && Shelvable(h, a)
    ensures var t := Shelve(h, a);
            && TopOk(t.chunks, t.place, t.top, t.end) && SizesOk(t.chunks, t.place) && FlagsOk(t.place, t.any, t.quick)
            && Lives(t) == Lives(h) - {a} && (forall x :: Size(t.chunks, x) == Size(h.chunks, x))
            && t == h.(chunks := t.chunks, place := h.place[a := InBin(UNSORTED)],
                    lists := h.lists[InBin(UNSORTED) := [a] + Listed(h, InBin(UNSORTED))], any := true)
  {
    hide Tiled, Tagged, Apart, ListsOk, SortedBins, BinFor;
    var t := Shelve(h, a);
    assert t.chunks.Keys == h.chunks.Keys && forall x :: x in h.chunks ==> t.chunks[x].size == h.chunks[x].size;
  }

  lemma ShelveSorted(chunks: Tags, chunks': Tags, lists: map<Place, seq<int>>, l: seq<int>)
    requires SortedBins(chunks, lists) && forall x :: Size(chunks', x) == Size(chunks, x)
    ensures SortedBins(chunks', lists[InBin(UNSORTED) := l])
  {
    var lists' := lists[InBin(UNSORTED) := l];
    forall i | i > UNSORTED && InBin(i) in lists' ensures SortedList(chunks', lists'[InBin(i)]) {
      SortedSame(chunks, chunks', lists[InBin(i)]);
    }
  }

  lemma ShelveKeeps(h: Heap, a: int)
    requires Inv(h) && Shelvable(h, a)
    ensures Inv(Shelve(h, a)) && Lives(Shelve(h, a)) == Lives(h) - {a}
  {
    hide Tagged, Apart, TopOk, ListsOk, SizesOk, SortedBins, FlagsOk, Lives, Shelve, SameSizes, Sane, Chained;
    hide Disjoint, Size;
    var t := Shelve(h, a);
    ShelveTagged(h, a);
    SizesTiled(h.chunks, t.chunks, h.base, h.end);
    ShelveApart(h, a);
    ShelveRest(h, a);
    PushLists(h.place, h.lists, a, InBin(UNSORTED));
    ShelveSorted(h.chunks, t.chunks, h.lists, [a] + Listed(h, InBin(UNSORTED)));
  }

  // ----- fastbins -----

  ghost predicate Quickable(h: Heap, a: int) {
    a in h.chunks && a in h.place && h.place[a] == Live && h.chunks[a].size <= MAX_FAST
  }

  lemma PushFastParts(h: Heap, a: int)
    requires Inv(h) && Quickable(h, a)
    ensures var t := PushFast(h, a);
            && Tagged(t.chunks, t.place, t.base) && Apart(t.chunks, t.place) && TopOk(t.chunks, t.place, t.top, t.end)
            && SizesOk(t.chunks, t.place) && FlagsOk(t.place, t.any, t.quick) && Lives(t) == Lives(h) - {a}
            && SortedBins(t.chunks, t.lists)
  {
    hide Tiled, ListsOk, BinFor, SortedList;
  }

  lemma PushFastKeeps(h: Heap, a: int)
    requires Inv(h) && Quickable(h, a)
    ensures Inv(PushFast(h, a)) && Lives(PushFast(h, a)) == Lives(h) - {a}
  {
    hide Tiled, Tagged, Apart, TopOk, ListsOk, SizesOk, SortedBins, FlagsOk, Lives;
    PushFastParts(h, a);
    PushLists(h.place, h.lists, a, Fast(FastIndex(h.chunks[a].size)));
  }

  // ----- cutting -----

  ghost predicate Cuttable(h: Heap, a: int, n: int) {
    a in h.chunks && a in h.place && Aligned(n) && n >= MINSIZE && h.chunks[a].size - n >= MINSIZE
  }

  /** The places after a cut of a chunk that is in no bin. */
  ghost predicate Replaced(place: map<int, Place>, place': map<int, Place>, a: int, b: int) {
    && a in place && a in place' && b in place' && place' == place[a := place'[a]][b := place'[b]]
    && !Free(place[a]) && place'[a] == Live && (place'[b] == Live || place'[b] == Top)
  }

  lemma CutTags(chunks: Tags, chunks': Tags, a: int, n: int)
    requires Cut(chunks, chunks', a, n)
    ensures a in chunks && a in chunks' && a + n in chunks' && chunks'[a].pinuse == chunks[a].pinuse
    ensures chunks'[a + n].pinuse
    ensures chunks'[a].prevSize == chunks[a].prevSize
    ensures chunks'.Keys == chunks.Keys + {a + n}
  {}

  lemma CutTagged(chunks: Tags, chunks': Tags, place: map<int, Place>, place': map<int, Place>, base: int, end: int,
                  a: int, n: int)
    requires Tiled(chunks, base, end) && Tagged(chunks, place, base) && Cut(chunks, chunks', a, n)
    requires Replaced(place, place', a, a + n)
    ensures Tagged(chunks', place', base)
  {
    hide Cut, Tiled, Next;
    CutNext(chunks, chunks', base, end, a, n);
    CutTags(chunks, chunks', a, n);
    Ends(chunks, base, end, a);
    forall x | x in chunks' && Next(chunks', x) in chunks'
      ensures var m := chunks'[Next(chunks', x)];
              (m.pinuse <==> !Free(place'[x])) && (Free(place'[x]) ==> m.prevSize == chunks'[x].size)
    {
      if x != a && x != a + n { Ends(chunks, base, end, x); }
    }
  }

  lemma CutApart(chunks: Tags, chunks': Tags, place: map<int, Place>, place': map<int, Place>, base: int, end: int,
                 a: int, n: int)
    requires Tiled(chunks, base, end) && Apart(chunks, place) && place.Keys == chunks.Keys
    requires Cut(chunks, chunks', a, n) && Replaced(place, place', a, a + n)
    ensures Apart(chunks', place')
  {
    hide Cut, Tiled, Next;
    CutNext(chunks, chunks', base, end, a, n);
    forall x | x in chunks' && x in place' && Free(place'[x])
      ensures Next(chunks', x) in chunks' && Next(chunks', x) in place' && !Free(place'[Next(chunks', x)])
              && place'[Next(chunks', x)] != Top
    {
      assert x != a && x != a + n;
      assert Next(chunks, x) in chunks && Next(chunks, x) != a + n;
    }
  }

  lemma CutSizes(chunks: Tags, chunks': Tags, place: map<int, Place>, place': map<int, Place>, base: int, end: int,
                 a: int, n: int)
    requires Tiled(chunks, base, end) && SizesOk(chunks, place) && place.Keys == chunks.Keys
    requires Cut(chunks, chunks', a, n) && Replaced(place, place', a, a + n)
    ensures SizesOk(chunks', place') && a + n !in place
    ensures forall x :: x in place && Shelved(place[x]) ==> x != a ==> Size(chunks', x) == Size(chunks, x)
  {
    hide Cut, Tiled, Next, BinFor;
    CutNext(chunks, chunks', base, end, a, n);
  }

  lemma CutTop(chunks: Tags, chunks': Tags, place: map<int, Place>, place': map<int, Place>, base: int, end: int,
               a: int, n: int, top: int)
    requires Tiled(chunks, base, end) && TopOk(chunks, place, top, end) && place.Keys == chunks.Keys
    requires Cut(chunks, chunks', a, n) && Replaced(place, place', a, a + n) && (place'[a + n] == Top <==> a == top)
    ensures TopOk(chunks', place', if a == top then a + n else top, end)
  {
    hide Cut, Tiled, Next;
    CutNext(chunks, chunks', base, end, a, n);
  }

  lemma SplitIs(h: Heap, a: int, n: int)
    requires Cuttable(h, a, n) && h.place[a] == Live && a + n != a
    ensures var t := Split(h, a, n);
            && Cut(h.chunks, t.chunks, a, n) && Replaced(h.place, t.place, a, a + n) && t.place[a + n] == Live
            && t == h.(chunks := t.chunks, place := t.place)
  {}

  lemma SplitLives(h: Heap, a: int, n: int)
    requires Tagged(h.chunks, h.place, h.base) && Tiled(h.chunks, h.base, h.end)
    requires Cuttable(h, a, n) && h.place[a] == Live && a + n !in h.place
    ensures Lives(Split(h, a, n)) == Lives(h)[a := n][a + n := h.chunks[a].size - n]
  {
    hide Tiled, Next;
  }

  lemma InvPlaces(h: Heap)
    requires Inv(h)
    ensures h.place.Keys == h.chunks.Keys && h.top in h.chunks && h.place[h.top] == Top
    ensures Next(h.chunks, h.top) == h.end
    ensures forall x :: x in h.place && h.place[x] == Top ==> x == h.top
  {
    hide Tiled, Apart, ListsOk, SizesOk, SortedBins, FlagsOk;
  }

  lemma SplitKeeps(h: Heap, a: int, n: int)
    requires Inv(h) && Cuttable(h, a, n) && h.place[a] == Live
    ensures Inv(Split(h, a, n)) && a + n !in h.place
    ensures Lives(Split(h, a, n)) == Lives(h)[a := n][a + n := h.chunks[a].size - n]
  {
    hide Tiled, Tagged, Apart, TopOk, ListsOk, SizesOk, SortedBins, FlagsOk, Lives, Cut, Aligned, Split;
    var t := Split(h, a, n);
    InvPlaces(h);
    SplitIs(h, a, n);
    CutTiled(h.chunks, t.chunks, h.base, h.end, a, n);
    CutTagged(h.chunks, t.chunks, h.place, t.place, h.base, h.end, a, n);
    CutApart(h.chunks, t.chunks, h.place, t.place, h.base, h.end, a, n);
    CutSizes(h.chunks, t.chunks, h.place, t.place, h.base, h.end, a, n);
    CutTop(h.chunks, t.chunks, h.place, t.place, h.base, h.end, a, n, h.top);
    SplitLives(h, a, n);
    ListsElsewhere(h.place, t.place, h.lists);
    SortedBinsSame(h.chunks, t.chunks, h.place, h.lists);
    assert FlagsOk(t.place, t.any, t.quick) by { SameFlags(h.place, t.place, h.any, h.quick); }
  }

  lemma SameFlags(place: map<int, Place>, place': map<int, Place>, any: bool, quick: bool)
    requires FlagsOk(place, any, quick)
    requires forall a :: a in place' && Shelved(place'[a]) ==> a in place && place[a] == place'[a]
    ensures FlagsOk(place', any, quick)
  {}

  lemma SplitTopIs(h: Heap, n: int)
    requires Cuttable(h, h.top, n) && h.place[h.top] == Top && h.top + n != h.top
    ensures var t := SplitTop(h, n); var a := h.top;
                                     && Cut(h.chunks, t.chunks, a, n) && Replaced(h.place, t.place, a, a + n)
                                     && t.place[a + n] == Top
                                     && t == h.(chunks := t.chunks, place := t.place, top := a + n)
  {}

  lemma SplitTopLives(h: Heap, n: int)
    requires Tagged(h.chunks, h.place, h.base) && Tiled(h.chunks, h.base, h.end)
    requires Cuttable(h, h.top, n) && h.place[h.top] == Top && h.top + n !in h.place
    ensures Lives(SplitTop(h, n)) == Lives(h)[h.top := n] && h.top !in Lives(h)
  {
    hide Tiled, Next;
  }

  lemma SplitTopKeeps(h: Heap, n: int)
    requires Inv(h) && Cuttable(h, h.top, n)
    ensures Inv(SplitTop(h, n)) && h.top !in Lives(h) && Lives(SplitTop(h, n)) == Lives(h)[h.top := n]
  {
    hide Tiled, Tagged, Apart, TopOk, ListsOk, SizesOk, SortedBins, FlagsOk, Lives, Cut, Aligned, SplitTop;
    var t, a := SplitTop(h, n), h.top;
    InvPlaces(h);
    SplitTopIs(h, n);
    CutTiled(h.chunks, t.chunks, h.base, h.end, a, n);
    CutTagged(h.chunks, t.chunks, h.place, t.place, h.base, h.end, a, n);
    CutApart(h.chunks, t.chunks, h.place, t.place, h.base, h.end, a, n);
    CutSizes(h.chunks, t.chunks, h.place, t.place, h.base, h.end, a, n);
    CutTop(h.chunks, t.chunks, h.place, t.place, h.base, h.end, a, n, h.top);
    SplitTopLives(h, n);
    ListsElsewhere(h.place, t.place, h.lists);
    SortedBinsSame(h.chunks, t.chunks, h.place, h.lists);
    assert FlagsOk(t.place, t.any, t.quick) by { SameFlags(h.place, t.place, h.any, h.quick); }
  }

  // ----- growing the region -----

  lemma GrownTags(chunks: Tags, chunks': Tags, top: int, d: int)
    requires Stretched(chunks, chunks', top, d)
    ensures chunks'.Keys == chunks.Keys && top in chunks
    ensures forall x :: x in chunks ==>
                          chunks'[x].pinuse == chunks[x].pinuse && chunks'[x].prevSize == chunks[x].prevSize
    ensures forall x :: x in chunks && x != top ==>
                          chunks'[x].size == chunks[x].size && Next(chunks', x) == Next(chunks, x)
    ensures Next(chunks', top) == Next(chunks, top) + d
  {}

  lemma ExtendTagged(h: Heap, t: Heap, d: int)
    requires Tiled(h.chunks, h.base, h.end) && Tagged(h.chunks, h.place, h.base)
    requires TopOk(h.chunks, h.place, h.top, h.end) && Stretched(h.chunks, t.chunks, h.top, d)
    requires t == h.(chunks := t.chunks, end := h.end + d)
    ensures Tagged(t.chunks, t.place, t.base)
  {
    hide Tiled, Stretched, Next;
    GrownTags(h.chunks, t.chunks, h.top, d);
    GrowTiled(h.chunks, t.chunks, h.base, h.end, h.top, d);
    Ends(t.chunks, h.base, h.end + d, h.top);
  }

  lemma ExtendApart(h: Heap, t: Heap, d: int)
    requires Apart(h.chunks, h.place) && TopOk(h.chunks, h.place, h.top, h.end)
    requires Stretched(h.chunks, t.chunks, h.top, d)
    requires t == h.(chunks := t.chunks, end := h.end + d)
    ensures Apart(t.chunks, t.place) && TopOk(t.chunks, t.place, t.top, t.end)
  {
    hide Stretched, Next;
    GrownTags(h.chunks, t.chunks, h.top, d);
  }

  lemma ExtendRest(h: Heap, t: Heap, d: int)
    requires TopOk(h.chunks, h.place, h.top, h.end) && SizesOk(h.chunks, h.place)
    requires Stretched(h.chunks, t.chunks, h.top, d)
    requires t == h.(chunks := t.chunks, end := h.end + d)
    ensures SizesOk(t.chunks, t.place) && Lives(t) == Lives(h)
    ensures forall x :: x in h.place && Shelved(h.place[x]) ==> Size(t.chunks, x) == Size(h.chunks, x)
  {
    hide BinFor, Aligned, Next;
  }

  lemma ExtendKeeps(h: Heap, d: int)
    requires Inv(h) && d >= 0 && Aligned(d)
    ensures Inv(Extend(h, d)) && Lives(Extend(h, d)) == Lives(h)
  {
    InvPlaces(h);
    var t := Extend(h, d);
    assert Stretched(h.chunks, t.chunks, h.top, d);
    hide Tiled, Tagged, Apart, TopOk, ListsOk, SizesOk, SortedBins, FlagsOk, Lives, Stretched, Aligned, Size;
    ExtendTagged(h, t, d);
    ExtendApart(h, t, d);
    ExtendRest(h, t, d);
    GrowTiled(h.chunks, t.chunks, h.base, h.end, h.top, d);
    SortedBinsSame(h.chunks, t.chunks, h.place, h.lists);
  }

  // ----- from the unsorted bin to the bin for the size -----

  /** `k` is a place for a chunk of this size in a sorted list. */
  ghost predicate FitsAt(chunks: Tags, l: seq<int>, k: int, size: int) {
    && 0 <= k <= |l|
    && (forall j :: 0 <= j < k ==> Size(chunks, l[j]) >= size)
    && (forall j :: k <= j < |l| ==> Size(chunks, l[j]) <= size)
  }

  ghost predicate Rebinnable(h: Heap, a: int, k: int) {
    && a in h.chunks && a in h.place && h.place[a] == InBin(UNSORTED) && BinFor(h.chunks[a].size) > UNSORTED
    && FitsAt(h.chunks, Listed(h, InBin(BinFor(h.chunks[a].size))), k, h.chunks[a].size)
  }

  lemma SortedInsert(chunks: Tags, l: seq<int>, a: int, k: int)
    requires SortedList(chunks, l) && FitsAt(chunks, l, k, Size(chunks, a))
    ensures SortedList(chunks, l[..k] + [a] + l[k..])
  {
    hide Size;
    var r := l[..k] + [a] + l[k..];
    forall i, j | 0 <= i < j < |r| ensures Size(chunks, r[i]) >= Size(chunks, r[j]) {
      assert i < k ==> r[i] == l[i];
      assert i > k ==> r[i] == l[i - 1];
      assert j < k ==> r[j] == l[j];
      assert j > k ==> r[j] == l[j - 1];
      if i < k && j > k { assert Size(chunks, l[i]) >= Size(chunks, a) >= Size(chunks, l[j - 1]); }
    }
  }

  lemma InsertMembers(l: seq<int>, a: int, k: int)
    requires 0 <= k <= |l| && NoDup(l) && a !in l
    ensures var r := l[..k] + [a] + l[k..]; NoDup(r) && forall x :: x in r <==> x in l || x == a
  {
    var r := l[..k] + [a] + l[k..];
    assert l == l[..k] + l[k..];
    ConcatNoDup(l[..k] + [a], l[k..]) by {
      ConcatNoDup(l[..k], [a]);
    }
  }

  lemma RebinLists(h: Heap, a: int, k: int)
    requires ListsOk(h.place, h.lists) && Rebinnable(h, a, k)
    ensures var t := Rebin(h, a, k);
            ListsOk(t.place, t.lists) && Listed(t, InBin(UNSORTED)) == Remove(Listed(h, InBin(UNSORTED)), a)
    ensures a in Listed(h, InBin(UNSORTED))
  {
    var t, u, p := Rebin(h, a, k), InBin(UNSORTED), InBin(BinFor(h.chunks[a].size));
    var l := Listed(h, p);
    assert u in h.lists && ListOk(h.place, u, h.lists[u]);
    RemoveNoDup(h.lists[u], a);
    if p in h.lists { assert ListOk(h.place, p, h.lists[p]); }
    assert a !in l && NoDup(l);
    InsertMembers(l, a, k);
    hide BinFor, FitsAt, Remove;
    forall q | q in t.lists ensures ListOk(t.place, q, t.lists[q]) {
      if q in h.lists { assert ListOk(h.place, q, h.lists[q]); }
    }
    forall x | x in t.place && Shelved(t.place[x]) ensures t.place[x] in t.lists && x in t.lists[t.place[x]] {
      if x != a { assert h.place[x] in h.lists && x in h.lists[h.place[x]]; }
    }
  }

  lemma RebinSorted(h: Heap, a: int, k: int)
    requires SortedBins(h.chunks, h.lists) && Rebinnable(h, a, k)
    ensures var t := Rebin(h, a, k); SortedBins(t.chunks, t.lists)
  {
    var t, p := Rebin(h, a, k), InBin(BinFor(h.chunks[a].size));
    forall i | i > UNSORTED && InBin(i) in t.lists ensures SortedList(t.chunks, t.lists[InBin(i)]) {
      if InBin(i) == p { SortedInsert(h.chunks, Listed(h, p), a, k); }
    }
  }

  lemma RebinRest(h: Heap, a: int, k: int)
    requires Inv(h) && Rebinnable(h, a, k)
    ensures var t := Rebin(h, a, k);
            && Tagged(t.chunks, t.place, t.base) && Apart(t.chunks, t.place) && TopOk(t.chunks, t.place, t.top, t.end)
            && SizesOk(t.chunks, t.place) && FlagsOk(t.place, t.any, t.quick) && Lives(t) == Lives(h)
  {
    hide Tiled, ListsOk, SortedBins, BinFor, FitsAt, Next, Listed;
  }

  lemma RebinKeeps(h: Heap, a: int, k: int)
    requires Inv(h) && Rebinnable(h, a, k)
    ensures Inv(Rebin(h, a, k)) && Lives(Rebin(h, a, k)) == Lives(h)
    ensures Listed(Rebin(h, a, k), InBin(UNSORTED)) == Remove(Listed(h, InBin(UNSORTED)), a)
    ensures a in Listed(h, InBin(UNSORTED))
  {
    hide Tiled, Tagged, Apart, TopOk, ListsOk, SizesOk, SortedBins, FlagsOk, Lives, FitsAt;
    RebinLists(h, a, k);
    RebinSorted(h, a, k);
    RebinRest(h, a, k);
  }

  // ----- neighbours through the tags -----

  lemma Predecessor(chunks: Tags, base: int, end: int, p: int) returns (x: int)
    requires Tiled(chunks, base, end) && p in chunks && p != base
    ensures x in chunks && Next(chunks, x) == p
  {
    Positive(chunks, base, p);
    assert p < end by { assert Next(chunks, p) <= end; }
    assert base <= p - 1;
    CoveredFrom(chunks, base, end, base, p - 1);
    x :| x in chunks && x <= p - 1 < Next(chunks, x);
  }

  /** A clear bit leads to the free chunk before. */
  lemma BackNeighbour(h: Heap, p: int)
    requires Inv(h) && p in h.chunks && !h.chunks[p].pinuse
    ensures var x := p - h.chunks[p].prevSize;
            x in h.chunks && x in h.place && Free(h.place[x]) && Next(h.chunks, x) == p && x < p
  {
    hide Sane, Chained, Disjoint, Apart, TopOk, ListsOk, SizesOk, SortedBins, FlagsOk;
    var x := Predecessor(h.chunks, h.base, h.end, p);
    Positive(h.chunks, h.base, x);
  }

  /** The chunk before a free one is in use. */
  lemma FreeAlone(h: Heap, x: int)
    requires Inv(h) && x in h.chunks && Free(h.place[x])
    ensures h.chunks[x].pinuse
  {
    if !h.chunks[x].pinuse {
      BackNeighbour(h, x);
      hide Tiled, TopOk, ListsOk, SizesOk, SortedBins, FlagsOk;
    }
  }

  /** Any chunk but the top has a neighbour above, whose bit tells whether it is free. */
  lemma FrontNeighbour(h: Heap, x: int)
    requires Inv(h) && x in h.chunks && x != h.top
    ensures Next(h.chunks, x) in h.chunks && Next(h.chunks, x) in h.place
    ensures h.chunks[Next(h.chunks, x)].pinuse <==> !Free(h.place[x])
  {
    hide Apart, ListsOk, SizesOk, SortedBins, FlagsOk, Sane, Disjoint;
    if Next(h.chunks, x) == h.end { SamePrev(h.chunks, h.base, x, h.top); }
  }
}
