/** The elementary changes of the heap that `malloc` and `free` are made of; each keeps the invariant. */
module HeapSteps {
  import opened Lists
  import opened BinIndex
  import opened HeapModel

  // ----- the steps -----

  function SetPinuse(chunks: Tags, a: int, bit: bool): Tags {
    if a in chunks then chunks[a := chunks[a].(pinuse := bit)] else chunks
  }

  /** A chunk leaves its list and is handed out; the bit of its neighbour says so. */
  function Take(h: Heap, a: int): Heap
    requires a in h.place
  {
    var p := h.place[a];
    h.(chunks := if Free(p) then SetPinuse(h.chunks, Next(h.chunks, a), true) else h.chunks,
    place := h.place[a := Live],
    lists := h.lists[p := Remove(Listed(h, p), a)])
  }

  /** Two neighbours in use become one. */
  function Join(h: Heap, a: int): Heap
    requires a in h.chunks
  {
    var n := Next(h.chunks, a);
    h.(chunks := (h.chunks - {n})[a := h.chunks[a].(size := h.chunks[a].size + Size(h.chunks, n))],
    place := h.place - {n})
  }

  /** A chunk in use below the top becomes part of it. */
  function JoinTop(h: Heap, a: int): Heap
    requires a in h.chunks
  {
    h.(chunks := (h.chunks - {h.top})[a := h.chunks[a].(size := h.chunks[a].size + Size(h.chunks, h.top))],
    place := (h.place - {h.top})[a := Top], top := a)
  }

  /** A chunk in use goes to the front of the unsorted bin, with its tags set. */
  function Shelve(h: Heap, a: int): Heap
    requires a in h.chunks
  {
    var n := Next(h.chunks, a);
    h.(chunks := if n in h.chunks then h.chunks[n := h.chunks[n].(pinuse := false,
                                       prevSize := h.chunks[a].size)] else h.chunks,
                                        place := h.place[a := InBin(UNSORTED)],
                                        lists := h.lists[InBin(UNSORTED) := [a] + Listed(h, InBin(UNSORTED))],
                                        any := true)
  }

  /** A chunk in use is cut in two. */
  function Split(h: Heap, a: int, n: int): Heap
    requires a in h.chunks
  {
    h.(chunks := h.chunks[a := h.chunks[a].(size := n)][a + n := Chunk(h.chunks[a].size - n, true, 0)],
    place := h.place[a + n := Live])
  }

  /** The lower part of the top is handed out. */
  function SplitTop(h: Heap, n: int): Heap
    requires h.top in h.chunks
  {
    var a := h.top;
    h.(chunks := h.chunks[a := h.chunks[a].(size := n)][a + n := Chunk(h.chunks[a].size - n, true, 0)],
    place := h.place[a := Live][a + n := Top], top := a + n)
  }

  function FastIndex(size: int): int { size / 8 - 2 }

  /** A small chunk in use goes to the front of its fastbin; its neighbour does not learn of it. */
  function PushFast(h: Heap, a: int): Heap
    requires a in h.chunks
  {
    var p := Fast(FastIndex(h.chunks[a].size));
    h.(place := h.place[a := p], lists := h.lists[p := [a] + Listed(h, p)], any := true, quick := true)
  }

  /** The region grows at its end. */
  function Extend(h: Heap, d: int): Heap
    requires h.top in h.chunks
  {
    h.(chunks := h.chunks[h.top := h.chunks[h.top].(size := h.chunks[h.top].size + d)], end := h.end + d)
  }

  /** A chunk moves from the unsorted bin to place `k` of the bin for its size. */
  function Rebin(h: Heap, a: int, k: nat): Heap
    requires a in h.chunks && k <= |Listed(h, InBin(BinFor(h.chunks[a].size)))|
  {
    var p := InBin(BinFor(h.chunks[a].size));
    var l := Listed(h, p);
    h.(place := h.place[a := p],
    lists := h.lists[InBin(UNSORTED) := Remove(Listed(h, InBin(UNSORTED)), a)][p := l[..k] + [a] + l[k..]])
  }

  // ----- tiling -----

  /** `n` follows `a` in the first table; in the second the two are one. */
  ghost predicate Merged(chunks: Tags, chunks': Tags, a: int, n: int) {
    && a in chunks && n in chunks && n == Next(chunks, a)
    && chunks' == (chunks - {n})[a := chunks[a].(size := chunks[a].size + chunks[n].size)]
  }

  lemma MergedNext(chunks: Tags, chunks': Tags, a: int, n: int)
    requires Merged(chunks, chunks', a, n) && chunks[a].size > 0
    ensures Next(chunks', a) == Next(chunks, n) && a in chunks' && n !in chunks' && a < n
    ensures forall x :: x in chunks' && x != a ==>
                          x in chunks && Next(chunks', x) == Next(chunks, x) && chunks'[x] == chunks[x]
    ensures forall x :: x in chunks && x != n ==> x in chunks'
  {}

  /** Only one chunk ends at a given place. */
  lemma SamePrev(chunks: Tags, base: int, x: int, y: int)
    requires Disjoint(chunks) && Sane(chunks, base) && x in chunks && y in chunks && Next(chunks, x) == Next(chunks, y)
    ensures x == y
  {}

  lemma MergeSane(chunks: Tags, chunks': Tags, base: int, a: int, n: int)
    requires Sane(chunks, base) && Merged(chunks, chunks', a, n)
    ensures Sane(chunks', base)
  {
    AlignedSum(chunks[a].size, chunks[n].size);
    hide Aligned;
  }

  lemma MergeChained(chunks: Tags, chunks': Tags, base: int, end: int, a: int, n: int, x: int)
    requires Tiled(chunks, base, end) && Merged(chunks, chunks', a, n) && x in chunks'
    ensures Next(chunks', x) <= end && (Next(chunks', x) == end || Next(chunks', x) in chunks')
  {
    Positive(chunks, base, a);
    Positive(chunks, base, n);
    MergedNext(chunks, chunks', a, n);
    hide Merged, Sane, Disjoint;
    var m := Next(chunks, n);
    if x != a && Next(chunks, x) == n { SamePrev(chunks, base, x, a); }
  }

  lemma Positive(chunks: Tags, base: int, a: int)
    requires Sane(chunks, base) && a in chunks
    ensures chunks[a].size > 0 && a < Next(chunks, a)
  {}

  lemma MergeDisjoint(chunks: Tags, chunks': Tags, base: int, a: int, n: int, x: int, y: int)
    requires Disjoint(chunks) && Sane(chunks, base) && Merged(chunks, chunks', a, n) && x in chunks' && y in chunks'
    requires x < y
    ensures Next(chunks', x) <= y
  {
    Positive(chunks, base, a);
    MergedNext(chunks, chunks', a, n);
    hide Merged, Sane;
    assert Next(chunks, x) <= y;
    if x == a { assert n < y; assert Next(chunks, n) <= y; }
  }

  lemma MergeTiled(chunks: Tags, chunks': Tags, base: int, end: int, a: int, n: int)
    requires Tiled(chunks, base, end) && Merged(chunks, chunks', a, n)
    ensures Tiled(chunks', base, end)
  {
    MergeSane(chunks, chunks', base, a, n);
    assert base in chunks' by { Positive(chunks, base, a); }
    hide Merged, Sane;
    forall x | x in chunks' ensures Next(chunks', x) <= end && (Next(chunks', x) == end
                                                                || Next(chunks', x) in chunks') {
      MergeChained(chunks, chunks', base, end, a, n, x);
    }
    forall x, y | x in chunks' && y in chunks' && x < y ensures Next(chunks', x) <= y {
      MergeDisjoint(chunks, chunks', base, a, n, x, y);
    }
  }

  /** `a` is cut after `n` bytes. */
  ghost predicate Cut(chunks: Tags, chunks': Tags, a: int, n: int) {
    && a in chunks && Aligned(n) && n >= MINSIZE && chunks[a].size - n >= MINSIZE
    && chunks' == chunks[a := chunks[a].(size := n)][a + n := Chunk(chunks[a].size - n, true, 0)]
  }

  lemma CutNext(chunks: Tags, chunks': Tags, base: int, end: int, a: int, n: int)
    requires Cut(chunks, chunks', a, n) && Tiled(chunks, base, end)
    ensures a + n !in chunks && a + n in chunks' && a in chunks' && a in chunks && n > 0
    ensures Next(chunks', a) == a + n < Next(chunks, a) && Next(chunks', a + n) == Next(chunks, a)
    ensures forall x :: x in chunks && x != a ==>
                          x in chunks' && Next(chunks', x) == Next(chunks, x) && chunks'[x] == chunks[x]
    ensures forall x :: x in chunks' ==> x in chunks || x == a + n
  {
    assert Next(chunks, a) == a + chunks[a].size;
  }

  lemma CutSane(chunks: Tags, chunks': Tags, base: int, a: int, n: int)
    requires Cut(chunks, chunks', a, n) && Sane(chunks, base)
    ensures Sane(chunks', base)
  {
    AlignedSum(a, n);
    AlignedSum(chunks[a].size, n);
    hide Aligned;
  }

  lemma AlignedSum(x: int, y: int)
    requires Aligned(x) && Aligned(y)
    ensures Aligned(x + y) && Aligned(x - y)
  {}

  lemma CutDisjoint(chunks: Tags, chunks': Tags, base: int, end: int, a: int, n: int, x: int, y: int)
    requires Tiled(chunks, base, end) && Cut(chunks, chunks', a, n) && x in chunks' && y in chunks' && x < y
    ensures Next(chunks', x) <= y
  {
    CutNext(chunks, chunks', base, end, a, n);
    var x0, y0 := if x == a + n then a else x, if y == a + n then a else y;
    Positive(chunks, base, x0);
    Positive(chunks, base, y0);
    hide Cut, Sane, Chained;
    if x0 != y0 {
      assert x0 < y0 ==> Next(chunks, x0) <= y0;
      assert y0 < x0 ==> Next(chunks, y0) <= x0;
    }
  }

  lemma CutChained(chunks: Tags, chunks': Tags, base: int, end: int, a: int, n: int, x: int)
    requires Tiled(chunks, base, end) && Cut(chunks, chunks', a, n) && x in chunks'
    ensures Next(chunks', x) <= end && (Next(chunks', x) == end || Next(chunks', x) in chunks')
  {
    hide Cut, Sane, Disjoint, Next;
    CutNext(chunks, chunks', base, end, a, n);
    assert Next(chunks, a) <= end && (Next(chunks, a) == end || Next(chunks, a) in chunks);
    if x != a && x != a + n { assert Next(chunks, x) <= end; }
  }

  lemma CutTiled(chunks: Tags, chunks': Tags, base: int, end: int, a: int, n: int)
    requires Tiled(chunks, base, end) && Cut(chunks, chunks', a, n)
    ensures Tiled(chunks', base, end)
  {
    CutSane(chunks, chunks', base, a, n);
    CutNext(chunks, chunks', base, end, a, n);
    hide Cut, Sane;
    forall x | x in chunks' ensures Next(chunks', x) <= end && (Next(chunks', x) == end
                                                                || Next(chunks', x) in chunks') {
      CutChained(chunks, chunks', base, end, a, n, x);
    }
    forall x, y | x in chunks' && y in chunks' && x < y ensures Next(chunks', x) <= y {
      CutDisjoint(chunks, chunks', base, end, a, n, x, y);
    }
  }

  /** A change of tags only. */
  ghost predicate SameSizes(chunks: Tags, chunks': Tags) {
    chunks'.Keys == chunks.Keys && forall a :: a in chunks ==> chunks'[a].size == chunks[a].size
  }

  lemma SizesTiled(chunks: Tags, chunks': Tags, base: int, end: int)
    requires Tiled(chunks, base, end) && SameSizes(chunks, chunks')
    ensures Tiled(chunks', base, end)
  {
    assert forall a :: Next(chunks', a) == Next(chunks, a);
  }

  ghost predicate Stretched(chunks: Tags, chunks': Tags, top: int, d: int) {
    top in chunks && d >= 0 && Aligned(d) && chunks' == chunks[top := chunks[top].(size := chunks[top].size + d)]
  }

  lemma GrowSane(chunks: Tags, chunks': Tags, base: int, top: int, d: int)
    requires Sane(chunks, base) && Stretched(chunks, chunks', top, d)
    ensures Sane(chunks', base)
  {
    AlignedSum(chunks[top].size, d);
    hide Aligned;
  }

  lemma GrownNext(chunks: Tags, chunks': Tags, top: int, d: int, x: int)
    requires Stretched(chunks, chunks', top, d)
    ensures Next(chunks', x) == Next(chunks, x) + (if x == top then d else 0) && chunks'.Keys == chunks.Keys && d >= 0
  {}

  lemma GrowChained(chunks: Tags, chunks': Tags, base: int, end: int, top: int, d: int, x: int)
    requires Tiled(chunks, base, end) && Next(chunks, top) == end && Stretched(chunks, chunks', top, d) && x in chunks'
    ensures Next(chunks', x) <= end + d && (Next(chunks', x) == end + d || Next(chunks', x) in chunks')
  {
    GrownNext(chunks, chunks', top, d, x);
    assert top in chunks;
    hide Stretched, Sane, Disjoint;
    if Next(chunks, x) == end { SamePrev(chunks, base, x, top); }
  }

  lemma GrowDisjoint(chunks: Tags, chunks': Tags, base: int, end: int, top: int, d: int, x: int, y: int)
    requires Tiled(chunks, base, end) && Next(chunks, top) == end && Stretched(chunks, chunks', top, d)
    requires x in chunks' && y in chunks' && x < y
    ensures Next(chunks', x) <= y
  {
    GrownNext(chunks, chunks', top, d, x);
    Positive(chunks, base, y);
    hide Stretched, Sane;
    assert Next(chunks, x) <= y && Next(chunks, y) <= end;
  }

  lemma GrowTiled(chunks: Tags, chunks': Tags, base: int, end: int, top: int, d: int)
    requires Tiled(chunks, base, end) && Next(chunks, top) == end && Stretched(chunks, chunks', top, d)
    ensures Tiled(chunks', base, end + d)
  {
    GrowSane(chunks, chunks', base, top, d);
    GrownNext(chunks, chunks', top, d, base);
    hide Stretched, Sane;
    forall x | x in chunks' ensures Next(chunks', x) <= end + d && (Next(chunks', x) == end + d
                                                                    || Next(chunks', x) in chunks') {
      GrowChained(chunks, chunks', base, end, top, d, x);
    }
    forall x, y | x in chunks' && y in chunks' && x < y ensures Next(chunks', x) <= y {
      GrowDisjoint(chunks, chunks', base, end, top, d, x, y);
    }
  }
}
