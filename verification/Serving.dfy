/** Which chunk a request gets: the rule `malloc` follows, as a relation between the heap before and after. */
module Serving {
  import opened Lists
  import opened BinIndex
  import opened HeapModel

  // ----- free chunks -----

  /** `x` is in a bin and large enough. */
  predicate Holds(m: Heap, x: int, nb: int) {
    x in m.place && Free(m.place[x]) && Size(m.chunks, x) >= nb
  }

  ghost predicate NoneHolds(m: Heap, nb: int) {
    forall x :: x in m.place && Free(m.place[x]) ==> Size(m.chunks, x) < nb
  }

  ghost predicate NoFast(m: Heap) {
    forall x :: x in m.place ==> !m.place[x].Fast?
  }

  /** `a` is at the front of the unsorted bin. */
  predicate First(t: Heap, a: int) {
    Listed(t, InBin(1)) != [] && Listed(t, InBin(1))[0] == a
  }

  predicate SameTop(m: Heap, t: Heap) {
    t.top == m.top && t.end == m.end && Size(t.chunks, t.top) == Size(m.chunks, m.top)
  }

  /** No chunk in the bins that is large enough is smaller. */
  ghost predicate BestFit(m: Heap, p: int, nb: int) {
    forall x :: Holds(m, x, nb) ==> Size(m.chunks, p) <= Size(m.chunks, x)
  }

  /** Of the chunks of bin `i` that are large enough `p` is the last. */
  ghost predicate LastFit(h: Heap, i: int, p: int, nb: int) {
    var l := Listed(h, InBin(i));
    exists j :: 0 <= j < |l| && l[j] == p && Size(h.chunks, p) >= nb
                && forall k :: j < k < |l| ==> Size(h.chunks, l[k]) < nb
  }

  /** What was left by the last split for a small request serves the next one, if the unsorted bin has come
      down to it and no free chunk is of exactly the size. */
  ghost predicate LastRemainder(m: Heap, p: int, nb: int) {
    && nb < 256 && p == m.lastRemainder && Size(m.chunks, p) > nb + 16
    && Listed(m, InBin(1)) != [] && p == Listed(m, InBin(1))[0]
    && forall x :: Holds(m, x, nb) ==> Size(m.chunks, x) != nb
  }

  // ----- the sources, in the order they are tried -----

  /** The fastbin of a size that has one. */
  function FastList(m: Heap, nb: int): seq<int> {
    if nb <= 72 then Listed(m, Fast(nb / 8 - 2)) else []
  }

  function SmallList(m: Heap, nb: int): seq<int> {
    if nb < 256 then Listed(m, InBin(nb / 8)) else []
  }

  /** The first chunk of the fastbin; nothing else changes. */
  ghost predicate FromFast(m: Heap, t: Heap, nb: int, p: int, size: int) {
    var l := FastList(m, nb);
    && l != [] && p == l[0] && size == nb
    && t == m.(place := m.place[p := Live], lists := m.lists[Fast(nb / 8 - 2) := l[1..]])
  }

  /** The last chunk of the small bin; nothing else changes but its neighbour's bit. */
  ghost predicate FromSmall(m: Heap, t: Heap, nb: int, p: int, size: int) {
    var l := SmallList(m, nb);
    && l != [] && p == l[|l| - 1] && size == nb && SameTop(m, t)
    && t == m.(chunks := t.chunks, place := m.place[p := Live], lists := m.lists[InBin(nb / 8) := l[..|l| - 1]])
  }

  /** The best fit, or the last remainder; what is left of it, if it is large enough to be a chunk, goes to the
      front of the unsorted bin. */
  ghost predicate FromBins(m: Heap, t: Heap, nb: int, p: int, size: int) {
    && Holds(m, p, nb) && (BestFit(m, p, nb) || LastRemainder(m, p, nb)) && SameTop(m, t)
    && (if Size(m.chunks, p) - nb < 16 then size == Size(m.chunks, p) && t.lastRemainder == m.lastRemainder
        else size == nb && p + nb in t.place && t.place[p + nb] == InBin(1) && First(t, p + nb)
             && Size(t.chunks, p + nb) == Size(m.chunks, p) - nb
             && t.lastRemainder == if nb < 256 then p + nb else m.lastRemainder)
  }

  /** The lower part of the top. */
  ghost predicate FromTop(m: Heap, t: Heap, nb: int, p: int, size: int) {
    && p == m.top && size == nb && t.top == m.top + nb && t.end == m.end
    && Size(t.chunks, t.top) == Size(m.chunks, m.top) - nb
  }

  /** Whole pages for what the top lacks, with 16 bytes to spare. */
  function Lacking(m: Heap, nb: int): int {
    (nb + 16 - Size(m.chunks, m.top) + 4095) / 4096 * 4096
  }

  /** The region grows by whole pages, up to `limit`, and the chunk comes from the top; or nothing is given, and
      then nothing that is free could have been. */
  ghost predicate FromSystem(m: Heap, t: Heap, nb: int, p: int, size: int, brk: int, brk': int, limit: int) {
    && NoFast(m)
    && (p == 0 <==> Lacking(m, nb) >= 0x8000_0000 || Lacking(m, nb) > limit - brk)
    && (p == 0 ==> brk' == brk && SameTop(m, t) && NoneHolds(t, nb) && NoFast(t))
    && (p != 0 ==> p == m.top && size == nb && t.top == p + nb && t.end == brk'
                   && brk + Lacking(m, nb) <= brk' < brk + Lacking(m, nb) + 4096
                   && (m.top in m.chunks ==> brk' == brk + Lacking(m, nb)))
  }

  /** What is found without the top. */
  ghost predicate FromFree(m: Heap, t: Heap, nb: int, p: int, size: int) {
    if FastList(m, nb) != [] then FromFast(m, t, nb, p, size)
    else if SmallList(m, nb) != [] then FromSmall(m, t, nb, p, size)
    else (exists x :: Holds(m, x, nb)) && FromBins(m, t, nb, p, size)
  }

  ghost predicate NothingFree(m: Heap, nb: int) {
    FastList(m, nb) == [] && SmallList(m, nb) == [] && NoneHolds(m, nb)
  }

  ghost predicate Served(m: Heap, t: Heap, nb: int, p: int, size: int, brk: int, brk': int, limit: int) {
    if FastList(m, nb) != [] then FromFast(m, t, nb, p, size) && brk' == brk
    else if SmallList(m, nb) != [] then FromSmall(m, t, nb, p, size) && brk' == brk
    else if exists x :: Holds(m, x, nb) then FromBins(m, t, nb, p, size) && brk' == brk
    else if Size(m.chunks, m.top) >= nb + 16 then FromTop(m, t, nb, p, size) && brk' == brk
    else FromSystem(m, t, nb, p, size, brk, brk', limit)
  }

  // ----- merging what is in the fastbins -----

  /** When the fastbins are merged first: for a large request, or when nothing else would do. */
  ghost predicate Gathers(h: Heap, nb: int) {
    && h.quick && FastList(h, nb) == []
    && (nb >= 256 || (NoneHolds(h, nb) && Size(h.chunks, h.top) < nb + 16))
  }

  /** Every chunk is one of before or made of several. */
  ghost predicate Coarser(h: Heap, m: Heap) {
    m.base == h.base && m.end == h.end && m.chunks.Keys <= h.chunks.Keys
  }

  /** The fastbins are empty, and what was handed out still is. */
  ghost predicate Gathered(h: Heap, m: Heap) {
    Inv(m) && NoFast(m) && !m.quick && Lives(m) == Lives(h) && Coarser(h, m)
  }

  // ----- what the rule relies on -----

  lemma CoarserTwice(h: Heap, m: Heap, t: Heap)
    requires Coarser(h, m) && Coarser(m, t)
    ensures Coarser(h, t)
  {}

  /** `a` is the chunk that `x` lies in. */
  ghost predicate Around(h: Heap, x: int, a: int) {
    a in h.chunks && a <= x < Next(h.chunks, a)
  }

  /** The chunk around an address only grows. */
  lemma AroundGrows(h: Heap, m: Heap, x: int, a: int, b: int)
    requires Inv(h) && Inv(m) && Coarser(h, m) && Around(h, x, a) && Around(m, x, b)
    ensures Size(h.chunks, a) <= Size(m.chunks, b)
  {
    hide Sane, Tagged, Apart, TopOk, ListsOk, SizesOk, SortedBins, FlagsOk;
    assert b in h.chunks;
    assert a < b ==> Next(h.chunks, a) <= b;
    var n := Next(m.chunks, b);
    assert n == m.end || n in m.chunks;
    if n in h.chunks { assert n > a; assert Next(h.chunks, a) <= n; }
  }

  /** The chunks are the same, and those in bins may be in others. */
  ghost predicate Rearranged(m: Heap, t: Heap) {
    && t == m.(place := t.place, lists := t.lists) && t.place.Keys == m.place.Keys
    && (forall x :: x in m.place ==>
                      if Free(m.place[x]) then Free(t.place[x]) else t.place[x] == m.place[x])
    && (forall i :: Listed(t, Fast(i)) == Listed(m, Fast(i)))
  }

  lemma RearrangedTwice(m: Heap, t: Heap, u: Heap)
    requires Rearranged(m, t) && Rearranged(t, u)
    ensures Rearranged(m, u)
  {}

  lemma RearrangedHolds(m: Heap, t: Heap, nb: int)
    requires Rearranged(m, t)
    ensures forall x :: Holds(m, x, nb) <==> Holds(t, x, nb)
    ensures NoneHolds(m, nb) <==> NoneHolds(t, nb)
    ensures FastList(m, nb) == FastList(t, nb) && (NoFast(m) <==> NoFast(t)) && SameTop(m, t)
    ensures forall x :: Size(t.chunks, x) == Size(m.chunks, x)
  {
    assert forall x :: x in m.place ==> (Free(m.place[x]) <==> Free(t.place[x]));
  }

  /** Before anything has been freed nothing is in a list. */
  lemma NothingShelved(h: Heap, nb: int)
    requires Inv(h) && !h.any
    ensures FastList(h, nb) == [] && SmallList(h, nb) == [] && NoneHolds(h, nb) && NoFast(h)
  {
    hide Tiled, Tagged, Apart, TopOk, SizesOk, SortedBins;
    EmptyList(h, Fast(nb / 8 - 2));
    EmptyList(h, InBin(nb / 8));
  }

  lemma EmptyList(h: Heap, p: Place)
    requires ListsOk(h.place, h.lists) && forall a :: a in h.place ==> !Shelved(h.place[a])
    ensures Listed(h, p) == []
  {
    if p in h.lists {
      var l := h.lists[p];
      assert ListOk(h.place, p, l);
      MemberIfNonEmpty(l);
    }
  }
}
