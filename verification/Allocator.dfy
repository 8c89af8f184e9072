/** `malloc` and `free` over the heap model, with the `sbrk` of this system. */
module Allocator {
  import opened Lists
  import opened BinIndex
  import opened HeapModel
  import opened HeapSteps
  import opened HeapKeeps
  import opened Serving

  const PAGE: int := 4096
  const MAX_FASTBIN: int := 7
  const CONSOLIDATION: int := 0x2_0000

  /** Same fastbins, and no bin but the unsorted one has gained a chunk. */
  ghost predicate SameFast(h: Heap, t: Heap) {
    && t.base == h.base && t.end == h.end && t.quick == h.quick
    && (forall i :: Listed(t, Fast(i)) == Listed(h, Fast(i)))
    && (forall i :: i > UNSORTED && Listed(t, InBin(i)) != [] ==> Listed(h, InBin(i)) != [])
  }

  // ----- giving a chunk back -----

  /** The free chunk below `p`, taken off its list, is ready to be joined with it. */
  ghost predicate TakenBelow(h: Heap, p: int, x: int) {
    && x in h.place && Free(h.place[x]) && x != p && x !in Lives(h)
    && var u := Take(h, x);
    && Inv(u) && SameFast(h, u) && Joinable(u, x) && Next(u.chunks, x) == p && u.chunks[x].pinuse
    && u.chunks[x].size > 0
    && Lives(u) == Lives(h)[x := u.chunks[x].size]
  }

  /** Joined with it, one chunk in use takes the place of `p`. */
  ghost predicate AbsorbedBelow(h: Heap, p: int, x: int) {
    && x in h.place && Free(h.place[x]) && x in Take(h, x).chunks
    && var t := Join(Take(h, x), x);
    && Inv(t) && SameFast(h, t) && x in t.chunks && x in t.place && t.place[x] == Live && t.chunks[x].pinuse
    && x in Lives(t) && Lives(t) - {x} == Lives(h) - {p}
    && Coarser(h, t) && Around(t, p, x)
  }

  lemma TakeBelow(h: Heap, p: int)
    requires Inv(h) && p in h.chunks && p in h.place && h.place[p] == Live && !h.chunks[p].pinuse
    ensures TakenBelow(h, p, p - h.chunks[p].prevSize)
  {
    hide Inv, Lives, SameFast, Take, Next;
    var x := p - h.chunks[p].prevSize;
    BackNeighbour(h, p);
    FreeAlone(h, x);
    TakeKeeps(h, x);
    TakeTags(h, x);
    Grows(h, x);
    TakeSettles(h, x);
  }

  lemma AbsorbBack(h: Heap, p: int)
    requires Inv(h) && p in h.chunks && p in h.place && h.place[p] == Live && !h.chunks[p].pinuse
    ensures AbsorbedBelow(h, p, p - h.chunks[p].prevSize)
  {
    hide Inv, Lives, SameFast, Take, Join, Next, Coarser;
    var x := p - h.chunks[p].prevSize;
    TakeBelow(h, p);
    var u := Take(h, x);
    JoinKeeps(u, x);
    JoinTags(u, x);
    JoinLists(u, x);
    TakeFrames(h, x);
    JoinFrames(u, x);
    Grows(u, x);
    Grows(u, p);
    CoarserTwice(h, u, Join(u, x));
    SettlesTwice(h, u, Join(u, x));
    Overwritten(Lives(h), x, u.chunks[x].size, p, u.chunks[x].size + u.chunks[p].size);
  }

  lemma Overwritten(m: map<int, int>, x: int, s: int, p: int, s': int)
    requires x != p && x !in m
    ensures (m[x := s] - {p})[x := s'] - {x} == m - {p}
  {}

  lemma SettlesTwice(h: Heap, u: Heap, t: Heap)
    requires SameFast(h, u) && SameFast(u, t)
    ensures SameFast(h, t)
  {}

  /** What the code reads of the chunk above. */
  lemma Above(h: Heap, q: int)
    requires Inv(h) && q in h.chunks && q in h.place && h.place[q] == Live && h.chunks[q].pinuse
    requires Next(h.chunks, q) != h.top
    ensures var n := Next(h.chunks, q);
            && q != h.top && n in h.chunks && n in h.place && Next(h.chunks, n) in h.chunks
            && (h.chunks[Next(h.chunks, n)].pinuse <==> !Free(h.place[n]))
            && (!Free(h.place[n]) ==> Shelvable(h, q))
  {
    hide Inv, Next;
    InvPlaces(h);
    FrontNeighbour(h, q);
    FrontNeighbour(h, Next(h.chunks, q));
  }

  lemma Grows(h: Heap, x: int)
    requires Inv(h) && x in h.chunks
    ensures h.chunks[x].size > 0 && x < Next(h.chunks, x)
  {
    hide Chained, Disjoint, Tagged, Apart, TopOk, ListsOk, SizesOk, SortedBins, FlagsOk;
    Positive(h.chunks, h.base, x);
  }

  lemma AbsorbFront(h: Heap, q: int)
    requires Inv(h) && q in h.chunks && q in h.place && h.place[q] == Live && h.chunks[q].pinuse
    requires Next(h.chunks, q) != h.top
    requires Next(h.chunks, q) in h.place && Free(h.place[Next(h.chunks, q)])
    ensures var n := Next(h.chunks, q);
            && q in Take(h, n).chunks && Joinable(Take(h, n), q)
            && var t := Join(Take(h, n), q);
            && Inv(t) && SameFast(h, t) && Shelvable(t, q) && q in Lives(t)
            && q in Lives(h) && Lives(t) == Lives(h)[q := Lives(t)[q]]
  {
    var n := Next(h.chunks, q);
    hide Inv, Shelvable;
    InvPlaces(h);
    Grows(h, q);
    Grows(h, n);
    TakeKeeps(h, n);
    TakeTags(h, n);
    BeyondFree(h, n);
    var u := Take(h, n);
    Grows(h, Next(h.chunks, n));
    JoinKeeps(u, q);
    JoinTags(u, q);
    assert Shelvable(Join(u, q), q) by { StillShelvable(h, u, Join(u, q), q, n); }
    JoinLists(u, q);
    TakeSettles(h, n);
  }

  lemma StillShelvable(h: Heap, u: Heap, t: Heap, q: int, n: int)
    requires q in t.chunks && q in t.place && t.place[q] == Live && t.chunks[q].pinuse
    requires var m := Next(h.chunks, n);
             Next(t.chunks, q) == m && m in t.chunks && m in t.place && !Free(t.place[m]) && t.place[m] != Top
    ensures Shelvable(t, q)
  {}

  lemma JoinLists(u: Heap, q: int)
    requires q in u.chunks
    ensures SameFast(u, Join(u, q))
  {}

  lemma TakeSettles(h: Heap, n: int)
    requires n in h.place && Free(h.place[n])
    ensures SameFast(h, Take(h, n))
  {
    var l := Listed(h, h.place[n]);
    if l == [] { assert Remove(l, n) == []; }
  }

  /** Beyond a free chunk there is one that is neither free nor the top. */
  lemma BeyondFree(h: Heap, n: int)
    requires Inv(h) && n in h.chunks && n in h.place && Free(h.place[n])
    ensures var m := Next(h.chunks, n); m in h.chunks && m in h.place && !Free(h.place[m]) && h.place[m] != Top
  {
    hide Tiled, Tagged, TopOk, ListsOk, SizesOk, SortedBins, FlagsOk;
    var m := Next(h.chunks, n);
  }

  lemma TakeTags(h: Heap, n: int)
    requires n in h.place
    ensures var u := Take(h, n);
            && (forall x :: Next(u.chunks, x) == Next(h.chunks, x)) && u.chunks.Keys == h.chunks.Keys && u.top == h.top
            && (forall x :: x in h.chunks && x != Next(h.chunks, n) ==> u.chunks[x] == h.chunks[x])
            && (forall x :: x in h.place && x != n ==> u.place[x] == h.place[x]) && u.place[n] == Live
            && u.place.Keys == h.place.Keys
  {}

  lemma JoinTags(u: Heap, q: int)
    requires Joinable(u, q) && u.chunks[q].size > 0
    ensures var t := Join(u, q); var n := Next(u.chunks, q);
                                 && q in t.chunks && q in t.place && t.place[q] == Live
                                 && t.chunks[q].pinuse == u.chunks[q].pinuse
                                 && Next(t.chunks, q) == Next(u.chunks, n) && t.top == u.top
                                 && (forall x :: x in u.chunks && x != n ==> x in t.chunks)
                                 && (forall x :: x in u.place && x != n ==> x in t.place && t.place[x] == u.place[x])
  {}

  // ----- what the elementary changes leave alone -----

  /** The chunk has been handed out, whole or with its remainder in the unsorted bin. */
  ghost predicate Carved(h: Heap, t: Heap, victim: int, nb: int, size: int) {
    && SameTop(h, t) && t.lastRemainder == h.lastRemainder
    && (if Size(h.chunks, victim) - nb < 16 then size == Size(h.chunks, victim)
        else size == nb && victim + nb in t.place && t.place[victim + nb] == InBin(1) && First(t, victim + nb)
             && Size(t.chunks, victim + nb) == Size(h.chunks, victim) - nb)
  }

  lemma TakeFrames(h: Heap, a: int)
    requires a in h.place
    ensures var t := Take(h, a);
            Coarser(h, t) && SameTop(h, t) && t.lastRemainder == h.lastRemainder
            && forall x :: Size(t.chunks, x) == Size(h.chunks, x)
  {}

  lemma JoinFrames(h: Heap, a: int)
    requires a in h.chunks
    ensures var t := Join(h, a);
            Coarser(h, t) && Size(t.chunks, a) == h.chunks[a].size + Size(h.chunks, Next(h.chunks, a))
  {}

  lemma JoinTopFrames(h: Heap, a: int)
    requires a in h.chunks && a != h.top
    ensures var t := JoinTop(h, a);
            Coarser(h, t) && a in t.chunks && a in t.place && t.place[a] == Top
            && t.chunks[a].size == h.chunks[a].size + Size(h.chunks, h.top)
  {}

  lemma ShelveFrames(h: Heap, a: int)
    requires a in h.chunks
    ensures var t := Shelve(h, a);
            && Coarser(h, t) && SameTop(h, t) && t.lastRemainder == h.lastRemainder
            && (forall x :: Size(t.chunks, x) == Size(h.chunks, x))
            && a in t.chunks && a in t.place && t.place[a] == InBin(UNSORTED) && First(t, a)
  {}

  lemma SplitFrames(h: Heap, a: int, n: int)
    requires a in h.chunks && a != h.top && a + n != h.top
    ensures var t := Split(h, a, n);
            SameTop(h, t) && t.lastRemainder == h.lastRemainder && Size(t.chunks, a + n) == h.chunks[a].size - n
  {}

  class Malloc {
    var h: Heap
    /** Bins that may be non-empty. */
    var marked: set<int>
    var brk: int
    const start: int
    const limit: int

    /** Nothing has been asked of the system yet. */
    ghost predicate Untouched()
      reads this
    {
      h == Heap(start, start, map[], map[], start, map[], 0, false, false) && brk == start
    }

    ghost predicate Marked()
      reads this
    {
      forall i :: i > UNSORTED && Listed(h, InBin(i)) != [] ==> i in marked
    }

    ghost predicate Valid()
      reads this
    {
      && 0 < start <= brk <= limit && Aligned(start) && Marked()
      && (Untouched() || (Inv(h) && h.base == start && h.end == brk))
    }

    constructor (start: int, limit: int)
      requires 0 < start <= limit && Aligned(start)
      ensures Valid() && Untouched() && Lives(h) == map[] && this.start == start && this.limit == limit
    {
      this.start, this.limit := start, limit;
      h := Heap(start, start, map[], map[], start, map[], 0, false, false);
      brk := start;
      marked := {};
    }

    // ----- free -----

    /** A free chunk below is taken off its bin and becomes the front of this one. */
    method AbsorbBelow(p: int) returns (q: int)
      requires Valid() && Inv(h) && p in h.place && h.place[p] == Live
      modifies this`h
      ensures Valid() && Inv(h) && SameFast(old(h), h)
      ensures q in h.chunks && q in h.place && h.place[q] == Live && h.chunks[q].pinuse
      ensures Lives(h) - {q} == old(Lives(h)) - {p}
      ensures Coarser(old(h), h) && Around(h, p, q)
    {
      hide Inv, Lives, Joinable, Take, Join;
      q := p;
      InvPlaces(h);
      Grows(h, p);
      if !h.chunks[p].pinuse {
        q := p - h.chunks[p].prevSize;
        AbsorbBack(h, p);
        h := Take(h, q);
        h := Join(h, q);
      }
    }

    /** The chunk becomes part of the top, or takes in a free chunk above and goes to the unsorted bin. */
    method Release(q: int) returns (size: int)
      requires Valid() && Inv(h) && q in h.chunks && q in h.place && h.place[q] == Live && h.chunks[q].pinuse
      modifies this`h
      ensures Valid() && Inv(h) && SameFast(old(h), h) && Lives(h) == old(Lives(h)) - {q}
      ensures Coarser(old(h), h) && q in h.chunks && q in h.place && h.chunks[q].size == size
      ensures old(h.chunks[q].size) <= size && (h.place[q] == Top || (h.place[q] == InBin(UNSORTED) && First(h, q)))
    {
      hide Inv, Lives, Joinable, Take, Join, Shelvable, JoinTop, Shelve;
      InvPlaces(h);
      if Next(h.chunks, q) != h.top {
        Above(h, q);
        var n := Next(h.chunks, q);
        if !h.chunks[Next(h.chunks, n)].pinuse {
          AbsorbFront(h, q);
          TakeFrames(h, n);
          Grows(h, n);
          h := Take(h, n);
          JoinFrames(h, q);
          h := Join(h, q);
          ShelvableIs(h, q);
        }
        ShelveKeeps(h, q);
        ShelveSettles(h, q);
        ShelveFrames(h, q);
        size := h.chunks[q].size;
        assert Size(h.chunks, q) == size && old(Size(h.chunks, q)) <= size;
        h := Shelve(h, q);
        assert Size(h.chunks, q) == size;
      } else {
        assert BelowTop(h, q);
        JoinTopKeeps(h, q);
        JoinTopSettles(h, q);
        JoinTopFrames(h, q);
        Grows(h, h.top);
        size := h.chunks[q].size + h.chunks[h.top].size;
        h := JoinTop(h, q);
      }
    }

    /** The merging part of `free` and `malloc_consolidate`; gives the size of what the chunk became. */
    method Coalesce(p: int) returns (size: int, ghost q: int)
      requires Valid() && Inv(h) && p in h.place && h.place[p] == Live
      modifies this`h
      ensures Valid() && Inv(h) && Lives(h) == old(Lives(h)) - {p} && SameFast(old(h), h)
      ensures Coarser(old(h), h) && Around(h, p, q) && q in h.place
      ensures h.place[q] == Top || (h.place[q] == InBin(UNSORTED) && First(h, q))
      ensures size == h.chunks[q].size
    {
      hide Inv, Lives, SameFast, Coarser;
      var front := AbsorbBelow(p);
      ghost var u := h;
      size := Release(front);
      q := front;
      CoarserTwice(old(h), u, h);
      SettlesTwice(old(h), u, h);
    }

    /** `malloc_consolidate`: every chunk in a fastbin is merged with its neighbours. */
    method Consolidate()
      requires Valid() && Inv(h)
      modifies this`h
      ensures Valid() && Inv(h) && Lives(h) == old(Lives(h)) && !h.quick && h.end == old(h.end)
      ensures Gathered(old(h), h)
    {
      hide Inv, Lives, Take, Coarser, NoFast;
      ghost var lives := Lives(h);
      SelfCoarser(h);
      var i := 0;
      while i <= MAX_FASTBIN
        invariant 0 <= i <= MAX_FASTBIN + 1 && Valid() && Inv(h) && Lives(h) == lives && h.end == old(h.end)
        invariant Coarser(old(h), h)
        invariant forall j :: 0 <= j < i ==> Listed(h, Fast(j)) == []
      {
        while Listed(h, Fast(i)) != []
          invariant Valid() && Inv(h) && Lives(h) == lives && h.end == old(h.end) && Coarser(old(h), h)
          invariant forall j :: 0 <= j < i ==> Listed(h, Fast(j)) == []
          decreases |Listed(h, Fast(i))|
        {
          var p := Listed(h, Fast(i))[0];
          FirstOfFast(h, i);
          TakeKeeps(h, p);
          TakeFrames(h, p);
          ghost var u := h;
          h := Take(h, p);
          CoarserTwice(old(h), u, h);
          u := h;
          var size, _ := Coalesce(p);
          CoarserTwice(old(h), u, h);
        }
        i := i + 1;
      }
      NoneFast(h);
      ghost var u := h;
      h := h.(quick := false);
      QuickCoarser(old(h), u);
      NotQuick(h);
    }

    /** `sbrk` of this system: it never gives memory back. */
    method Sbrk(diff: int) returns (ok: bool, was: int)
      modifies this`brk
      ensures ok <==> 0 <= diff <= limit - old(brk)
      ensures was == old(brk) && brk == old(brk) + (if ok then diff else 0)
    {
      was := brk;
      ok := was <= was + diff <= limit;
      if ok { brk := was + diff; }
    }

    /** `sYSTRIm`: asks to shrink the region, which is refused, and sees that nothing was released. */
    method SysTrim() returns (released: bool)
      requires Valid() && Inv(h)
      modifies this`brk
      ensures Valid() && !released && brk == old(brk)
    {
      InvPlaces(h);
      var topSize := h.chunks[h.top].size;
      var extra := ((topSize - MINSIZE + (PAGE - 1)) / PAGE - 1) * PAGE;
      released := false;
      if extra > 0 {
        var ok, current := Sbrk(0);
        if current == h.top + topSize {
          ok, current := Sbrk(-extra);
          var now;
          ok, now := Sbrk(0);
          released := current != now;
        }
      }
    }

    /** `free`; only what has been handed out, or null, may be given back. */
    method Free(p: int)
      requires Valid() && (p == 0 || p in Lives(h))
      modifies this
      ensures Valid() && Lives(h) == old(Lives(h)) - {p} && brk == old(brk)
      ensures p == 0 ==> h == old(h)
      ensures p != 0 && old(Lives(h))[p] <= 72 ==> PushedFast(old(h), h, p, old(Lives(h))[p])
      ensures p != 0 && old(Lives(h))[p] > 72 ==>
                && Inv(h) && Coarser(old(h), h)
                && exists q :: Around(h, p, q)
                               && (h.quick <==> old(h.quick) && h.chunks[q].size < 0x2_0000)
                               && (h.quick == old(h.quick) ==>
                                     q in h.place
                                     && (h.place[q] == Top || (h.place[q] == InBin(UNSORTED) && First(h, q))))
    {
      hide Inv, Lives, PushFast, Coarser, SameFast, Around;
      NullIsNotLive(this);
      if p == 0 { return; }
      LiveIs(h, p);
      assert Inv(h);
      InvPlaces(h);
      if h.chunks[p].size <= MAX_FAST {
        PushFastKeeps(h, p);
        PushFastSettles(h, p);
        PushFastIs(h, p);
        h := PushFast(h, p);
      } else {
        AnyKeeps(h);
        ghost var u := h;
        h := h.(any := true);
        AnyCoarser(u);
        var size, q := Coalesce(p);
        CoarserTwice(u, u.(any := true), h);
        SameQuick(u, h);
        assert Around(h, p, q);
        if size >= CONSOLIDATION {
          if h.quick {
            ghost var v := h;
            Consolidate();
            CoarserTwice(u, v, h);
            InRegion(v, h, p, q);
            ghost var b := AroundIn(h, p);
            AroundGrows(v, h, p, q, b);
            SizeIs(v, q);
            SizeIs(h, b);
            assert Around(h, p, b);
          }
          var released := SysTrim();
        }
      }
    }

    // ----- malloc -----

    /** A free chunk is handed out, whole or with its remainder going to the unsorted bin. */
    method Carve(victim: int, nb: int) returns (size: int, remainder: int)
      requires Valid() && Inv(h) && victim in h.place && HeapModel.Free(h.place[victim])
      requires victim in h.chunks && Aligned(nb) && nb >= MINSIZE && h.chunks[victim].size >= nb
      modifies this`h
      ensures Valid() && Inv(h) && h.end == old(h.end) && h.quick == old(h.quick)
      ensures victim !in old(Lives(h)) && Lives(h) == old(Lives(h))[victim := size] && nb <= size < nb + MINSIZE
      ensures Carved(old(h), h, victim, nb, size)
      ensures remainder == if old(h.chunks[victim].size) - nb < 16 then 0 else victim + nb
    {
      hide Inv, Lives, Take, Split, Shelve, Aligned;
      size, remainder := h.chunks[victim].size, 0;
      TakeKeeps(h, victim);
      TakeSettles(h, victim);
      TakeTags(h, victim);
      BeyondFree(h, victim);
      Grows(h, victim);
      TakeFrames(h, victim);
      InvPlaces(h);
      ghost var lives, above := Lives(h), Next(h.chunks, victim);
      h := Take(h, victim);
      if size - nb >= MINSIZE {
        remainder := victim + nb;
        SplitKeeps(h, victim, nb);
        SplitTags(h, victim, nb);
        SplitFrames(h, victim, nb) by { InvPlaces(h); }
        ghost var u := h;
        h := Split(h, victim, nb);
        assert Shelvable(h, remainder);
        ShelveKeeps(h, remainder);
        ShelveSettles(h, remainder);
        ShelveFrames(h, remainder);
        h := Shelve(h, remainder);
        Halved(lives, victim, size, nb, remainder) by { PlaceOfLive(u, remainder); }
        size := nb;
      }
    }

    /** `sYSMALLOc` once the fastbins are empty: the region grows by whole pages. */
    method Grow(nb: int) returns (ok: bool)
      requires Valid() && Aligned(nb) && nb >= MINSIZE && Size(h.chunks, h.top) < nb + MINSIZE
      modifies this`h, this`brk
      ensures Valid() && Lives(h) == old(Lives(h)) && h.quick == old(h.quick)
      ensures ok <==> Lacking(old(h), nb) < 0x8000_0000 && Lacking(old(h), nb) <= limit - old(brk)
      ensures ok ==> Inv(h) && h.top in h.chunks && h.chunks[h.top].size >= nb + MINSIZE
      ensures ok ==> h.top == old(h.top) && h.end == brk
                     && old(brk) + Lacking(old(h), nb) <= brk < old(brk) + Lacking(old(h), nb) + PAGE
                     && (old(h.top in h.chunks) ==> brk == old(brk) + Lacking(old(h), nb))
      ensures !ok ==> h == old(h) && brk == old(brk)
    {
      hide Lives, Inv;
      TopKnown(this);
      if Inv(h) { TopSized(h); }
      var topSize := if h.top in h.chunks then h.chunks[h.top].size else 0;
      var size := nb + MINSIZE - topSize;
      size := (size + PAGE - 1) / PAGE * PAGE;
      if size >= 0x8000_0000 { return false; }
      var was;
      ok, was := Sbrk(size);
      if !ok { return; }
      if h.top in h.chunks {
        PageAligned(size);
        ExtendKeeps(h, size);
        h := Extend(h, size);
      } else {
        assert Lives(h) == map[] by { NoLives(h); }
        var correction := (was + size + PAGE - 1) / PAGE * PAGE - (was + size);
        var more, second := Sbrk(correction);
        if !more { correction := 0; }
        FirstAligned(was, size, correction);
        FirstHeap(start, size + correction);
        h := FirstRegion(start, size + correction);
      }
    }

    /** Takes from the top, growing the region if needed. */
    method UseTop(nb: int) returns (p: int, size: int)
      requires Valid() && Aligned(nb) && nb >= MINSIZE && !h.quick && NoFast(h) && NoneHolds(h, nb)
      modifies this`h, this`brk
      ensures Valid() && h.quick == old(h.quick)
      ensures p != 0 ==> p !in old(Lives(h)) && Lives(h) == old(Lives(h))[p := size] && size == nb
      ensures p == 0 ==> Lives(h) == old(Lives(h))
      ensures if old(Size(h.chunks, h.top)) >= nb + 16 then FromTop(old(h), h, nb, p, size) && brk == old(brk)
              else FromSystem(old(h), h, nb, p, size, old(brk), brk, limit)
    {
      hide Lives, Inv, NoFast, NoneHolds, Lacking;
      TopKnown(this);
      var enough := h.top in h.chunks && h.chunks[h.top].size >= nb + MINSIZE;
      if !enough {
        enough := Grow(nb);
        if !enough { return 0, 0; }
        TopKnown(this);
      }
      SplitTopKeeps(h, nb);
      SplitTopFrames(h, nb);
      p, size := h.top, nb;
      h := SplitTop(h, nb);
    }

    /** Where a chunk of this size goes in its bin: in front for small bins, which hold one size. In a large
        bin it goes before its equals, but last if none is smaller: the first test is against a header that
        has its low bit set. */
    method Position(size: int, l: seq<int>) returns (k: nat)
      requires size >= MINSIZE && (size < MIN_LARGE ==> forall a :: a in l ==> Size(h.chunks, a) == size)
      requires SortedList(h.chunks, l) && forall a :: a in l ==> a in h.chunks && h.chunks[a].pinuse
      ensures FitsAt(h.chunks, l, k, size)
      ensures size >= MIN_LARGE && l != [] && Size(h.chunks, l[|l| - 1]) >= size ==> k == |l|
      ensures size < MIN_LARGE || l == [] || Size(h.chunks, l[|l| - 1]) < size ==>
                forall j :: 0 <= j < k ==> Size(h.chunks, l[j]) > size
    {
      k := 0;
      if size < MIN_LARGE || l == [] {
        forall j | 0 <= j < |l| ensures Size(h.chunks, l[j]) <= size { assert l[j] in l; }
        return;
      }
      assert l[|l| - 1] in l;
      if size < Header(h.chunks[l[|l| - 1]]) {
        k := |l|;
      } else {
        while size + 1 < Header(h.chunks[l[k]])
          invariant k < |l| && forall j :: 0 <= j < k ==> Size(h.chunks, l[j]) > size
          decreases |l| - k
        {
          k := k + 1;
          assert l[k] in l;
        }
      }
    }

    /** One turn of the loop over the unsorted bin, for a chunk that is not taken: it is put in its bin. */
    method PutInBin(victim: int)
      requires Valid() && Inv(h) && victim in h.chunks && victim in h.place && h.place[victim] == InBin(UNSORTED)
      modifies this`h, this`marked
      ensures Valid() && Inv(h) && Lives(h) == old(Lives(h)) && h.quick == old(h.quick) && h.end == old(h.end)
      ensures Listed(h, InBin(UNSORTED)) == Remove(old(Listed(h, InBin(UNSORTED))), victim)
      ensures victim in old(Listed(h, InBin(UNSORTED)))
      ensures forall i :: i > UNSORTED && i != BinFor(old(h.chunks[victim].size)) ==>
                            Listed(h, InBin(i)) == old(Listed(h, InBin(i)))
      ensures Rearranged(old(h), h)
    {
      hide Inv, Lives, BinFor;
      var size := h.chunks[victim].size;
      BinReady(h, victim);
      var i := BinFor(size);
      var k := Position(size, Listed(h, InBin(i)));
      RebinKeeps(h, victim, k);
      RebinSettles(h, victim, k);
      RebinRearranges(h, victim, k) by { InvPlaces(h); }
      marked := marked + {i};
      h := Rebin(h, victim, k);
    }

    /** The loop over the unsorted bin: an exact fit is taken, and for a small request the last remainder
        if it is alone; everything else goes to its bin. */
    method SortUnsorted(nb: int) returns (p: int, size: int)
      requires Valid() && Inv(h) && Aligned(nb) && nb >= MINSIZE && SmallList(h, nb) == []
      modifies this`h, this`marked
      ensures Valid() && Inv(h) && h.quick == old(h.quick) && h.end == old(h.end)
      ensures p != 0 ==> p !in old(Lives(h)) && Lives(h) == old(Lives(h))[p := size] && nb <= size < nb + MINSIZE
      ensures p != 0 ==> FromBins(old(h), h, nb, p, size)
      ensures p == 0 ==> Lives(h) == old(Lives(h)) && Listed(h, InBin(UNSORTED)) == []
      ensures p == 0 ==> Rearranged(old(h), h) && SmallList(h, nb) == []
    {
      hide Inv, Lives, Aligned, BinFor, Remove, Rearranged, FromBins, SameTop, Carved;
      SelfRearranged(h);
      while Listed(h, InBin(UNSORTED)) != []
        invariant Valid() && Inv(h) && Lives(h) == old(Lives(h)) && h.quick == old(h.quick) && h.end == old(h.end)
        invariant SmallList(h, nb) == [] && Rearranged(old(h), h)
        invariant Listed(h, InBin(UNSORTED)) <= old(Listed(h, InBin(UNSORTED)))
        decreases |Listed(h, InBin(UNSORTED))|
      {
        var l := Listed(h, InBin(UNSORTED));
        var victim := l[|l| - 1];
        InList(h, InBin(UNSORTED), victim);
        var here := h.chunks[victim].size;
        ghost var u := h;
        if nb < MIN_LARGE && |l| == 1 && victim == h.lastRemainder && here > nb + MINSIZE {
          var rest;
          IsLastRemainder(old(h), h, nb, victim);
          size, rest := Carve(victim, nb);
          ghost var v := h;
          RemainderKeeps(h, rest);
          h := h.(lastRemainder := rest);
          assert rest == victim + nb;
          RemainderServes(old(h), u, v, h, nb, victim, size);
          return victim, size;
        }
        if here == nb {
          var rest;
          ExactIsBest(old(h), h, nb, victim);
          size, rest := Carve(victim, nb);
          CarvedServes(old(h), u, h, nb, victim, size);
          return victim, size;
        }
        OtherBin(nb, here);
        LastRemoved(h, InBin(UNSORTED));
        PutInBin(victim);
        RearrangedTwice(old(h), u, h);
      }
      p, size := 0, 0;
    }

    /** The smallest chunk in the bins that is large enough: first in the request's own bin, then in the
        lowest higher bin that has one. */
    method FindFit(nb: int) returns (victim: int)
      requires Valid() && Inv(h) && Aligned(nb) && nb >= MINSIZE && nb < U32 && Listed(h, InBin(UNSORTED)) == []
      requires nb < MIN_LARGE ==> Listed(h, InBin(nb / 8)) == []
      modifies this`marked
      ensures Valid()
      ensures victim != 0 ==>
                victim in h.place && victim in h.chunks && HeapModel.Free(h.place[victim])
                && h.chunks[victim].size >= nb
                && exists i :: i >= BinFor(nb) && LastFit(h, i, victim, nb)
      ensures victim != 0 ==> forall x :: x in h.place && HeapModel.Free(h.place[x]) && Size(h.chunks, x) >= nb ==>
                                            Size(h.chunks, victim) <= Size(h.chunks, x)
      ensures victim == 0 ==> forall x :: x in h.place && HeapModel.Free(h.place[x]) ==> Size(h.chunks, x) < nb
    {
      hide Inv, Aligned, BinFor;
      var idx := nb / 8;
      if nb >= MIN_LARGE {
        idx := LargeBinIndex(nb);
        OwnBinFails(h, nb, idx);
        victim := ScanBin(nb, idx);
        if victim != 0 {
          BestInOwnBin(h, nb, idx, victim);
          return;
        }
      }
      OwnBinFails(h, nb, idx);
      victim := FirstHigher(nb, idx);
    }

    /** From the back of the request's own bin: the first chunk that is large enough is the smallest. */
    method ScanBin(nb: int, idx: int) returns (victim: int)
      requires Valid() && Inv(h) && idx > UNSORTED
      ensures victim != 0 ==> victim in Listed(h, InBin(idx)) && LastFit(h, idx, victim, nb)
      ensures victim != 0 ==>
                forall x :: x in Listed(h, InBin(idx)) && Size(h.chunks, x) >= nb ==>
                              Size(h.chunks, victim) <= Size(h.chunks, x)
      ensures victim == 0 ==> forall x :: x in Listed(h, InBin(idx)) ==> Size(h.chunks, x) < nb
    {
      var l := Listed(h, InBin(idx));
      BinSorted(h, idx);
      hide Inv, Size;
      var k := |l|;
      while k > 0
        invariant 0 <= k <= |l| && forall j :: k <= j < |l| ==> Size(h.chunks, l[j]) < nb
      {
        k := k - 1;
        if Size(h.chunks, l[k]) >= nb {
          InList(h, InBin(idx), l[k]);
          victim := l[k];
          assert LastFit(h, idx, victim, nb);
          return;
        }
      }
      victim := 0;
    }

    /** The search of the higher bins, skipping those that are not marked and clearing stale marks. */
    method FirstHigher(nb: int, idx: int) returns (victim: int)
      requires Valid() && Inv(h) && idx >= UNSORTED + 1 && nb >= MINSIZE && BinFor(nb) == idx
      requires Listed(h, InBin(UNSORTED)) == []
      requires forall x :: x in Listed(h, InBin(idx)) ==> Size(h.chunks, x) < nb
      modifies this`marked
      ensures Valid()
      ensures victim != 0 ==>
                victim in h.place && victim in h.chunks && HeapModel.Free(h.place[victim])
                && h.chunks[victim].size >= nb
                && exists i :: i >= BinFor(nb) && LastFit(h, i, victim, nb)
      ensures victim != 0 ==> forall x :: x in h.place && HeapModel.Free(h.place[x]) && Size(h.chunks, x) >= nb ==>
                                            Size(h.chunks, victim) <= Size(h.chunks, x)
      ensures victim == 0 ==> forall x :: x in h.place && HeapModel.Free(h.place[x]) ==> Size(h.chunks, x) < nb
    {
      hide Inv, BinFor, Size;
      var i := idx + 1;
      while i < NBINS
        invariant idx < i && (idx < NBINS ==> i <= NBINS) && Valid()
        invariant forall j :: idx < j < i ==> Listed(h, InBin(j)) == []
        decreases NBINS - i
      {
        if i in marked {
          var l := Listed(h, InBin(i));
          if l == [] {
            marked := marked - {i};
          } else {
            victim := l[|l| - 1];
            LowestIsBest(h, nb, idx, i);
            LastFits(h, i, nb);
            return;
          }
        }
        i := i + 1;
      }
      NothingFits(h, nb, idx, i);
      victim := 0;
    }

    /** Fastbins and small bins hold one size each: the first, or last, chunk of the right one will do. */
    method TakeExact(nb: int) returns (p: int)
      requires Valid() && Inv(h) && Aligned(nb) && nb >= MINSIZE
      modifies this`h
      ensures Valid() && Inv(h) && h.quick == old(h.quick) && h.end == old(h.end)
      ensures p != 0 ==> p !in old(Lives(h)) && Lives(h) == old(Lives(h))[p := nb]
      ensures p == 0 ==> h == old(h) && FastList(h, nb) == [] && SmallList(h, nb) == []
      ensures p != 0 ==> FromFree(old(h), h, nb, p, nb) && nb < MIN_LARGE
    {
      hide Inv, Lives, Take, Aligned, FromFree;
      if nb <= MAX_FAST {
        var l := Listed(h, Fast(FastIndex(nb)));
        if l != [] {
          FirstOfFast(h, FastIndex(nb));
          FastExact(h, nb);
          TakeKeeps(h, l[0]);
          TakeFrame(h, l[0]);
          TakenFast(h, nb);
          h := Take(h, l[0]);
          return l[0];
        }
      }
      if nb < MIN_LARGE {
        var l := Listed(h, InBin(nb / 8));
        if l != [] {
          var victim := l[|l| - 1];
          SmallExact(h, nb, victim);
          TakeKeeps(h, victim);
          TakeSettles(h, victim);
          TakeFrame(h, victim);
          TakenSmall(h, nb);
          h := Take(h, victim);
          return victim;
        }
      }
      p := 0;
    }

    /** What `malloc` does once it knows that there may be free chunks; `mid` is the heap it searches. */
    method Search(nb: int) returns (p: int, size: int, ghost mid: Heap)
      requires Valid() && Inv(h) && Aligned(nb) && MINSIZE <= nb < U32
      modifies this`h, this`marked
      ensures Valid() && Inv(h) && (nb >= MIN_LARGE ==> !h.quick || p != 0) && (!old(h.quick) ==> !h.quick)
      ensures p != 0 ==> p !in old(Lives(h)) && Lives(h) == old(Lives(h))[p := size] && nb <= size < nb + MINSIZE
      ensures p == 0 ==> Lives(h) == old(Lives(h))
      ensures if nb >= MIN_LARGE && old(h.quick) then Gathered(old(h), mid) else mid == old(h)
      ensures if p != 0 then FromFree(mid, h, nb, p, size) else NothingFree(mid, nb) && Rearranged(mid, h)
    {
      hide Inv, Lives, Aligned, FromFree, Rearranged, NothingFree, Gathered, Carved;
      mid := h;
      p := TakeExact(nb);
      if p != 0 { return p, nb, mid; }
      if nb >= MIN_LARGE && h.quick {
        Consolidate();
        mid := h;
      }
      p, size := SortUnsorted(nb);
      if p != 0 {
        BinsServe(mid, h, nb, p, size);
        return;
      }
      ghost var u := h;
      var victim := FindFit(nb);
      if victim != 0 {
        var remainder;
        FoundServes(mid, u, nb, victim);
        InPlace(h, victim);
        InList(h, h.place[victim], victim);
        size, remainder := Carve(victim, nb);
        ghost var v := h;
        CarvedServes(mid, u, v, nb, victim, size);
        if remainder != 0 && nb < MIN_LARGE {
          RemainderKeeps(h, remainder);
          h := h.(lastRemainder := remainder);
        }
        p := victim;
        BinsServe(mid, h, nb, p, size);
      } else {
        FoundNothing(mid, u, nb);
      }
    }

    /** `malloc`: a chunk that overlaps nothing handed out and holds the request, or null.  The heap it is served
        from is that at the call, unless the fastbins are merged first; from there it is the fastbin of the
        size, the small bin of the size, the best fit, the top, and the system, in this order. */
    method Allocate(bytes: nat) returns (p: int, size: int, ghost mid: Heap)
      requires Valid()
      modifies this
      ensures Valid()
      ensures p != 0 ==> p !in old(Lives(h)) && Lives(h) == old(Lives(h))[p := size]
      ensures p != 0 ==> Request2Size(bytes) <= size < Request2Size(bytes) + MINSIZE
      ensures p == 0 ==> Lives(h) == old(Lives(h))
      ensures bytes >= 0xFFFF_FFE0 ==> p == 0 && h == old(h) && brk == old(brk)
      ensures bytes < 0xFFFF_FFE0 ==>
                && (if Gathers(old(h), Request2Size(bytes)) then Gathered(old(h), mid) else mid == old(h))
                && Served(mid, h, Request2Size(bytes), p, size, old(brk), brk, limit)
      decreases if h.quick then 1 else 0
    {
      hide Inv, Lives, Aligned, FromFree, Rearranged, NothingFree, Gathered, Gathers, Served, FastList, NoFast;
      hide NoneHolds, FromTop, FromSystem, SameTop;
      mid := h;
      if OutOfRange(bytes) { return 0, 0, mid; }
      var nb := Request2Size(bytes);
      RequestReady(bytes);
      UntouchedIs(this);
      if nb >= MIN_LARGE { GatherLarge(h, nb); }
      if h.any {
        p, size, mid := Search(nb);
        if p != 0 {
          if nb < MIN_LARGE { ServedBefore(mid, h, nb, p, size); }
          FreeServes(mid, h, nb, p, size, brk, limit);
          return;
        }
      } else {
        NothingYet(this, nb);
      }
      TopKnown(this);
      ghost var u := h;
      KeepsQuick(mid, u);
      NoneLeft(mid, u, nb);
      if h.quick && !(h.top in h.chunks && h.chunks[h.top].size >= nb + MINSIZE) {
        GatherSmall(mid, u, nb);
        Consolidate();
        RetryReady(nb);
        ghost var gathered := h;
        NoGathering(gathered, nb);
        GatheredLater(old(h), u, gathered);
        p, size, mid := Allocate(nb - 7);
      } else if h.quick {
        p, size := h.top, nb;
        SplitTopKeeps(h, nb);
        SplitTopServes(mid, h, nb, brk, limit);
        NoGathering(old(h), nb);
        h := SplitTop(h, nb);
      } else {
        if nb < MIN_LARGE || !old(h.quick) { NoGathering(old(h), nb); }
        NotQuickEither(this);
        p, size := UseTop(nb);
        TopServes(mid, u, h, nb, p, size, old(brk), brk, limit);
      }
    }
  }

  // ----- bookkeeping of the methods above -----

  lemma TakenFast(h: Heap, nb: int)
    requires Inv(h) && FastList(h, nb) != [] && FastList(h, nb)[0] in h.place
    requires h.place[FastList(h, nb)[0]] == Fast(FastIndex(nb))
    ensures var p := FastList(h, nb)[0]; FromFree(h, Take(h, p), nb, p, nb)
  {
    hide Inv;
  }

  lemma TakenSmall(h: Heap, nb: int)
    requires Inv(h) && FastList(h, nb) == [] && SmallList(h, nb) != []
    requires var l := SmallList(h, nb); l[|l| - 1] in h.place && h.place[l[|l| - 1]] == InBin(nb / 8)
    ensures var l := SmallList(h, nb); var p := l[|l| - 1]; FromFree(h, Take(h, p), nb, p, nb)
  {
    LastRemoved(h, InBin(nb / 8));
    hide Inv, Remove;
    var l := SmallList(h, nb);
    TakeFrames(h, l[|l| - 1]);
  }

  lemma SplitTopFrames(h: Heap, nb: int)
    requires h.top in h.chunks && nb > 0
    ensures var t := SplitTop(h, nb); FromTop(h, t, nb, h.top, nb)
  {}

  lemma BinsServe(m: Heap, t: Heap, nb: int, p: int, size: int)
    requires FastList(m, nb) == [] && SmallList(m, nb) == [] && FromBins(m, t, nb, p, size)
    ensures FromFree(m, t, nb, p, size)
  {
    assert Holds(m, p, nb);
  }

  lemma FoundServes(m: Heap, h: Heap, nb: int, p: int)
    requires Rearranged(m, h) && Holds(h, p, nb) && BestFit(h, p, nb)
    ensures Holds(m, p, nb) && BestFit(m, p, nb) && Size(m.chunks, p) == Size(h.chunks, p)
  {
    RearrangedHolds(m, h, nb);
    hide Rearranged, Holds;
  }

  lemma FoundNothing(m: Heap, h: Heap, nb: int)
    requires Rearranged(m, h) && NoneHolds(h, nb) && FastList(m, nb) == [] && SmallList(m, nb) == []
    ensures NothingFree(m, nb)
  {
    RearrangedHolds(m, h, nb);
    hide Rearranged;
  }

  lemma NothingYet(m: Malloc, nb: int)
    requires m.Valid() && !m.h.any
    ensures NothingFree(m.h, nb) && Rearranged(m.h, m.h)
  {
    if Inv(m.h) { NothingShelved(m.h, nb); }
  }

  lemma NotQuickEither(m: Malloc)
    requires m.Valid() && !m.h.quick
    ensures NoFast(m.h)
  {
    if Inv(m.h) { NotQuick(m.h); }
  }

  lemma NoneLeft(m: Heap, h: Heap, nb: int)
    requires Rearranged(m, h) && NothingFree(m, nb)
    ensures NoneHolds(h, nb) && (NoFast(h) ==> NoFast(m))
  {
    RearrangedHolds(m, h, nb);
  }

  lemma GatherLarge(h: Heap, nb: int)
    requires nb >= MIN_LARGE
    ensures Gathers(h, nb) <==> h.quick
  {}

  lemma NoGathering(h: Heap, nb: int)
    requires !h.quick || (nb < MIN_LARGE && Size(h.chunks, h.top) >= nb + MINSIZE)
    ensures !Gathers(h, nb)
  {}

  /** A small request that a free chunk serves does not merge the fastbins. */
  lemma ServedBefore(h: Heap, t: Heap, nb: int, p: int, size: int)
    requires Inv(h) && Aligned(nb) && MINSIZE <= nb < MIN_LARGE && FromFree(h, t, nb, p, size)
    ensures !Gathers(h, nb)
  {
    if SmallList(h, nb) != [] {
      var l := SmallList(h, nb);
      var a := l[|l| - 1];
      assert a in l;
      SmallExact(h, nb, a);
      assert Holds(h, a, nb);
    }
    hide Inv;
  }

  lemma FreeServes(m: Heap, t: Heap, nb: int, p: int, size: int, brk: int, limit: int)
    requires FromFree(m, t, nb, p, size)
    ensures Served(m, t, nb, p, size, brk, brk, limit)
  {
    hide FromFast, FromSmall, FromBins;
  }

  lemma SplitTopServes(m: Heap, h: Heap, nb: int, brk: int, limit: int)
    requires Rearranged(m, h) && NothingFree(m, nb) && nb > 0
    requires h.top in h.chunks && h.chunks[h.top].size >= nb + MINSIZE
    ensures Served(m, SplitTop(h, nb), nb, h.top, nb, brk, brk, limit)
  {
    RearrangedHolds(m, h, nb);
    SplitTopFrames(h, nb);
    hide Rearranged, SplitTop;
  }

  lemma TopServes(m: Heap, h: Heap, t: Heap, nb: int, p: int, size: int, brk: int, brk': int, limit: int)
    requires Rearranged(m, h) && NothingFree(m, nb)
    requires if Size(h.chunks, h.top) >= nb + 16 then FromTop(h, t, nb, p, size) && brk' == brk
             else FromSystem(h, t, nb, p, size, brk, brk', limit)
    ensures Served(m, t, nb, p, size, brk, brk', limit)
  {
    RearrangedHolds(m, h, nb);
    assert m.chunks == h.chunks && Lacking(m, nb) == Lacking(h, nb);
    hide Rearranged, Lacking, NoFast;
  }

  lemma GatherSmall(m: Heap, h: Heap, nb: int)
    requires Rearranged(m, h) && NothingFree(m, nb) && h.quick && Size(h.chunks, h.top) < nb + MINSIZE
    ensures Gathers(m, nb)
  {
    RearrangedHolds(m, h, nb);
  }

  lemma GatheredLater(m: Heap, h: Heap, t: Heap)
    requires Rearranged(m, h) && Gathered(h, t) && Lives(h) == Lives(m)
    ensures Gathered(m, t)
  {
    hide Inv, Lives, NoFast;
  }

  lemma KeepsQuick(m: Heap, h: Heap)
    requires Rearranged(m, h)
    ensures m.quick == h.quick && Size(m.chunks, m.top) == Size(h.chunks, h.top)
  {}

  lemma SelfRearranged(h: Heap)
    ensures Rearranged(h, h)
  {}

  /** A carved chunk is what the rule gives, in a heap that was only rearranged since. */
  lemma CarvedServes(m: Heap, h: Heap, t: Heap, nb: int, p: int, size: int)
    requires Rearranged(m, h) && Holds(m, p, nb) && (BestFit(m, p, nb) || LastRemainder(m, p, nb))
    requires Carved(h, t, p, nb, size)
    ensures nb < 256 && Size(m.chunks, p) - nb >= 16 ==> FromBins(m, t.(lastRemainder := p + nb), nb, p, size)
    ensures nb >= 256 || Size(m.chunks, p) - nb < 16 ==> FromBins(m, t, nb, p, size)
  {
    hide BestFit, LastRemainder, Holds;
  }

  lemma RemainderServes(m: Heap, h: Heap, v: Heap, t: Heap, nb: int, p: int, size: int)
    requires Rearranged(m, h) && Holds(m, p, nb) && LastRemainder(m, p, nb) && Carved(h, v, p, nb, size)
    requires t == v.(lastRemainder := p + nb)
    ensures FromBins(m, t, nb, p, size)
  {
    CarvedServes(m, h, v, nb, p, size);
    hide FromBins, Carved, Holds, Rearranged;
  }

  /** Alone in the unsorted bin, with no chunk of the size in the small bin. */
  lemma IsLastRemainder(m: Heap, h: Heap, nb: int, p: int)
    requires Inv(h) && Rearranged(m, h) && nb < MIN_LARGE && nb >= MINSIZE && Aligned(nb) && SmallList(h, nb) == []
    requires Listed(h, InBin(UNSORTED)) == [p] && [p] <= Listed(m, InBin(UNSORTED))
    requires p == h.lastRemainder && p in h.chunks && h.chunks[p].size > nb + MINSIZE
    ensures Holds(m, p, nb) && LastRemainder(m, p, nb)
  {
    RearrangedHolds(m, h, nb);
    InList(h, InBin(UNSORTED), p);
    assert Holds(h, p, nb);
    forall x | Holds(h, x, nb) ensures Size(h.chunks, x) != nb {
      NotExact(h, nb, x, p);
    }
    hide Inv, Rearranged;
  }

  lemma NotExact(h: Heap, nb: int, x: int, p: int)
    requires Inv(h) && MINSIZE <= nb < MIN_LARGE && SmallList(h, nb) == [] && Holds(h, x, nb)
    requires Listed(h, InBin(UNSORTED)) == [p] && Size(h.chunks, p) != nb
    ensures Size(h.chunks, x) != nb
  {
    hide Inv;
    InPlace(h, x);
  }

  lemma ExactIsBest(m: Heap, h: Heap, nb: int, p: int)
    requires Inv(h) && Rearranged(m, h) && p in Listed(h, InBin(UNSORTED)) && p in h.chunks && h.chunks[p].size == nb
    ensures Holds(m, p, nb) && BestFit(m, p, nb) && Size(m.chunks, p) == nb
  {
    RearrangedHolds(m, h, nb);
    InList(h, InBin(UNSORTED), p);
    assert Holds(h, p, nb);
    hide Inv, Rearranged;
  }

  /** The list without its last entry. */
  lemma LastRemoved(h: Heap, p: Place)
    requires Inv(h) && Listed(h, p) != []
    ensures var l := Listed(h, p); Remove(l, l[|l| - 1]) == l[..|l| - 1]
  {
    hide Tiled, Tagged, Apart, TopOk, SizesOk, SortedBins, FlagsOk, Remove;
    var l := Listed(h, p);
    assert ListOk(h.place, p, l);
    RemoveSplits(l, |l| - 1);
    assert l[..|l| - 1] + l[|l|..] == l[..|l| - 1];
  }

  /** A small chunk that was handed out is the first of its fastbin; nothing else changes. */
  ghost predicate PushedFast(h: Heap, t: Heap, p: int, size: int) {
    var f := Fast(size / 8 - 2);
    t == h.(place := h.place[p := f], lists := h.lists[f := [p] + Listed(h, f)], any := true, quick := true)
  }

  lemma PushFastIs(h: Heap, p: int)
    requires p in h.chunks
    ensures PushedFast(h, PushFast(h, p), p, h.chunks[p].size)
  {}

  lemma SelfCoarser(h: Heap)
    ensures Coarser(h, h)
  {}

  lemma QuickCoarser(h: Heap, t: Heap)
    requires Coarser(h, t)
    ensures Coarser(h, t.(quick := false))
  {}

  lemma AnyCoarser(h: Heap)
    ensures Coarser(h, h.(any := true))
  {}

  lemma SameQuick(u: Heap, t: Heap)
    requires SameFast(u.(any := true), t)
    ensures t.quick == u.quick
  {}

  lemma NotQuick(h: Heap)
    requires Inv(h) && !h.quick
    ensures NoFast(h)
  {
    hide Tiled, Tagged, Apart, TopOk, SizesOk, SortedBins, ListsOk;
  }

  lemma InRegion(h: Heap, t: Heap, x: int, a: int)
    requires Inv(h) && Around(h, x, a) && Coarser(h, t)
    ensures t.base <= x < t.end
  {
    hide Tagged, Apart, TopOk, SizesOk, SortedBins, ListsOk, FlagsOk, Disjoint;
  }

  lemma AroundIn(h: Heap, x: int) returns (a: int)
    requires Inv(h) && h.base <= x < h.end
    ensures Around(h, x, a)
  {
    Covered(h, x);
    a :| a in h.chunks && a <= x < Next(h.chunks, a);
  }

  lemma SizeIs(h: Heap, a: int)
    requires exists x :: Around(h, x, a)
    ensures a in h.chunks && Size(h.chunks, a) == h.chunks[a].size
  {}

  lemma UntouchedIs(m: Malloc)
    requires m.Valid()
    ensures m.h.any ==> Inv(m.h)
    ensures m.h.quick ==> Inv(m.h) && m.h.any
  {}

  lemma RequestReady(n: nat)
    requires !OutOfRange(n)
    ensures Aligned(Request2Size(n)) && MINSIZE <= Request2Size(n) < U32
  {
    RequestFits(n);
  }

  lemma RetryReady(nb: int)
    requires Aligned(nb) && MINSIZE <= nb < U32
    ensures nb >= 7 && Request2Size(nb - 7) == nb
  {
    RetrySameSize(nb);
  }

  lemma FastExact(h: Heap, nb: int)
    requires Inv(h) && Aligned(nb) && Listed(h, Fast(FastIndex(nb))) != []
    ensures var p := Listed(h, Fast(FastIndex(nb)))[0]; p in h.chunks && h.chunks[p].size == nb && p >= h.base
  {
    var l := Listed(h, Fast(FastIndex(nb)));
    assert l[0] in l;
    InList(h, Fast(FastIndex(nb)), l[0]);
    hide Tiled, Tagged, Apart, TopOk, ListsOk, SortedBins, FlagsOk, BinFor;
  }

  lemma SmallExact(h: Heap, nb: int, a: int)
    requires Inv(h) && Aligned(nb) && MINSIZE <= nb < MIN_LARGE && a in Listed(h, InBin(nb / 8))
    ensures a in h.chunks && a in h.place && h.place[a] == InBin(nb / 8) && h.chunks[a].size == nb && a >= h.base
  {
    hide Inv;
    InList(h, InBin(nb / 8), a);
    InPlace(h, a);
    SmallBinExact(nb, h.chunks[a].size);
  }

  lemma NoLives(h: Heap)
    requires h.place == map[]
    ensures Lives(h) == map[]
  {}

  /** The heap after the first call to the system. */
  function FirstRegion(start: int, total: int): Heap {
    Heap(start, start + total, map[start := Chunk(total, true, 0)], map[start := Top], start, map[], 0, false, false)
  }

  lemma FirstHeap(start: int, total: int)
    requires Aligned(start) && Aligned(total) && total >= MINSIZE
    ensures Inv(FirstRegion(start, total)) && Lives(FirstRegion(start, total)) == map[]
  {}

  lemma PageAligned(size: int)
    requires size % PAGE == 0
    ensures Aligned(size)
  {}

  lemma FirstAligned(was: int, size: int, correction: int)
    requires Aligned(was) && size % PAGE == 0
    requires correction == 0 || correction == (was + size + PAGE - 1) / PAGE * PAGE - (was + size)
    ensures correction >= 0 && Aligned(size + correction)
  {
    PageAligned(size);
    var x := was + size + PAGE - 1;
    var q := x / PAGE;
    assert x == q * PAGE + x % PAGE && 0 <= x % PAGE < PAGE;
    Pages(q);
    AlignedSum(q * PAGE, was);
    hide Aligned;
  }

  lemma Pages(q: int)
    ensures Aligned(q * PAGE)
  {
    assert q * PAGE == 8 * (q * 512);
  }

  lemma TopKnown(m: Malloc)
    requires m.Valid()
    ensures m.h.top in m.h.chunks <==> Inv(m.h)
    ensures Inv(m.h) ==> m.h.top > 0 && m.h.top in m.h.place
    ensures !Inv(m.h) ==> m.Untouched()
  {
    if Inv(m.h) { InvPlaces(m.h); }
  }

  lemma TopSized(h: Heap)
    requires Inv(h)
    ensures h.top in h.chunks && h.chunks[h.top].size >= MINSIZE
  {
    hide Tagged, Apart, ListsOk, SizesOk, SortedBins, FlagsOk, Chained, Disjoint;
  }

  lemma SplitTags(h: Heap, a: int, n: int)
    requires a in h.chunks && n > 0 && h.chunks[a].size - n > 0 && a + n !in h.place
    ensures var t := Split(h, a, n);
            && a + n in t.chunks && a + n in t.place && t.place[a + n] == Live && t.chunks[a + n].pinuse
            && Next(t.chunks, a + n) == Next(h.chunks, a)
            && (forall x :: x in h.chunks ==> x in t.chunks)
            && (forall x :: x in h.place ==> x in t.place && t.place[x] == h.place[x])
            && t.base == h.base && t.end == h.end && t.quick == h.quick && t.lists == h.lists
  {}

  lemma Halved(m: map<int, int>, a: int, s: int, n: int, b: int)
    requires b !in m && b != a
    ensures m[a := s][a := n][b := s - n] - {b} == m[a := n]
  {}

  lemma PlaceOfLive(h: Heap, x: int)
    ensures x !in h.place ==> x !in Lives(h)
  {}

  lemma FirstOfFast(h: Heap, i: int)
    requires Inv(h) && Listed(h, Fast(i)) != []
    ensures var l := Listed(h, Fast(i)); var p := l[0];
                                         && p in h.place && h.place[p] == Fast(i) && p in h.chunks
                                         && (var t := Take(h, p);
                                             && Listed(t, Fast(i)) == l[1..] && p in t.place && t.place[p] == Live
                                             && t.base == h.base && t.end == h.end
                                             && (forall q :: q != Fast(i) ==> Listed(t, q) == Listed(h, q)))
  {
    hide Tiled, Apart, TopOk, SizesOk, SortedBins, FlagsOk;
    var l := Listed(h, Fast(i));
    assert ListOk(h.place, Fast(i), l);
    assert l[0] in l;
  }

  lemma AnyKeeps(h: Heap)
    requires Inv(h)
    ensures Inv(h.(any := true)) && Lives(h.(any := true)) == Lives(h)
  {
    hide Tiled, Tagged, Apart, TopOk, ListsOk, SizesOk, SortedBins;
  }

  lemma NoneFast(h: Heap)
    requires Inv(h) && forall j :: 0 <= j <= MAX_FASTBIN ==> Listed(h, Fast(j)) == []
    ensures Inv(h.(quick := false)) && Lives(h.(quick := false)) == Lives(h)
  {
    forall a | a in h.place ensures !h.place[a].Fast? {
      if h.place[a].Fast? { FastInRange(h, a); }
    }
    hide Tiled, Tagged, Apart, TopOk, SizesOk, SortedBins, ListsOk;
  }

  lemma FastInRange(h: Heap, a: int)
    requires Inv(h) && a in h.place && h.place[a].Fast?
    ensures 0 <= h.place[a].i <= MAX_FASTBIN && Listed(h, h.place[a]) != []
  {
    hide Apart, TopOk, SortedBins, FlagsOk, Chained, Disjoint;
    assert a in h.chunks;
    assert h.chunks[a].size >= MINSIZE;
  }

  lemma NullIsNotLive(m: Malloc)
    requires m.Valid()
    ensures 0 !in Lives(m.h)
    ensures Lives(m.h) != map[] ==> Inv(m.h)
  {}

  lemma LiveIs(h: Heap, p: int)
    requires p in Lives(h)
    ensures p in h.chunks && p in h.place && h.place[p] == Live && Lives(h)[p] == h.chunks[p].size && Lives(h) != map[]
  {}

  lemma PushFastSettles(h: Heap, a: int)
    requires a in h.chunks
    ensures var t := PushFast(h, a);
            t.base == h.base && t.end == h.end && forall i :: Listed(t, InBin(i)) == Listed(h, InBin(i))
  {}

  lemma ShelvableIs(h: Heap, q: int)
    requires Shelvable(h, q)
    ensures q in h.chunks
  {}

  lemma ShelveSettles(h: Heap, q: int)
    requires q in h.chunks
    ensures SameFast(h, Shelve(h, q))
  {}

  lemma JoinTopSettles(h: Heap, q: int)
    requires q in h.chunks
    ensures SameFast(h, JoinTop(h, q))
  {}

  // ----- bins -----

  lemma InList(h: Heap, p: Place, a: int)
    requires Inv(h) && a in Listed(h, p)
    ensures a in h.place && h.place[a] == p && a in h.chunks && h.chunks[a].size >= MINSIZE
    ensures Aligned(h.chunks[a].size) && Shelved(p)
    ensures a >= h.base
  {
    hide Apart, TopOk, SizesOk, SortedBins, FlagsOk, Chained, Disjoint, Aligned;
    assert ListOk(h.place, p, h.lists[p]);
    assert a in h.chunks;
  }

  /** A chunk with a place in a bin is listed there, in the bin for its size unless that is the unsorted one. */
  lemma InPlace(h: Heap, a: int)
    requires Inv(h) && a in h.place && Free(h.place[a])
    ensures a in h.chunks && a in Listed(h, h.place[a])
    ensures (h.place[a].i == UNSORTED || h.place[a] == InBin(BinFor(h.chunks[a].size)))
    ensures h.chunks[a].size >= MINSIZE && Aligned(h.chunks[a].size)
  {
    hide Apart, TopOk, SortedBins, FlagsOk, Chained, Disjoint, Aligned, BinFor;
    assert a in h.chunks;
  }

  lemma BinSorted(h: Heap, i: int)
    requires Inv(h) && i > UNSORTED
    ensures SortedList(h.chunks, Listed(h, InBin(i)))
  {
    hide Tiled, Tagged, Apart, TopOk, ListsOk, SizesOk, FlagsOk, SortedList;
    if InBin(i) !in h.lists { assert SortedList(h.chunks, []) by { EmptySorted(h.chunks); } }
  }

  lemma EmptySorted(chunks: Tags)
    ensures SortedList(chunks, [])
  {}

  /** The word in front of a chunk: its size and, in the lowest bit, whether the chunk before is in use. */
  function Header(c: Chunk): int {
    c.size + if c.pinuse then 1 else 0
  }

  lemma BinReady(h: Heap, a: int)
    requires Inv(h) && a in h.chunks && a in h.place && h.place[a] == InBin(UNSORTED)
    ensures var size := h.chunks[a].size; var l := Listed(h, InBin(BinFor(size)));
                                          && size >= MINSIZE && BinFor(size) > UNSORTED && SortedList(h.chunks, l)
                                          && (size < MIN_LARGE ==> forall x :: x in l ==> Size(h.chunks, x) == size)
                                          && (forall x :: x in l ==> x in h.chunks && h.chunks[x].pinuse)
  {
    hide Inv;
    InPlace(h, a);
    BinnedTags(h, BinFor(h.chunks[a].size));
    var size := h.chunks[a].size;
    BinMonotone(16, size);
    assert Bin(16) == 2;
    BinSorted(h, BinFor(size));
    if size < MIN_LARGE {
      forall x | x in Listed(h, InBin(BinFor(size))) ensures Size(h.chunks, x) == size {
        InList(h, InBin(BinFor(size)), x);
        InPlace(h, x);
        SmallBinExact(size, h.chunks[x].size);
      }
    }
  }

  lemma BinnedTags(h: Heap, i: int)
    requires Inv(h)
    ensures forall x :: x in Listed(h, InBin(i)) ==> x in h.chunks && h.chunks[x].pinuse
  {
    hide Inv;
    forall x | x in Listed(h, InBin(i)) ensures x in h.chunks && h.chunks[x].pinuse {
      InList(h, InBin(i), x);
      FreeAlone(h, x);
    }
  }

  lemma RebinSettles(h: Heap, a: int, k: nat)
    requires a in h.chunks && k <= |Listed(h, InBin(BinFor(h.chunks[a].size)))|
    ensures var t := Rebin(h, a, k);
            && t.base == h.base && t.end == h.end && t.quick == h.quick && t.top == h.top
            && (forall i :: i > UNSORTED && i != BinFor(h.chunks[a].size) ==>
                              Listed(t, InBin(i)) == Listed(h, InBin(i)))
  {
    hide BinFor;
  }

  lemma RebinRearranges(h: Heap, a: int, k: nat)
    requires a in h.chunks && a in h.place && h.place[a] == InBin(UNSORTED)
    requires k <= |Listed(h, InBin(BinFor(h.chunks[a].size)))|
    ensures Rearranged(h, Rebin(h, a, k))
  {
    hide BinFor;
  }

  lemma RemainderKeeps(h: Heap, r: int)
    requires Inv(h)
    ensures Inv(h.(lastRemainder := r)) && Lives(h.(lastRemainder := r)) == Lives(h)
  {
    hide Tiled, Tagged, Apart, TopOk, ListsOk, SizesOk, SortedBins, FlagsOk;
  }

  lemma OtherBin(nb: int, size: int)
    requires Aligned(nb) && Aligned(size) && size >= MINSIZE && nb >= MINSIZE && size != nb
    ensures nb < MIN_LARGE ==> BinFor(size) != nb / 8
  {
    if nb < MIN_LARGE && Bin(size) == Bin(nb) { SmallBinExact(nb, size); }
  }

  /** Nothing in a lower bin is large enough. */
  lemma LowerTooSmall(nb: int, size: int)
    requires nb >= 0 && size >= 0 && BinFor(size) < BinFor(nb)
    ensures size < nb
  {
    HigherBinFits(size, nb);
  }

  lemma LastFits(h: Heap, i: int, nb: int)
    requires var l := Listed(h, InBin(i)); l != [] && l[|l| - 1] in h.chunks && h.chunks[l[|l| - 1]].size >= nb
    ensures var l := Listed(h, InBin(i)); LastFit(h, i, l[|l| - 1], nb)
  {}

  lemma BestInOwnBin(h: Heap, nb: int, idx: int, victim: int)
    requires Inv(h) && nb >= MINSIZE && idx == BinFor(nb) && idx > UNSORTED && Listed(h, InBin(UNSORTED)) == []
    requires victim in Listed(h, InBin(idx)) && Size(h.chunks, victim) >= nb
    requires forall x :: x in Listed(h, InBin(idx)) && Size(h.chunks, x) >= nb ==>
                           Size(h.chunks, victim) <= Size(h.chunks, x)
    ensures victim in h.place && victim in h.chunks && Free(h.place[victim])
    ensures forall x :: x in h.place && Free(h.place[x]) && Size(h.chunks, x) >= nb ==>
                          Size(h.chunks, victim) <= Size(h.chunks, x)
  {
    hide Inv, BinFor;
    InList(h, InBin(idx), victim);
    InPlace(h, victim);
    forall x | x in h.place && Free(h.place[x]) && Size(h.chunks, x) >= nb
      ensures Size(h.chunks, victim) <= Size(h.chunks, x)
    {
      InPlace(h, x);
      var sx := h.chunks[x].size;
      if BinFor(sx) < idx { LowerTooSmall(nb, sx); }
      if BinFor(sx) > idx { LowerTooSmall(sx, h.chunks[victim].size); }
    }
  }

  lemma OwnBinFails(h: Heap, nb: int, idx: int)
    requires Inv(h) && nb >= MINSIZE && Aligned(nb)
    requires idx == if nb < MIN_LARGE then nb / 8 else LargeBin(nb)
    ensures idx == BinFor(nb) && idx > UNSORTED
  {
    if nb >= MIN_LARGE { LargeBinRange(nb); }
  }

  /** The back of the lowest non-empty higher bin is the best fit. */
  lemma LowestIsBest(h: Heap, nb: int, idx: int, i: int)
    requires Inv(h) && nb >= MINSIZE && idx == BinFor(nb) && idx > UNSORTED && Listed(h, InBin(UNSORTED)) == []
    requires i > idx
    requires forall x :: x in Listed(h, InBin(idx)) ==> Size(h.chunks, x) < nb
    requires forall j :: idx < j < i ==> Listed(h, InBin(j)) == []
    requires Listed(h, InBin(i)) != []
    ensures var l := Listed(h, InBin(i)); var v := l[|l| - 1];
                                          && v in h.place && v in h.chunks && Free(h.place[v])
                                          && h.chunks[v].size >= nb && v >= h.base
                                          && forall x :: x in h.place && Free(h.place[x]) && Size(h.chunks, x) >= nb ==>
                                                           Size(h.chunks, v) <= Size(h.chunks, x)
  {
    hide Inv, BinFor;
    var l := Listed(h, InBin(i));
    var v := l[|l| - 1];
    assert v in l;
    InList(h, InBin(i), v);
    InPlace(h, v);
    LowerTooSmall(h.chunks[v].size, nb);
    BinSorted(h, i);
    forall x | x in h.place && Free(h.place[x]) && Size(h.chunks, x) >= nb
      ensures Size(h.chunks, v) <= Size(h.chunks, x)
    {
      InPlace(h, x);
      var j, sx := BinFor(h.chunks[x].size), h.chunks[x].size;
      if j < idx { LowerTooSmall(nb, sx); }
      if j > i { LowerTooSmall(sx, h.chunks[v].size); }
      if j == i {
        var k :| 0 <= k < |l| && l[k] == x;
        assert k == |l| - 1 || Size(h.chunks, l[k]) >= Size(h.chunks, l[|l| - 1]);
      }
    }
  }

  lemma NothingFits(h: Heap, nb: int, idx: int, i: int)
    requires Inv(h) && nb >= MINSIZE && idx == BinFor(nb) && idx > UNSORTED && Listed(h, InBin(UNSORTED)) == []
    requires i >= NBINS
    requires forall x :: x in Listed(h, InBin(idx)) ==> Size(h.chunks, x) < nb
    requires forall j :: idx < j < i ==> Listed(h, InBin(j)) == []
    ensures forall x :: x in h.place && Free(h.place[x]) ==> Size(h.chunks, x) < nb
  {
    hide Inv;
    forall x | x in h.place && Free(h.place[x]) ensures Size(h.chunks, x) < nb {
      InPlace(h, x);
      var sx := h.chunks[x].size;
      if sx >= MIN_LARGE { LargeBinRange(sx); }
      if BinFor(sx) < idx { LowerTooSmall(nb, sx); }
    }
  }
}
