/** The memory allocator's heap: chunks with boundary tags, and the lists that hold the free ones. */
module HeapModel {
  import opened Lists
  import opened BinIndex

  const MAX_FAST: int := 72
  const UNSORTED: nat := 1

  /** `pinuse` is the bit that says the chunk before is in use; only when it is clear does `prevSize` hold
      the size of that chunk. */
  datatype Chunk = Chunk(size: int, pinuse: bool, prevSize: int)

  /** Where a chunk is: handed out, at the top, in a fastbin, or in a bin (1 is the unsorted one). */
  datatype Place = Live | Top | Fast(i: int) | InBin(i: int)

  /** `chunks` maps addresses to headers. Lists run from their front (`fd`) to their back. `place` records
      for each chunk which list it is in; the code has no such record. */
  datatype Heap = Heap(
    base: int,
    end: int,
    chunks: map<int, Chunk>,
    place: map<int, Place>,
    top: int,
    lists: map<Place, seq<int>>,
    lastRemainder: int,
    any: bool,
    quick: bool)

  type Tags = map<int, Chunk>

  function Next(chunks: Tags, a: int): int {
    if a in chunks then a + chunks[a].size else a
  }

  function Size(chunks: Tags, a: int): int {
    if a in chunks then chunks[a].size else 0
  }

  function BinFor(size: int): int {
    if size < 0 then 0 else Bin(size)
  }

  function Listed(h: Heap, p: Place): seq<int> {
    if p in h.lists then h.lists[p] else []
  }

  predicate Free(p: Place) { p.InBin? }

  predicate Shelved(p: Place) { p.InBin? || p.Fast? }

  // ----- the invariant -----

  predicate Aligned(x: int) { x % 8 == 0 }

  /** Chunks are aligned and large enough. */
  ghost predicate Sane(chunks: Tags, base: int) {
    forall a :: a in chunks ==> base <= a && Aligned(a) && Aligned(chunks[a].size) && chunks[a].size >= MINSIZE
  }

  /** Each ends where the next one begins, or at the end of the region. */
  ghost predicate Chained(chunks: Tags, end: int) {
    forall a {:trigger Next(chunks, a)} :: a in chunks ==>
                                             Next(chunks, a) <= end
                                             && (Next(chunks, a) == end || Next(chunks, a) in chunks)
  }

  ghost predicate Disjoint(chunks: Tags) {
    forall a, b {:trigger Next(chunks, a), b in chunks} :: a in chunks && b in chunks && a < b ==> Next(chunks, a) <= b
  }

  ghost predicate Tiled(chunks: Tags, base: int, end: int) {
    base in chunks && Sane(chunks, base) && Chained(chunks, end) && Disjoint(chunks)
  }

  /** The boundary tags tell whether the chunk before is in a bin, and how long it is then. */
  ghost predicate Tagged(chunks: Tags, place: map<int, Place>, base: int) {
    && place.Keys == chunks.Keys
    && (base in chunks ==> chunks[base].pinuse)
    && (forall a {:trigger Next(chunks, a)} :: a in chunks && Next(chunks, a) in chunks ==>
                                                 var n := chunks[Next(chunks, a)];
                                                 (n.pinuse <==> !Free(place[a]))
                                                 && (Free(place[a]) ==> n.prevSize == chunks[a].size))
  }

  /** No two neighbours are in bins, and the top has a neighbour in use. */
  ghost predicate Apart(chunks: Tags, place: map<int, Place>) {
    forall a {:trigger Next(chunks, a)} :: a in chunks && a in place && Free(place[a]) ==>
                                             Next(chunks, a) in chunks && Next(chunks, a) in place
                                             && !Free(place[Next(chunks, a)]) && place[Next(chunks, a)] != Top
  }

  ghost predicate TopOk(chunks: Tags, place: map<int, Place>, top: int, end: int) {
    && top in chunks && Next(chunks, top) == end
    && (forall a :: a in place ==> (place[a] == Top <==> a == top))
  }

  /** Each free chunk is in the list its place says, once. */
  ghost predicate ListOk(place: map<int, Place>, p: Place, l: seq<int>) {
    NoDup(l) && forall a :: a in l ==> a in place && place[a] == p && Shelved(p)
  }

  ghost predicate ListsOk(place: map<int, Place>, lists: map<Place, seq<int>>) {
    && (forall p :: p in lists ==> ListOk(place, p, lists[p]))
    && (forall a :: a in place && Shelved(place[a]) ==> place[a] in lists && a in lists[place[a]])
  }

  /** ... and that list is one for its size. */
  ghost predicate SizesOk(chunks: Tags, place: map<int, Place>) {
    forall a :: a in chunks && a in place ==>
                  match place[a]
                  case Fast(i) => chunks[a].size <= MAX_FAST && i == chunks[a].size / 8 - 2
                  case InBin(i) => i == UNSORTED || (i > UNSORTED && i == BinFor(chunks[a].size))
                  case _ => true
  }

  ghost predicate SortedList(chunks: Tags, l: seq<int>) {
    forall j, k :: 0 <= j < k < |l| ==> Size(chunks, l[j]) >= Size(chunks, l[k])
  }

  /** Bins are sorted, smallest at the back. */
  ghost predicate SortedBins(chunks: Tags, lists: map<Place, seq<int>>) {
    forall i :: i > UNSORTED && InBin(i) in lists ==> SortedList(chunks, lists[InBin(i)])
  }

  ghost predicate FlagsOk(place: map<int, Place>, any: bool, quick: bool) {
    && (!any ==> forall a :: a in place ==> !Shelved(place[a]))
    && (!quick ==> forall a :: a in place ==> !place[a].Fast?)
    && (quick ==> any)
  }

  ghost predicate Inv(h: Heap) {
    && Tiled(h.chunks, h.base, h.end)
    && Tagged(h.chunks, h.place, h.base)
    && Apart(h.chunks, h.place)
    && TopOk(h.chunks, h.place, h.top, h.end)
    && ListsOk(h.place, h.lists)
    && SizesOk(h.chunks, h.place)
    && SortedBins(h.chunks, h.lists)
    && FlagsOk(h.place, h.any, h.quick)
  }

  /** The chunks handed out, with their sizes. */
  ghost function Lives(h: Heap): map<int, int> {
    map a | a in h.place && h.place[a] == Live && a in h.chunks :: h.chunks[a].size
  }

  // ----- what the invariant means -----

  /** Every byte of the region is in exactly one chunk. */
  lemma Covered(h: Heap, x: int)
    requires Inv(h) && h.base <= x < h.end
    ensures exists a :: a in h.chunks && a <= x < Next(h.chunks, a)
    ensures forall a, b ::
              a in h.chunks && b in h.chunks && a <= x < Next(h.chunks, a) && b <= x < Next(h.chunks, b) ==>
                a == b
  {
    CoveredFrom(h.chunks, h.base, h.end, h.base, x);
  }

  lemma {:induction false} CoveredFrom(chunks: Tags, base: int, end: int, a: int, x: int)
    requires Tiled(chunks, base, end) && a in chunks && a <= x < end
    ensures exists b :: b in chunks && b <= x < Next(chunks, b)
    decreases end - a
  {
    var n := Next(chunks, a);
    if x >= n {
      CoveredFrom(chunks, base, end, n, x);
    }
  }

  /** Chunks handed out do not overlap. */
  lemma LivesDisjoint(h: Heap, a: int, b: int)
    requires Inv(h) && a in Lives(h) && b in Lives(h) && a != b
    ensures a + Lives(h)[a] <= b || b + Lives(h)[b] <= a
  {
    hide Sane, Tagged, Apart, TopOk, ListsOk, SizesOk, SortedBins, FlagsOk;
    assert Next(h.chunks, a) == a + Lives(h)[a] && Next(h.chunks, b) == b + Lives(h)[b];
  }
}
