/** Circular buffers with two indices, one of which is -1 when the buffer is empty or full. */
module Rings {
  import opened Lists

  const LOCK: int := -1
  const U32: int := 0x1_0000_0000

  function Wrap(i: int, n: int): int
    requires n >= 1
  {
    if i >= n then i - n else i
  }

  lemma NextIndex(i: int, n: int)
    requires 0 <= i < n
    ensures (i + 1) % n == Wrap(i + 1, n) && 0 <= Wrap(i + 1, n) < n
  {
    if i + 1 == n {
      assert (i + 1) % n == 0;
    }
  }

  /** A count in 32 bits. */
  function Word(x: int): int { x % U32 }

  lemma WordIs(x: int)
    ensures 0 <= x < U32 ==> Word(x) == x
    ensures x == -1 ==> Word(x) == U32 - 1
  {}

  class Ring {
    const buffer: array<int>
    var consume: int
    var produce: int
    /** A 32-bit word. */
    var count: int
    /** What the buffer holds, oldest first. */
    ghost var contents: seq<int>

    /** A queue that has just been created has both indices at 0 and is empty; later an empty buffer has
        `consume` locked and a full one `produce`. */
    ghost predicate Valid()
      reads this, buffer
    {
      var n := buffer.Length;
      && 1 <= n < U32 && count <= n && count == |contents|
      && (count == 0 ==> (consume == LOCK && 0 <= produce < n) || (consume == 0 && produce == 0))
      && (0 < count ==> 0 <= consume < n)
      && (0 < count < n ==> produce == Wrap(consume + count, n))
      && (count == n ==> produce == LOCK)
      && (forall i :: 0 <= i < count ==> buffer[Wrap(consume + i, n)] == contents[i])
    }

    /** A new message queue of the given size. */
    constructor Empty(size: nat)
      requires 1 <= size < U32
      ensures Valid() && contents == [] && buffer.Length == size && fresh(buffer)
    {
      buffer := new int[size];
      consume, produce, count := 0, 0, 0;
      contents := [];
    }

    /** A new identifier table: all identifiers from `low` on are there to be consumed. */
    constructor Filled(size: nat, low: int)
      requires 1 <= size < U32
      ensures Valid() && buffer.Length == size && fresh(buffer)
      ensures |contents| == size && forall i :: 0 <= i < size ==> contents[i] == low + i
    {
      buffer := new int[size](i => low + i);
      consume, produce, count := 0, LOCK, size;
      contents := seq(size, i => low + i);
    }

    /** `message_queue_register`, `process_table_unregister`: false is the failed assertion. */
    method Put(x: int) returns (ok: bool)
      requires Valid()
      modifies this, buffer
      ensures Valid() && (ok <==> |old(contents)| < buffer.Length)
      ensures contents == if ok then old(contents) + [x] else old(contents)
    {
      hide Word;
      if produce == LOCK {
        return false;
      }
      var n := buffer.Length;
      NextIndex(produce, n);
      buffer[produce] := x;
      if consume == LOCK {
        consume := produce;
      }
      produce := (produce + 1) % n;
      if produce == consume {
        produce := LOCK;
      }
      WordIs(count + 1);
      count := Word(count + 1);
      contents := contents + [x];
      ok := true;
    }

    /** `message_queue_unregister`, `process_table_register`: on an empty buffer the assertion fails, unless the
        queue has never been used; then a slot that was never filled is given and the count wraps. */
    method Take() returns (ok: bool, x: int)
      requires Valid()
      modifies this
      ensures old(contents) != [] ==> ok && Valid() && contents == old(contents[1..]) && x == old(contents[0])
                                      && (contents == [] ==> consume == LOCK)
      ensures old(contents) == [] ==> ok == old(consume == 0)
      ensures old(contents) == [] && ok ==> count == U32 - 1 && contents == [] && !Valid()
      ensures !ok ==> Valid() && contents == old(contents) && consume == LOCK
    {
      hide Word;
      if consume == LOCK {
        return false, 0;
      }
      var n := buffer.Length;
      NextIndex(consume, n);
      x := buffer[consume];
      if produce == LOCK {
        produce := consume;
      }
      consume := (consume + 1) % n;
      if consume == produce {
        consume := LOCK;
      }
      ok := true;
      WordIs(count - 1);
      count := Word(count - 1);
      if contents != [] {
        assert contents[0] == x;
        contents := contents[1..];
      }
    }
  }

  /** An identifier table over such a ring: what is handed out is never handed out twice. */
  class Identifiers {
    const ring: Ring
    const low: int
    const size: nat
    ghost var used: set<int>

    ghost predicate Valid()
      reads this, ring, ring.buffer
    {
      && ring.Valid() && ring.buffer.Length == size && NoDup(ring.contents)
      && (forall x :: x in ring.contents <==> low <= x < low + size && x !in used)
      && (forall x :: x in used ==> low <= x < low + size)
      && (ring.contents == [] ==> ring.consume == LOCK)
    }

    constructor (low: int, size: nat)
      requires 1 <= size < U32
      ensures Valid() && used == {} && fresh(ring) && fresh(ring.buffer) && this.low == low && this.size == size
    {
      ring := new Ring.Filled(size, low);
      this.low := low;
      this.size := size;
      used := {};
      new;
      forall x | low <= x < low + size ensures x in ring.contents {
        assert ring.contents[x - low] == x;
      }
    }

    /** The assertion fails exactly when every identifier is in use. */
    method Register() returns (ok: bool, id: int)
      requires Valid()
      modifies this, ring, ring.buffer
      ensures Valid() && (ok <==> exists x :: low <= x < low + size && x !in old(used))
      ensures if ok then id !in old(used) && low <= id < low + size && used == old(used) + {id} else used == old(used)
      ensures ok ==> old(ring.contents) != [] && id == old(ring.contents)[0] && ring.contents == old(ring.contents)[1..]
    {
      ghost var all := ring.contents;
      ok, id := ring.Take();
      if all != [] {
        FirstOf(all, id, ring.contents);
        used := used + {id};
      } else {
        assert forall x :: low <= x < low + size && x !in used ==> x in all;
      }
    }

    /** An identifier in use goes back to the end of the line; the ring cannot be full then. */
    method Unregister(id: int) returns (ok: bool)
      requires Valid() && id in used
      modifies this, ring, ring.buffer
      ensures ok && Valid() && used == old(used) - {id} && ring.contents == old(ring.contents) + [id]
    {
      AppendNoDup(ring.contents, id);
      DistinctInRange(ring.contents + [id], low, low + size);
      ok := ring.Put(id);
      used := used - {id};
    }

    /** The path of `start` and `pcreate` on which the allocation that follows the registration fails:
        the identifiers in use are as before. */
    method FailedAllocation() returns (ok: bool)
      requires Valid()
      modifies this, ring, ring.buffer
      ensures Valid() && used == old(used)
    {
      var id;
      ok, id := Register();
      if ok {
        ok := Unregister(id);
      }
    }
  }

  lemma FirstOf(all: seq<int>, x: int, rest: seq<int>)
    requires NoDup(all) && all != [] && x == all[0] && rest == all[1..]
    ensures NoDup(rest) && x !in rest && x in all && forall y :: y in all <==> y == x || y in rest
  {
    assert all == [x] + rest;
  }
}
