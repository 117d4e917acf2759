/** The bump allocator (arena.c), with the wrap-around of size_t. */
module Arenas {
  import opened Options

  const WORD: nat := 0x1_0000_0000_0000_0000
  const LIMIT: nat := 0x8000_0000_0000_0000   // no object is larger than half the address space

  function RoundUp(size: nat): nat {
    (size + 7) / 8 * 8
  }

  /** The size as the code rounds it, in 64-bit arithmetic. */
  function Aligned(size: nat): nat {
    (size + 7) % WORD / 8 * 8
  }

  /** A block handed out: where it starts in the arena's buffer, and how much was asked for. */
  datatype Block = Block(start: nat, size: nat)

  /** The block ends inside the buffer. */
  predicate InBounds(b: Block, capacity: nat) {
    b.start + b.size <= capacity
  }

  /** Later blocks start after the earlier ones end, and all are 8-aligned. */
  predicate Laid(blocks: seq<Block>, used: nat) {
    && (forall i :: 0 <= i < |blocks| ==> blocks[i].start % 8 == 0 && blocks[i].start + blocks[i].size <= used)
    && (forall i, j :: 0 <= i < j < |blocks| ==> blocks[i].start + blocks[i].size <= blocks[j].start)
  }

  class Arena {
    const size: nat
    var used: nat
    ghost var blocks: seq<Block>

    ghost predicate Valid()
      reads this
    {
      used <= size < LIMIT && used % 8 == 0 && Laid(blocks, used)
    }

    constructor (size: nat)
      requires size < LIMIT
      ensures Valid() && this.size == size && used == 0 && blocks == []
    {
      this.size := size;
      used := 0;
      blocks := [];
    }

    /** arenaAlloc. For every request that fits the address space: it fails exactly when the
        rounded size does not fit what is left, and otherwise the block is aligned, inside
        the buffer and apart from all earlier ones. */
    method Alloc(n: nat) returns (ptr: Option<nat>)
      requires Valid() && n <= LIMIT
      modifies this
      ensures Valid()
      ensures ptr.None? <==> old(used) + RoundUp(n) > size
      ensures ptr.None? ==> used == old(used) && blocks == old(blocks)
      ensures ptr.Some? ==>
        && ptr.value == old(used) && used == old(used) + RoundUp(n)
        && blocks == old(blocks) + [Block(ptr.value, n)]
    {
      var aligned := Aligned(n);
      RoundsUp(n);
      if (used + aligned) % WORD > size {
        return None;
      }
      ptr := Some(used);
      blocks := blocks + [Block(used, n)];
      used := used + aligned;
    }
  }

  lemma RoundsUp(n: nat)
    requires n <= LIMIT
    ensures Aligned(n) == RoundUp(n) && n <= RoundUp(n) < n + 8 && RoundUp(n) % 8 == 0
    ensures RoundUp(n) <= LIMIT
  {
  }

  /** Without the bound on the request the arithmetic can wrap around. A request is then
      granted although nothing of its size is there; a granted block is in bounds exactly
      when the sum did not wrap. */
  lemma GrantedInBoundsExactly(used: nat, n: nat, capacity: nat)
    requires used <= capacity < LIMIT && n < WORD
    requires (used + Aligned(n)) % WORD <= capacity
    ensures InBounds(Block(used, n), capacity) <==> used + RoundUp(n) < WORD
  {
  }

  /** Such a request: all but eight bytes of the address space, from an arena of 1 KiB. */
  lemma RequestWraps()
    ensures (8 + Aligned(WORD - 8)) % WORD <= 1024 && !InBounds(Block(8, WORD - 8), 1024)
  {
  }
}
