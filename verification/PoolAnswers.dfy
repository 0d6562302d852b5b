/** What the calls of the pool allocator answer: when they fail, where a block lies and how large
    it is, and which chunk it takes. */
module PoolAnswers {
  import opened PoolAllocator

  /** n is size rounded up to a multiple of eight. */
  ghost predicate RoundedUp(size: nat, n: nat) { size <= n < size + 8 && n % 8 == 0 }

  lemma AlignRoundsUp(size: nat, n: nat)
    ensures RoundedUp(size, n) <==> n == Align(size)
  {
  }

  /** Where the next block of a chunk begins: behind its header of 24 bytes and what is used. */
  function Next(c: Chunk): nat { c.base + 24 + c.size }

  /** The head chunk can hand out n more bytes. */
  ghost predicate HasRoom(p: Pool, n: nat) {
    p.chunks != [] && p.chunks[0].size + n <= p.chunks[0].capacity
  }

  /** The head chunk hands out n more bytes, and nothing else changes. */
  ghost predicate HandsOut(p: Pool, q: Pool, n: nat) {
    && p.chunks != [] && |q.chunks| == |p.chunks| && q.chunkCapacity == p.chunkCapacity && q.userBuffer == p.userBuffer
    && q.chunks[0].base == p.chunks[0].base && q.chunks[0].capacity == p.chunks[0].capacity
    && q.chunks[0].size == p.chunks[0].size + n
    && forall i :: 1 <= i < |p.chunks| ==> q.chunks[i] == p.chunks[i]
  }

  /** A granted chunk comes first, no smaller than configured and large enough, and n bytes of it
      are handed out. */
  ghost predicate TakesChunk(p: Pool, q: Pool, n: nat, grant: nat) {
    && |q.chunks| == |p.chunks| + 1 && q.chunkCapacity == p.chunkCapacity && q.userBuffer == p.userBuffer
    && q.chunks[0].base == grant && q.chunks[0].size == n
    && q.chunks[0].capacity >= n && q.chunks[0].capacity >= p.chunkCapacity
    && (q.chunks[0].capacity == n || q.chunks[0].capacity == p.chunkCapacity)
    && forall i :: 0 <= i < |p.chunks| ==> q.chunks[i + 1] == p.chunks[i]
  }

  /** A block of n bytes at ptr, behind all others in the head chunk, or alone in a new one. */
  ghost predicate NewBlock(h: Heap, r: Heap, ptr: nat, n: nat, grant: nat) {
    && r.blocks == h.blocks + [Block(ptr, n)]
    && if HasRoom(h.pool, n) then ptr == Next(h.pool.chunks[0]) && HandsOut(h.pool, r.pool, n)
       else grant != 0 && ptr == grant + 24 && TakesChunk(h.pool, r.pool, n, grant)
  }

  /** Malloc fails for no bytes, or when a chunk is needed and refused; then nothing changes. */
  lemma MallocAnswers(h: Heap, size: nat, n: nat, grant: nat)
    requires RoundedUp(size, n)
    ensures var ptr, r := Malloc(h.pool, size, grant).1, DoMalloc(h, size, grant);
            && (ptr == 0 <==> size == 0 || (grant == 0 && !HasRoom(h.pool, n)))
            && r.memory == h.memory
            && if ptr == 0 then r == h else NewBlock(h, r, ptr, n, grant)
  {
    AlignRoundsUp(size, n);
    hide Align;
  }

  /** The last block of the head chunk, or the end of one, that can grow by n bytes. */
  ghost predicate GrowsInPlace(p: Pool, ptr: nat, o: nat, n: nat) {
    p.chunks != [] && ptr + o == Next(p.chunks[0]) && HasRoom(p, n)
  }

  /** The block at ptr is n bytes longer, and no other block changes. */
  ghost predicate Lengthened(b: seq<Block>, c: seq<Block>, ptr: nat, n: nat) {
    && |c| == |b|
    && var k := Find(b, ptr);
    && k < |b| && c[k] == Block(ptr, b[k].len + n) && forall i :: 0 <= i < |b| && i != k ==> c[i] == b[i]
  }

  /** Realloc never shrinks, grows in place when it can, and otherwise hands out a new block, or
      fails and leaves the old one as it was. */
  lemma ReallocAnswers(h: Heap, ptr: nat, originalSize: nat, newSize: nat, o: nat, n: nat, grant: nat)
    requires RoundedUp(originalSize, o) && RoundedUp(newSize, n) && ptr != 0 && newSize != 0 && Known(h, ptr)
    ensures var a, r := ReallocPointer(h.pool, ptr, originalSize, newSize, grant),
                        DoRealloc(h, ptr, originalSize, newSize, grant);
            if n <= o then a == ptr && r == h
            else if GrowsInPlace(h.pool, ptr, o, n - o) then
              && a == ptr && r.memory == h.memory && HandsOut(h.pool, r.pool, n - o)
              && Lengthened(h.blocks, r.blocks, ptr, n - o)
            else
              && (a == 0 <==> grant == 0 && !HasRoom(h.pool, n))
              && if a == 0 then r == h else NewBlock(h, r, a, n, grant)
  {
    AlignRoundsUp(originalSize, o);
    AlignRoundsUp(newSize, n);
    AlignRoundsUp(n, n);
    hide Align, Malloc, DoMalloc, RoundedUp, TakesChunk, Copied;
    if n > o && !GrowsInPlace(h.pool, ptr, o, n - o) {
      MallocAnswers(h, n, n, grant);
    }
  }

  /** A null pointer asks for a new block, and no bytes for nothing at all. */
  lemma ReallocOfNothing(h: Heap, ptr: nat, originalSize: nat, newSize: nat, n: nat, grant: nat)
    requires RoundedUp(newSize, n) && (ptr == 0 || (newSize == 0 && Known(h, ptr)))
    ensures var a, r := ReallocPointer(h.pool, ptr, originalSize, newSize, grant),
                        DoRealloc(h, ptr, originalSize, newSize, grant);
            if ptr == 0 && newSize != 0 && (grant != 0 || HasRoom(h.pool, n)) then NewBlock(h, r, a, n, grant)
            else a == 0 && r == h
  {
    if ptr == 0 {
      MallocAnswers(h, newSize, n, grant);
    }
    hide Align, Malloc, DoMalloc, RoundedUp, NewBlock;
  }
}
