/** Any sequence of allocator calls. */
module PoolRuns {
  import opened PoolAllocator

  // ---------------------------------------------------------------- runs

  /** Every call is made with what the allocator may rely on. */
  ghost predicate Legal(h: Heap, ops: seq<Op>)
    decreases |ops|, 0
  {
    ops == [] || (Legal(h, ops[..|ops| - 1]) && Allowed(After(h, ops[..|ops| - 1]), ops[|ops| - 1]))
  }

  ghost function After(h: Heap, ops: seq<Op>): Heap
    requires Legal(h, ops)
    decreases |ops|, 1
  {
    if ops == [] then h else Step(After(h, ops[..|ops| - 1]), ops[|ops| - 1])
  }

  /** A supplied buffer is never given up: it stays the last chunk. */
  predicate KeepsBuffer(p: Pool) {
    p.userBuffer != 0 ==> p.chunks != [] && p.chunks[|p.chunks| - 1].base == p.userBuffer
  }

  /** A pool without a buffer, or with one larger than a header. */
  ghost predicate Starts(h: Heap) {
    && h.blocks == []
    && (if h.pool.userBuffer == 0 then h.pool.chunks == []
        else |h.pool.chunks| == 1 && var c := h.pool.chunks[0];
             c.base == h.pool.userBuffer && c.size == 0 && c.End() <= |h.memory|)
  }

  lemma {:induction false} SizesWithin(c: seq<Chunk>, limit: nat)
    requires ChunksSound(c, limit)
    ensures Sizes(c) <= Capacities(c)
  {
    if c != [] {
      SizesWithin(c[1..], limit);
    }
  }

  lemma MallocKeepsBuffer(p: Pool, size: nat, grant: nat)
    requires KeepsBuffer(p)
    ensures KeepsBuffer(Malloc(p, size, grant).0)
  {
    hide Align;
  }

  lemma {:induction false} ClearKeepsBuffer(p: Pool)
    requires KeepsBuffer(p)
    ensures KeepsBuffer(Cleared(p)) && Cleared(p).userBuffer == p.userBuffer
    decreases |p.chunks|
  {
    if p.chunks != [] && p.chunks[0].base != p.userBuffer {
      ClearKeepsBuffer(p.(chunks := p.chunks[1..]));
    }
  }

  lemma BufferIsLast(h: Heap)
    requires Sound(h) && KeepsBuffer(h.pool)
    ensures forall i ::
              0 <= i < |h.pool.chunks| && h.pool.chunks[i].base == h.pool.userBuffer ==> i == |h.pool.chunks| - 1
  {
    var c := h.pool.chunks;
    forall i | 0 <= i < |c| - 1
      ensures c[i].base != h.pool.userBuffer
    {
      assert Apart(c[i], c[|c| - 1]);
    }
  }

  lemma StepKeepsBuffer(h: Heap, op: Op)
    requires KeepsBuffer(h.pool) && (op.ReallocOp? && op.ptr != 0 ==> Known(h, op.ptr))
    ensures KeepsBuffer(Step(h, op).pool)
  {
    match op
    case MallocOp(size, grant) => MallocKeepsBuffer(h.pool, size, grant);
    case ClearOp => ClearKeepsBuffer(h.pool);
    case ReallocOp(ptr, originalSize, newSize, grant) =>
      hide Align, Find, Malloc, Copied;
      MallocKeepsBuffer(h.pool, newSize, grant);
      MallocKeepsBuffer(h.pool, Align(newSize), grant);
  }

  lemma StepSound(h: Heap, op: Op)
    requires Sound(h) && KeepsBuffer(h.pool) && Allowed(h, op)
    ensures Sound(Step(h, op)) && KeepsBuffer(Step(h, op).pool)
  {
    StepKeepsBuffer(h, op);
    match op
    case MallocOp(size, grant) => MallocSound(h, size, grant);
    case ReallocOp(_, _, _, _) => ReallocSound(h, op);
    case ClearOp =>
      BufferIsLast(h);
      ClearSound(h.pool, h.memory);
  }

  /** After any run from a new pool: blocks handed out since the last Clear are disjoint, inside
      their chunks, and Size(), the sum of their aligned lengths, is at most Capacity(). */
  lemma {:induction false} RunSound(h: Heap, ops: seq<Op>)
    requires Starts(h) && Legal(h, ops)
    ensures var r := After(h, ops);
            && Sound(r) && KeepsBuffer(r.pool)
            && Sizes(r.pool.chunks) == Lens(r.blocks) <= Capacities(r.pool.chunks)
  {
    if ops != [] {
      RunSound(h, ops[..|ops| - 1]);
      hide Sound, Step, Allowed;
      StepSound(After(h, ops[..|ops| - 1]), ops[|ops| - 1]);
    } else {
      StartSound(h);
    }
    SizesOfSound(After(h, ops));
  }

  lemma StartSound(h: Heap)
    requires Starts(h)
    ensures Sound(h) && KeepsBuffer(h.pool)
  {
    assert h.pool.chunks != [] ==> h.pool.chunks[1..] == [];
  }

  lemma SizesOfSound(h: Heap)
    ensures Sound(h) ==> Sizes(h.pool.chunks) == Lens(h.blocks) <= Capacities(h.pool.chunks)
  {
    if Sound(h) {
      SizesWithin(h.pool.chunks, |h.memory|);
    }
  }
}
