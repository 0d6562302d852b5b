/** MemoryPoolAllocator of rapidjson's allocators.h: bump allocation from a list of chunks.
    Addresses and sizes are natural numbers, 0 is the null pointer, and what the base allocator
    answers is a parameter. */
module PoolAllocator {

  /** RAPIDJSON_ALIGN */
  function Align(x: nat): (r: nat)
    ensures x <= r < x + 8 && r % 8 == 0
  {
    (x + 7) / 8 * 8
  }

  /** RAPIDJSON_ALIGN(sizeof(ChunkHeader)) where size_t and pointers have eight bytes */
  const HEADER := 24

  /** A chunk begins with its header; its data follow. */
  datatype Chunk = Chunk(base: nat, capacity: nat, size: nat) {
    function Data(): nat { base + HEADER }

    /** The end of what is handed out. */
    function Free(): nat { base + HEADER + size }

    function End(): nat { base + HEADER + capacity }
  }

  /** The head of the list comes first; userBuffer is the address of a supplied buffer or 0. */
  datatype Pool = Pool(chunks: seq<Chunk>, chunkCapacity: nat, userBuffer: nat)

  function Sizes(c: seq<Chunk>): nat {
    if c == [] then 0 else c[0].size + Sizes(c[1..])
  }

  function Capacities(c: seq<Chunk>): nat {
    if c == [] then 0 else c[0].capacity + Capacities(c[1..])
  }

  /** Whether a block of aligned size n needs a new chunk. */
  predicate Needs(p: Pool, n: nat) {
    p.chunks == [] || p.chunks[0].size + n > p.chunks[0].capacity
  }

  function NewCapacity(p: Pool, n: nat): nat { if p.chunkCapacity > n then p.chunkCapacity else n }

  function AddChunk(p: Pool, capacity: nat, grant: nat): Pool {
    if grant == 0 then p else p.(chunks := [Chunk(grant, capacity, 0)] + p.chunks)
  }

  /** The head chunk hands out n more bytes. */
  function Larger(c: seq<Chunk>, n: nat): (r: seq<Chunk>)
    requires c != []
    ensures |r| == |c| && r[0] == c[0].(size := c[0].size + n) && forall i :: 1 <= i < |c| ==> r[i] == c[i]
  {
    [c[0].(size := c[0].size + n)] + c[1..]
  }

  function Bumped(p: Pool, n: nat): Pool
    requires p.chunks != []
  {
    p.(chunks := Larger(p.chunks, n))
  }

  /** The pool and the pointer after Malloc; grant is what the base allocator returns if asked. */
  function Malloc(p: Pool, size: nat, grant: nat): (Pool, nat) {
    if size == 0 then (p, 0)
    else
      var n := Align(size);
      if !Needs(p, n) then (Bumped(p, n), p.chunks[0].Free())
      else if grant == 0 then (p, 0)
      else
        var q := AddChunk(p, NewCapacity(p, n), grant);
        (Bumped(q, n), q.chunks[0].Free())
  }

  /** What Realloc does with a block of its own. */
  datatype Resize = Stay | Grow(increment: nat) | Move

  function Resizing(p: Pool, ptr: nat, originalSize: nat, newSize: nat): Resize
    requires p.chunks != []
  {
    var o, n := Align(originalSize), Align(newSize);
    if o >= n then Stay
    else if ptr + o == p.chunks[0].Free() && p.chunks[0].size + (n - o) <= p.chunks[0].capacity then Grow(n - o)
    else Move
  }

  /** Clear: the base allocator's chunks go, a supplied buffer is emptied. */
  function Cleared(p: Pool): Pool
    decreases |p.chunks|
  {
    if p.chunks == [] then p
    else if p.chunks[0].base == p.userBuffer then p.(chunks := [p.chunks[0].(size := 0)] + p.chunks[1..])
    else Cleared(p.(chunks := p.chunks[1..]))
  }

  // ---------------------------------------------------------------- blocks

  /** A block handed out since the last Clear. */
  datatype Block = Block(start: nat, len: nat) {
    function End(): nat { start + len }
  }

  function Lens(b: seq<Block>): nat {
    if b == [] then 0 else Lens(b[..|b| - 1]) + b[|b| - 1].len
  }

  /** Memory is one flat array; blocks are listed in the order they were handed out. */
  datatype Heap = Heap(pool: Pool, blocks: seq<Block>, memory: seq<int>)

  datatype Op =
    | MallocOp(size: nat, grant: nat)
    | ReallocOp(ptr: nat, originalSize: nat, newSize: nat, grant: nat)
    | ClearOp

  /** The block that starts at ptr. */
  function Find(b: seq<Block>, ptr: nat): (k: nat)
    ensures k <= |b| && (k < |b| ==> b[k].start == ptr)
    ensures (exists i :: 0 <= i < |b| && b[i].start == ptr) ==> k < |b|
  {
    if b == [] then 0 else if b[0].start == ptr then 0 else 1 + Find(b[1..], ptr)
  }

  /** memcpy */
  function Copied(memory: seq<int>, to: nat, from: nat, n: nat): (r: seq<int>)
    requires to + n <= |memory| && from + n <= |memory|
    ensures |r| == |memory|
  {
    memory[..to] + memory[from..from + n] + memory[to + n..]
  }

  function DoMalloc(h: Heap, size: nat, grant: nat): Heap {
    var r := Malloc(h.pool, size, grant);
    h.(pool := r.0, blocks := if r.1 == 0 then h.blocks else h.blocks + [Block(r.1, Align(size))])
  }

  /** A block that has to move: a new one, and the old contents copied to it. */
  function DoMove(h: Heap, ptr: nat, originalSize: nat, newSize: nat, grant: nat): Heap {
    var to, o := Malloc(h.pool, newSize, grant).1, Align(originalSize);
    var r := DoMalloc(h, newSize, grant);
    if to == 0 || to + o > |h.memory| || ptr + o > |h.memory| then r else r.(memory := Copied(h.memory, to, ptr, o))
  }

  function DoGrow(h: Heap, ptr: nat, increment: nat): Heap
    requires h.pool.chunks != [] && Find(h.blocks, ptr) < |h.blocks|
  {
    var k := Find(h.blocks, ptr);
    h.(pool := Bumped(h.pool, increment), blocks := h.blocks[k := Block(ptr, h.blocks[k].len + increment)])
  }

  /** The pointer Realloc returns. */
  function ReallocPointer(p: Pool, ptr: nat, originalSize: nat, newSize: nat, grant: nat): nat
    requires ptr != 0 ==> p.chunks != []
  {
    if ptr == 0 then Malloc(p, newSize, grant).1
    else if newSize == 0 then 0
    else if Resizing(p, ptr, originalSize, newSize).Move? then Malloc(p, Align(newSize), grant).1
    else ptr
  }

  predicate Known(h: Heap, ptr: nat) {
    h.pool.chunks != [] && Find(h.blocks, ptr) < |h.blocks|
  }

  function DoRealloc(h: Heap, ptr: nat, originalSize: nat, newSize: nat, grant: nat): Heap
    requires ptr != 0 ==> Known(h, ptr)
  {
    if ptr == 0 then DoMalloc(h, newSize, grant)
    else if newSize == 0 then h
    else
      match Resizing(h.pool, ptr, originalSize, newSize)
      case Stay => h
      case Grow(increment) => DoGrow(h, ptr, increment)
      case Move => DoMove(h, ptr, originalSize, Align(newSize), grant)
  }

  // ---------------------------------------------------------------- the invariant

  predicate Apart(c: Chunk, d: Chunk) { c.End() <= d.base || d.End() <= c.base }

  ghost predicate ChunksSound(c: seq<Chunk>, limit: nat) {
    && (forall i :: 0 <= i < |c| ==>
          && 0 < c[i].base && c[i].End() <= limit
          && c[i].size <= c[i].capacity && c[i].size % 8 == 0)
    && (forall i, j :: 0 <= i < j < |c| ==> Apart(c[i], c[j]))
  }

  predicate In(c: Chunk, b: Block) { c.Data() <= b.start && b.End() <= c.Free() }

  ghost predicate Housed(c: seq<Chunk>, b: Block) {
    exists i :: 0 <= i < |c| && In(c[i], b)
  }

  predicate Disjoint(a: Block, b: Block) { a.End() <= b.start || b.End() <= a.start }

  ghost predicate BlocksSound(c: seq<Chunk>, b: seq<Block>) {
    && (forall k :: 0 <= k < |b| ==> 0 < b[k].len && b[k].len % 8 == 0 && Housed(c, b[k]))
    && (forall j, k :: 0 <= j < k < |b| ==> Disjoint(b[j], b[k]))
  }

  /** Chunks lie apart inside memory; blocks are disjoint, inside the handed-out parts of their
      chunks, and make these up in full. */
  ghost predicate Sound(h: Heap) {
    && ChunksSound(h.pool.chunks, |h.memory|) && BlocksSound(h.pool.chunks, h.blocks)
    && Lens(h.blocks) == Sizes(h.pool.chunks)
  }

  /** The base allocator fails, or gives a region of its own. */
  ghost predicate Granted(h: Heap, grant: nat, n: nat) {
    grant == 0 ||
      var c := Chunk(grant, NewCapacity(h.pool, n), 0);
      c.End() <= |h.memory| && forall i :: 0 <= i < |h.pool.chunks| ==> Apart(c, h.pool.chunks[i])
  }

  /** What the allocator may rely on: a pointer is null or a block of its own, of at least the
      size claimed. */
  ghost predicate Allowed(h: Heap, op: Op) {
    match op
    case MallocOp(size, grant) => Granted(h, grant, Align(size))
    case ReallocOp(ptr, originalSize, newSize, grant) =>
      && Granted(h, grant, Align(newSize))
      && (ptr != 0 ==> Known(h, ptr) && Align(originalSize) <= h.blocks[Find(h.blocks, ptr)].len)
    case ClearOp => true
  }

  function Step(h: Heap, op: Op): Heap
    requires op.ReallocOp? && op.ptr != 0 ==> Known(h, op.ptr)
  {
    match op
    case MallocOp(size, grant) => DoMalloc(h, size, grant)
    case ReallocOp(ptr, originalSize, newSize, grant) => DoRealloc(h, ptr, originalSize, newSize, grant)
    case ClearOp => Heap(Cleared(h.pool), [], h.memory)
  }

  // ---------------------------------------------------------------- one chunk at a time

  lemma HousedGrows(c: seq<Chunk>, d: seq<Chunk>, b: Block)
    requires Housed(c, b) && |c| <= |d|
    requires forall i :: 0 <= i < |c| ==> var x, y := c[i], d[|d| - |c| + i]; x.base == y.base && x.size <= y.size
    ensures Housed(d, b)
  {
    var i :| 0 <= i < |c| && In(c[i], b);
    assert In(d[|d| - |c| + i], b);
  }

  lemma AddHouses(c: seq<Chunk>, x: Chunk, b: Block)
    requires Housed(c, b)
    ensures Housed([x] + c, b)
  {
    HousedGrows(c, [x] + c, b);
  }

  lemma AddSound(c: seq<Chunk>, b: seq<Block>, x: Chunk, limit: nat)
    requires ChunksSound(c, limit) && BlocksSound(c, b) && x.size == 0 && 0 < x.base && x.End() <= limit
    requires forall i :: 0 <= i < |c| ==> Apart(x, c[i])
    ensures ChunksSound([x] + c, limit) && BlocksSound([x] + c, b) && Sizes([x] + c) == Sizes(c)
  {
    assert ([x] + c)[1..] == c;
    hide Housed, Apart;
    forall k | 0 <= k < |b|
      ensures Housed([x] + c, b[k])
    {
      AddHouses(c, x, b[k]);
    }
  }

  lemma LargerChunks(c: seq<Chunk>, n: nat, limit: nat)
    requires ChunksSound(c, limit) && c != [] && c[0].size + n <= c[0].capacity && n % 8 == 0
    ensures ChunksSound(Larger(c, n), limit) && Sizes(Larger(c, n)) == Sizes(c) + n
  {
    LargerSizes(c, n);
    LargerApart(c, n);
    AlignedSum(c[0].size, n);
    hide Sizes, Larger, Apart;
  }

  lemma AlignedSum(a: nat, b: nat)
    requires a % 8 == 0 && b % 8 == 0
    ensures (a + b) % 8 == 0
  {
  }

  lemma LargerSizes(c: seq<Chunk>, n: nat)
    requires c != []
    ensures Sizes(Larger(c, n)) == Sizes(c) + n
  {
    assert Larger(c, n)[1..] == c[1..];
  }

  lemma LargerApart(c: seq<Chunk>, n: nat)
    requires c != [] && forall i, j :: 0 <= i < j < |c| ==> Apart(c[i], c[j])
    ensures var d := Larger(c, n); forall i, j :: 0 <= i < j < |d| ==> Apart(d[i], d[j])
  {
    hide Larger;
    var d := Larger(c, n);
    forall i, j | 0 <= i < j < |d|
      ensures Apart(d[i], d[j])
    {
      assert Apart(c[i], c[j]);
    }
  }

  lemma LargerHouses(c: seq<Chunk>, n: nat, b: Block)
    requires c != [] && Housed(c, b)
    ensures Housed(Larger(c, n), b)
  {
    HousedGrows(c, Larger(c, n), b);
  }

  /** What the head chunk still has is disjoint from every block. */
  lemma HeadroomDisjoint(c: seq<Chunk>, b: Block, x: Block, limit: nat)
    requires ChunksSound(c, limit) && c != [] && Housed(c, b)
    requires c[0].Free() <= x.start && x.End() <= c[0].End()
    ensures Disjoint(b, x)
  {
    var i :| 0 <= i < |c| && In(c[i], b);
    if i > 0 {
      assert Apart(c[0], c[i]);
    }
  }

  lemma BumpSound(c: seq<Chunk>, b: seq<Block>, n: nat, limit: nat)
    requires ChunksSound(c, limit) && BlocksSound(c, b) && c != [] && 0 < n && n % 8 == 0
             && c[0].size + n <= c[0].capacity
    ensures BlocksSound(Larger(c, n), b + [Block(c[0].Free(), n)])
  {
    var x := Block(c[0].Free(), n);
    var d, r := Larger(c, n), b + [x];
    assert In(d[0], x);
    forall k | 0 <= k < |b|
      ensures Housed(d, b[k]) && Disjoint(b[k], x)
    {
      LargerHouses(c, n, b[k]);
      HeadroomDisjoint(c, b[k], x, limit);
    }
    assert Housed(d, x);
    hide Housed, Disjoint, ChunksSound;
  }

  lemma LensSnoc(b: seq<Block>, x: Block)
    ensures Lens(b + [x]) == Lens(b) + x.len
  {
    assert (b + [x])[..|b|] == b;
  }

  lemma {:induction false} LensUpdate(b: seq<Block>, k: nat, x: Block)
    requires k < |b|
    ensures Lens(b[k := x]) + b[k].len == Lens(b) + x.len
  {
    var n := |b| - 1;
    if k == n {
      assert b[k := x][..n] == b[..n];
    } else {
      assert b[k := x][..n] == b[..n][k := x];
      LensUpdate(b[..n], k, x);
    }
  }

  /** Only the last block of the head chunk, claimed in full, ends where the chunk's free space begins. */
  lemma GrowsOnlyTheLast(c: seq<Chunk>, b: Block, o: nat, limit: nat)
    requires ChunksSound(c, limit) && c != [] && Housed(c, b) && o <= b.len && b.start + o == c[0].Free()
    ensures b.len == o && In(c[0], b)
  {
    var i :| 0 <= i < |c| && In(c[i], b);
    if i > 0 {
      assert Apart(c[0], c[i]);
    }
  }

  lemma ExtendDisjoint(a: Block, b: Block, increment: nat)
    requires 0 < a.len && Disjoint(a, b) && Disjoint(a, Block(b.End(), increment)) && 0 < increment
    ensures Disjoint(a, b.(len := b.len + increment)) && Disjoint(b.(len := b.len + increment), a)
  {
  }

  lemma GrowBlocks(c: seq<Chunk>, b: seq<Block>, k: nat, n: nat, limit: nat)
    requires ChunksSound(c, limit) && BlocksSound(c, b) && c != [] && k < |b|
    requires 0 < n && n % 8 == 0 && c[0].size + n <= c[0].capacity && b[k].End() == c[0].Free()
    ensures BlocksSound(Larger(c, n), b[k := b[k].(len := b[k].len + n)])
  {
    var x := b[k].(len := b[k].len + n);
    var d, r := Larger(c, n), b[k := x];
    GrowsOnlyTheLast(c, b[k], b[k].len, limit);
    assert In(d[0], x);
    assert Housed(d, x);
    forall j | 0 <= j < |b| && j != k
      ensures Housed(d, b[j]) && Disjoint(b[j], x) && Disjoint(x, b[j])
    {
      LargerHouses(c, n, b[j]);
      HeadroomDisjoint(c, b[j], Block(c[0].Free(), n), limit);
      assert Disjoint(b[j], b[k]);
      ExtendDisjoint(b[j], b[k], n);
    }
    hide Housed, Disjoint, ChunksSound, Larger;
  }

  // ---------------------------------------------------------------- every operation

  lemma BumpedSound(h: Heap, n: nat)
    requires Sound(h) && 0 < n && n % 8 == 0 && !Needs(h.pool, n)
    ensures Sound(h.(pool := Bumped(h.pool, n), blocks := h.blocks + [Block(h.pool.chunks[0].Free(), n)]))
  {
    var c := h.pool.chunks;
    LargerChunks(c, n, |h.memory|);
    BumpSound(c, h.blocks, n, |h.memory|);
    LensSnoc(h.blocks, Block(c[0].Free(), n));
    hide ChunksSound, BlocksSound, Lens, Sizes, Larger;
  }

  lemma MallocSound(h: Heap, size: nat, grant: nat)
    requires Sound(h) && Granted(h, grant, Align(size))
    ensures Sound(DoMalloc(h, size, grant))
  {
    if size > 0 {
      var n := Align(size);
      if !Needs(h.pool, n) {
        BumpedSound(h, n);
      } else if grant != 0 {
        var x := Chunk(grant, NewCapacity(h.pool, n), 0);
        AddSound(h.pool.chunks, h.blocks, x, |h.memory|);
        hide ChunksSound, BlocksSound, Lens, Sizes, Larger;
        var q := h.(pool := AddChunk(h.pool, NewCapacity(h.pool, n), grant));
        assert Sound(q);
        BumpedSound(q, n);
      }
    }
  }

  lemma GrowAt(h: Heap, k: nat, n: nat)
    requires Sound(h) && h.pool.chunks != [] && k < |h.blocks| && 0 < n && n % 8 == 0 && !Needs(h.pool, n)
    requires h.blocks[k].End() == h.pool.chunks[0].Free()
    ensures Sound(h.(pool := Bumped(h.pool, n), blocks := h.blocks[k := h.blocks[k].(len := h.blocks[k].len + n)]))
  {
    hide ChunksSound, BlocksSound, Lens, Sizes, Larger, Block.End, Chunk.Free;
    var c := h.pool.chunks;
    GrowBlocks(c, h.blocks, k, n, |h.memory|);
    LargerChunks(c, n, |h.memory|);
    LensUpdate(h.blocks, k, h.blocks[k].(len := h.blocks[k].len + n));
  }

  lemma GrowHeap(h: Heap, ptr: nat, n: nat)
    requires Sound(h) && Known(h, ptr) && 0 < n && n % 8 == 0 && !Needs(h.pool, n)
    requires h.blocks[Find(h.blocks, ptr)].End() == h.pool.chunks[0].Free()
    ensures Sound(DoGrow(h, ptr, n))
  {
    hide Sound, Find, Bumped;
    GrowAt(h, Find(h.blocks, ptr), n);
  }

  lemma DifferenceAligned(a: nat, b: nat)
    requires a % 8 == 0 && b % 8 == 0 && a < b
    ensures (b - a) % 8 == 0
  {
  }

  lemma FirstHoused(h: Heap, k: nat)
    requires Sound(h) && k < |h.blocks|
    ensures Housed(h.pool.chunks, h.blocks[k]) && ChunksSound(h.pool.chunks, |h.memory|)
  {
  }

  lemma GrowInPlace(h: Heap, ptr: nat, o: nat, n: nat)
    requires Sound(h) && Known(h, ptr) && o <= h.blocks[Find(h.blocks, ptr)].len && o % 8 == 0 && n % 8 == 0 && o < n
    requires ptr + o == h.pool.chunks[0].Free() && !Needs(h.pool, n - o)
    ensures var k, r := Find(h.blocks, ptr), DoGrow(h, ptr, n - o);
            && Sound(r) && h.blocks[k].len == o && In(h.pool.chunks[0], h.blocks[k])
            && r.blocks == h.blocks[k := Block(ptr, n)]
  {
    var k := Find(h.blocks, ptr);
    hide Sound, Find, In, Housed, ChunksSound, Larger, Needs, Chunk.Free;
    DifferenceAligned(o, n);
    FirstHoused(h, k);
    GrowsOnlyTheLast(h.pool.chunks, h.blocks[k], o, |h.memory|);
    GrowHeap(h, ptr, n - o);
  }

  lemma ResizingGrows(p: Pool, ptr: nat, originalSize: nat, newSize: nat)
    requires p.chunks != [] && Resizing(p, ptr, originalSize, newSize).Grow?
    ensures var o, n := Align(originalSize), Align(newSize);
            o < n && ptr + o == p.chunks[0].Free() && !Needs(p, n - o)
              && Resizing(p, ptr, originalSize, newSize) == Grow(n - o)
  {
    hide Align;
  }

  /** Growing in place happens to the last block of the head chunk only. */
  lemma GrowSound(h: Heap, ptr: nat, originalSize: nat, newSize: nat)
    requires Sound(h) && Known(h, ptr) && Align(originalSize) <= h.blocks[Find(h.blocks, ptr)].len
    requires Resizing(h.pool, ptr, originalSize, newSize).Grow?
    ensures var k, r := Find(h.blocks, ptr), DoGrow(h, ptr, Resizing(h.pool, ptr, originalSize, newSize).increment);
            && Sound(r) && h.blocks[k].len == Align(originalSize) && In(h.pool.chunks[0], h.blocks[k])
            && r.blocks == h.blocks[k := Block(ptr, Align(newSize))]
  {
    hide Sound, Find, Align, In, Needs, Larger, Resizing, DoGrow, Chunk.Free;
    ResizingGrows(h.pool, ptr, originalSize, newSize);
    GrowInPlace(h, ptr, Align(originalSize), Align(newSize));
  }

  lemma CopySound(h: Heap, memory: seq<int>)
    requires Sound(h) && |memory| == |h.memory|
    ensures Sound(h.(memory := memory))
  {
  }

  lemma ReallocSound(h: Heap, op: Op)
    requires op.ReallocOp? && Sound(h) && Allowed(h, op)
    ensures Sound(Step(h, op))
  {
    hide Sound, Malloc, Resizing, DoGrow, Find, DoMalloc;
    if op.ptr == 0 {
      MallocSound(h, op.newSize, op.grant);
    } else if op.newSize != 0 {
      match Resizing(h.pool, op.ptr, op.originalSize, op.newSize)
      case Stay =>
      case Grow(_) => GrowSound(h, op.ptr, op.originalSize, op.newSize);
      case Move =>
        AlignTwice(op.newSize);
        MallocSound(h, Align(op.newSize), op.grant);
        MallocMemory(h, Align(op.newSize), op.grant);
        var r := DoMalloc(h, Align(op.newSize), op.grant);
        CopySound(r, DoMove(h, op.ptr, op.originalSize, Align(op.newSize), op.grant).memory);
    }
  }

  lemma AlignTwice(x: nat)
    ensures Align(Align(x)) == Align(x)
  {
  }

  lemma MallocMemory(h: Heap, size: nat, grant: nat)
    ensures DoMalloc(h, size, grant).memory == h.memory
  {
  }

  lemma {:induction false} ClearSound(p: Pool, memory: seq<int>)
    requires ChunksSound(p.chunks, |memory|)
             && (forall i :: 0 <= i < |p.chunks| && p.chunks[i].base == p.userBuffer ==> i == |p.chunks| - 1)
    ensures Sound(Heap(Cleared(p), [], memory)) && |Cleared(p).chunks| <= 1
    ensures Cleared(p).chunks != [] ==> Cleared(p).chunks[0].base == p.userBuffer
    decreases |p.chunks|
  {
    if p.chunks != [] {
      if p.chunks[0].base != p.userBuffer {
        ClearSound(p.(chunks := p.chunks[1..]), memory);
      }
    }
  }

  // ---------------------------------------------------------------- contents

  function Bytes(memory: seq<int>, b: Block): seq<int>
    requires b.End() <= |memory|
  {
    memory[b.start..b.End()]
  }

  /** Blocks lie in memory, away from the null pointer. */
  lemma BlockInMemory(h: Heap, k: nat)
    requires Sound(h) && k < |h.blocks|
    ensures 0 < h.blocks[k].start && h.blocks[k].End() <= |h.memory|
  {
    var i :| 0 <= i < |h.pool.chunks| && In(h.pool.chunks[i], h.blocks[k]);
  }

  ghost predicate InMemory(b: seq<Block>, memory: seq<int>) {
    forall k :: 0 <= k < |b| ==> 0 < b[k].start && b[k].End() <= |memory|
  }

  lemma BlocksInMemory(h: Heap)
    requires Sound(h)
    ensures InMemory(h.blocks, h.memory)
  {
    forall k | 0 <= k < |h.blocks|
      ensures 0 < h.blocks[k].start && h.blocks[k].End() <= |h.memory|
    {
      BlockInMemory(h, k);
    }
  }

  /** Every block of b reads the same in both memories. */
  ghost predicate SameBytes(b: seq<Block>, before: seq<int>, after: seq<int>)
    requires InMemory(b, before) && InMemory(b, after)
  {
    forall k :: 0 <= k < |b| ==> Bytes(after, b[k]) == Bytes(before, b[k])
  }

  lemma CopyElsewhere(memory: seq<int>, to: nat, from: nat, n: nat, b: Block)
    requires to + n <= |memory| && from + n <= |memory| && b.End() <= |memory| && Disjoint(b, Block(to, n))
    ensures Bytes(Copied(memory, to, from, n), b) == Bytes(memory, b)
  {
    var r := Copied(memory, to, from, n);
    assert forall i :: 0 <= i < |memory| && !(to <= i < to + n) ==> r[i] == memory[i];
  }

  lemma CopyArrives(memory: seq<int>, to: nat, from: nat, n: nat)
    requires to + n <= |memory| && from + n <= |memory|
    ensures Copied(memory, to, from, n)[to..to + n] == memory[from..from + n]
  {
    var a, b, c := memory[..to], memory[from..from + n], memory[to + n..];
    assert (a + b + c)[to..to + n] == b;
  }

  /** What Malloc hands out is disjoint from every block before it. */
  lemma FreshBlock(h: Heap, size: nat, grant: nat)
    requires Sound(h) && Granted(h, grant, Align(size)) && Malloc(h.pool, size, grant).1 != 0
    ensures var x := Block(Malloc(h.pool, size, grant).1, Align(size));
            && DoMalloc(h, size, grant).blocks == h.blocks + [x] && x.End() <= |h.memory|
            && forall k :: 0 <= k < |h.blocks| ==> Disjoint(h.blocks[k], x)
  {
    MallocSound(h, size, grant);
    var r, x := DoMalloc(h, size, grant), Block(Malloc(h.pool, size, grant).1, Align(size));
    BlockInMemory(r, |h.blocks|);
    assert forall k :: 0 <= k < |h.blocks| ==> r.blocks[k] == h.blocks[k];
    hide ChunksSound, Lens, Sizes, Malloc, Housed, Align;
  }

  lemma MoveCopies(h: Heap, ptr: nat, o: nat, to: nat)
    requires InMemory(h.blocks, h.memory) && to + o <= |h.memory| && ptr + o <= |h.memory|
    requires forall k :: 0 <= k < |h.blocks| ==> Disjoint(h.blocks[k], Block(to, o))
    ensures var m := Copied(h.memory, to, ptr, o);
            InMemory(h.blocks, m) && SameBytes(h.blocks, h.memory, m) && m[to..to + o] == h.memory[ptr..ptr + o]
  {
    CopyArrives(h.memory, to, ptr, o);
    hide Copied;
    forall k | 0 <= k < |h.blocks|
      ensures Bytes(Copied(h.memory, to, ptr, o), h.blocks[k]) == Bytes(h.memory, h.blocks[k])
    {
      CopyElsewhere(h.memory, to, ptr, o, h.blocks[k]);
    }
  }

  /** No block handed out before loses a byte; a result is a block of at least the new size that
      begins with the old contents. */
  ghost predicate KeepsContents(h: Heap, r: Heap, ptr: nat, o: nat, to: nat, newSize: nat) {
    && InMemory(h.blocks, h.memory) && InMemory(h.blocks, r.memory) && SameBytes(h.blocks, h.memory, r.memory)
    && (to != 0 ==>
          && Find(r.blocks, to) < |r.blocks| && newSize <= r.blocks[Find(r.blocks, to)].len
          && to + o <= |r.memory| && ptr + o <= |h.memory|
          && r.memory[to..to + o] == h.memory[ptr..ptr + o])
  }

  lemma SameAll(b: seq<Block>, memory: seq<int>)
    requires InMemory(b, memory)
    ensures SameBytes(b, memory, memory)
  {
  }

  lemma StayLarge(h: Heap, ptr: nat, originalSize: nat, newSize: nat)
    requires Known(h, ptr) && Resizing(h.pool, ptr, originalSize, newSize).Stay?
    requires Align(originalSize) <= h.blocks[Find(h.blocks, ptr)].len
    ensures newSize <= h.blocks[Find(h.blocks, ptr)].len
  {
    hide Find;
  }

  lemma {:induction false} FindSame(b: seq<Block>, k: nat, x: Block)
    requires k < |b| && Find(b, x.start) == k
    ensures Find(b[k := x], x.start) == k
  {
    if k > 0 {
      assert b[k := x][1..] == b[1..][k - 1 := x];
      FindSame(b[1..], k - 1, x);
    }
  }

  /** A fresh block is found where it was appended. */
  lemma {:induction false} FindNew(b: seq<Block>, x: Block)
    requires forall k :: 0 <= k < |b| ==> 0 < b[k].len && Disjoint(b[k], x)
    requires 0 < x.len
    ensures Find(b + [x], x.start) == |b|
  {
    if b != [] {
      assert (b + [x])[1..] == b[1..] + [x];
      assert b[0].start != x.start;
      FindNew(b[1..], x);
    }
  }

  lemma SameMemoryKeeps(h: Heap, r: Heap, ptr: nat, o: nat, newSize: nat)
    requires Sound(h) && Known(h, ptr) && o <= h.blocks[Find(h.blocks, ptr)].len && r.memory == h.memory
    ensures KeepsContents(h, r, ptr, o, 0, newSize)
    ensures Find(r.blocks, ptr) < |r.blocks| && newSize <= r.blocks[Find(r.blocks, ptr)].len
            ==> KeepsContents(h, r, ptr, o, ptr, newSize)
  {
    BlocksInMemory(h);
    SameAll(h.blocks, h.memory);
    BlockInMemory(h, Find(h.blocks, ptr));
    hide Sound, Find, SameBytes;
  }

  lemma CopiedKeeps(h: Heap, r: Heap, ptr: nat, o: nat, to: nat, newSize: nat)
    requires InMemory(h.blocks, h.memory) && ptr + o <= |h.memory| && to + o <= |h.memory|
             && r.memory == Copied(h.memory, to, ptr, o)
    requires Find(r.blocks, to) < |r.blocks| && newSize <= r.blocks[Find(r.blocks, to)].len
    requires forall k :: 0 <= k < |h.blocks| ==> Disjoint(h.blocks[k], Block(to, o))
    ensures KeepsContents(h, r, ptr, o, to, newSize)
  {
    hide Copied, SameBytes, Find, Disjoint;
    MoveCopies(h, ptr, o, to);
  }

  lemma NarrowDisjoint(b: seq<Block>, to: nat, n: nat, o: nat)
    requires o <= n && forall k :: 0 <= k < |b| ==> Disjoint(b[k], Block(to, n))
    ensures forall k :: 0 <= k < |b| ==> Disjoint(b[k], Block(to, o))
  {
    forall k | 0 <= k < |b|
      ensures Disjoint(b[k], Block(to, o))
    {
      assert Disjoint(b[k], Block(to, n));
    }
  }

  lemma MoveKeeps(h: Heap, ptr: nat, originalSize: nat, newSize: nat, grant: nat)
    requires Sound(h) && Known(h, ptr) && Align(originalSize) <= h.blocks[Find(h.blocks, ptr)].len
    requires Granted(h, grant, newSize) && newSize % 8 == 0 && Align(originalSize) < newSize
    ensures KeepsContents(h, DoMove(h, ptr, originalSize, newSize, grant), ptr, Align(originalSize),
                          Malloc(h.pool, newSize, grant).1, newSize)
  {
    var o, to, k := Align(originalSize), Malloc(h.pool, newSize, grant).1, Find(h.blocks, ptr);
    AlignedIsAligned(newSize);
    MallocMemory(h, newSize, grant);
    SameMemoryKeeps(h, DoMalloc(h, newSize, grant), ptr, o, newSize);
    if to != 0 {
      FreshBlock(h, newSize, grant);
      BlocksInMemory(h);
      PositiveLengths(h);
      hide Sound, Malloc, Align, SameBytes, Copied, Disjoint, Find, DoMalloc, KeepsContents;
      FindNew(h.blocks, Block(to, newSize));
      NarrowDisjoint(h.blocks, to, newSize, o);
      assert ptr + o <= |h.memory|;
      CopiedKeeps(h, DoMove(h, ptr, originalSize, newSize, grant), ptr, o, to, newSize);
    }
  }

  lemma AlignedIsAligned(x: nat)
    requires x % 8 == 0
    ensures Align(x) == x
  {
  }

  lemma MoveWhen(p: Pool, ptr: nat, originalSize: nat, newSize: nat)
    requires p.chunks != []
    ensures Resizing(p, ptr, originalSize, newSize).Move? ==> Align(originalSize) < Align(newSize)
  {
  }

  /** What Realloc keeps, in place or not. */
  lemma ReallocKeepsContents(h: Heap, ptr: nat, originalSize: nat, newSize: nat, grant: nat)
    requires Sound(h) && Allowed(h, ReallocOp(ptr, originalSize, newSize, grant)) && ptr != 0
    ensures KeepsContents(h, DoRealloc(h, ptr, originalSize, newSize, grant), ptr, Align(originalSize),
                          ReallocPointer(h.pool, ptr, originalSize, newSize, grant), newSize)
  {
    var o, n, k := Align(originalSize), Align(newSize), Find(h.blocks, ptr);
    var r := DoRealloc(h, ptr, originalSize, newSize, grant);
    MoveWhen(h.pool, ptr, originalSize, newSize);
    hide Sound, Find, Malloc, Align, KeepsContents, Resizing, Granted, DoMove;
    if newSize == 0 {
      SameMemoryKeeps(h, r, ptr, o, newSize);
      return;
    }
    match Resizing(h.pool, ptr, originalSize, newSize)
    case Stay =>
      StayLarge(h, ptr, originalSize, newSize);
      SameMemoryKeeps(h, r, ptr, o, newSize);
    case Grow(_) =>
      GrowSound(h, ptr, originalSize, newSize);
      FindSame(h.blocks, k, Block(ptr, n));
      SameMemoryKeeps(h, r, ptr, o, newSize);
    case Move =>
      MoveKeeps(h, ptr, originalSize, n, grant);
      LessNeeded(h, r, ptr, o, ReallocPointer(h.pool, ptr, originalSize, newSize, grant), n, newSize);
  }

  lemma LessNeeded(h: Heap, r: Heap, ptr: nat, o: nat, to: nat, n: nat, newSize: nat)
    requires KeepsContents(h, r, ptr, o, to, n) && newSize <= n
    ensures KeepsContents(h, r, ptr, o, to, newSize)
  {
    hide InMemory, SameBytes, Find;
  }

  lemma PositiveLengths(h: Heap)
    requires Sound(h)
    ensures forall k :: 0 <= k < |h.blocks| ==> 0 < h.blocks[k].len
  {
  }
}
