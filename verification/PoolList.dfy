/** The allocator over its linked list of chunk headers and the bytes it hands out. */
module PoolList {
  import opened PoolAllocator
  import opened PoolRuns

  /** A chunk header as it stands in memory. */
  class ChunkHeader {
    const base: nat
    const capacity: nat
    var size: nat
    var next: ChunkHeader?

    constructor (base: nat, capacity: nat, next: ChunkHeader?)
      ensures this.base == base && this.capacity == capacity && this.size == 0 && this.next == next
    {
      this.base, this.capacity, this.size, this.next := base, capacity, 0, next;
    }
  }

  ghost function First(list: seq<ChunkHeader>): ChunkHeader? {
    if list == [] then null else list[0]
  }

  /** The headers of the list, each the next of the one before. */
  ghost predicate Linked(list: seq<ChunkHeader>)
    reads list
  {
    list != [] ==> list[0].next == First(list[1..]) && list[0] !in list[1..] && Linked(list[1..])
  }

  ghost function Chunks(list: seq<ChunkHeader>): (r: seq<Chunk>)
    reads list
    ensures |r| == |list|
  {
    if list == [] then [] else [Chunk(list[0].base, list[0].capacity, list[0].size)] + Chunks(list[1..])
  }

  class MemoryPoolAllocator {
    const chunkCapacity: nat
    const userBuffer: nat
    const memory: array<int>
    var chunkHead: ChunkHeader?
    ghost var list: seq<ChunkHeader>
    ghost var blocks: seq<Block>

    ghost predicate Valid()
      reads this, list
    {
      chunkHead == First(list) && Linked(list)
    }

    ghost function View(): Pool
      reads this, list
    {
      Pool(Chunks(list), chunkCapacity, userBuffer)
    }

    ghost function State(): Heap
      reads this, list, memory
    {
      Heap(View(), blocks, memory[..])
    }

    constructor (chunkSize: nat, space: array<int>)
      ensures Valid() && Starts(State()) && memory == space && chunkCapacity == chunkSize && userBuffer == 0
              && list == []
    {
      chunkCapacity, userBuffer, memory := chunkSize, 0, space;
      chunkHead, list, blocks := null, [], [];
    }

    constructor WithBuffer(buffer: nat, size: nat, chunkSize: nat, space: array<int>)
      requires 0 < buffer && HEADER < size && buffer + size <= space.Length
      ensures Valid() && Starts(State()) && memory == space && chunkCapacity == chunkSize && userBuffer == buffer
      ensures View().chunks == [Chunk(buffer, size - HEADER, 0)] && fresh(list)
    {
      var c := new ChunkHeader(buffer, size - HEADER, null);
      chunkCapacity, userBuffer, memory := chunkSize, buffer, space;
      chunkHead, list, blocks := c, [c], [];
    }

    method Size() returns (size: nat)
      requires Valid()
      ensures size == Sizes(View().chunks)
    {
      size := 0;
      var c := chunkHead;
      ghost var rest := list;
      while c != null
        invariant c == First(rest) && Linked(rest) && size + Sizes(Chunks(rest)) == Sizes(Chunks(list))
        decreases |rest|
      {
        assert Chunks(rest)[1..] == Chunks(rest[1..]);
        size := size + c.size;
        c := c.next;
        rest := rest[1..];
      }
    }

    method Capacity() returns (capacity: nat)
      requires Valid()
      ensures capacity == Capacities(View().chunks)
    {
      capacity := 0;
      var c := chunkHead;
      ghost var rest := list;
      while c != null
        invariant c == First(rest) && Linked(rest) && capacity + Capacities(Chunks(rest)) == Capacities(Chunks(list))
        decreases |rest|
      {
        assert Chunks(rest)[1..] == Chunks(rest[1..]);
        capacity := capacity + c.capacity;
        c := c.next;
        rest := rest[1..];
      }
    }

    method AddNewChunk(capacity: nat, grant: nat) returns (ok: bool)
      requires Valid()
      modifies this`chunkHead, this`list
      ensures Valid() && ok == (grant != 0) && View() == AddChunk(old(View()), capacity, grant)
      ensures ok ==> list != [] && fresh(list[0]) && list[1..] == old(list)
      ensures !ok ==> list == old(list)
    {
      if grant == 0 {
        return false;
      }
      var chunk := new ChunkHeader(grant, capacity, chunkHead);
      assert ([chunk] + list)[1..] == list;
      chunkHead := chunk;
      list := [chunk] + list;
      return true;
    }

    /** chunkHead_->size += n */
    method Bump(n: nat)
      requires Valid() && list != []
      modifies list[0]
      ensures Valid() && View() == Bumped(old(View()), n)
    {
      ghost var rest := Chunks(list[1..]);
      assert list[0] !in list[1..];
      chunkHead.size := chunkHead.size + n;
      assert Chunks(list[1..]) == rest;
    }

    /** Makes room for n bytes in the head chunk. */
    method Reserve(n: nat, grant: nat) returns (ok: bool)
      requires Valid()
      modifies this`chunkHead, this`list
      ensures Valid() && ok == (!Needs(old(View()), n) || grant != 0) && (ok ==> list != [])
      ensures View() == var p := old(View()); if Needs(p, n) then AddChunk(p, NewCapacity(p, n), grant) else p
      ensures forall c :: c in list ==> c in old(list) || fresh(c)
    {
      hide Linked, Chunks;
      HeadOf(list);
      ok := true;
      if chunkHead == null || chunkHead.size + n > chunkHead.capacity {
        ok := AddNewChunk(if chunkCapacity > n then chunkCapacity else n, grant);
      }
    }

    /** Malloc */
    method Allocate(size: nat, grant: nat) returns (ptr: nat)
      requires Valid()
      modifies this`chunkHead, this`list, this`blocks, list
      ensures Valid() && State() == DoMalloc(old(State()), size, grant) && ptr == Malloc(old(View()), size, grant).1
      ensures forall c :: c in list ==> c in old(list) || fresh(c)
    {
      hide Align, Linked, Chunks, Larger, NewCapacity;
      if size == 0 {
        return 0;
      }
      var n := Align(size);
      var ok := Reserve(n, grant);
      if !ok {
        return 0;
      }
      HeadOf(list);
      ptr := chunkHead.base + HEADER + chunkHead.size;
      assert list[0] in list;
      Bump(n);
      blocks := blocks + [Block(ptr, n)];
    }

    /** memcpy of n bytes between regions that do not overlap */
    method Copy(to: nat, from: nat, n: nat)
      requires to + n <= memory.Length && from + n <= memory.Length && (to + n <= from || from + n <= to)
      modifies memory
      ensures memory[..] == Copied(old(memory[..]), to, from, n)
    {
      CopiedNone(memory[..], to, from);
      for i := 0 to n
        invariant memory[..] == Copied(old(memory[..]), to, from, i)
      {
        CopiedNext(old(memory[..]), to, from, i);
        assert memory[from + i] == memory[..][from + i];
        memory[to + i] := memory[from + i];
        assert memory[..] == Copied(old(memory[..]), to, from, i)[to + i := old(memory[..])[from + i]];
      }
    }

    method Reallocate(ptr: nat, originalSize: nat, newSize: nat, grant: nat) returns (r: nat)
      requires Valid() && Sound(State()) && Allowed(State(), ReallocOp(ptr, originalSize, newSize, grant))
      modifies this`chunkHead, this`list, this`blocks, list, memory
      ensures Valid() && State() == DoRealloc(old(State()), ptr, originalSize, newSize, grant)
      ensures r == ReallocPointer(old(View()), ptr, originalSize, newSize, grant)
    {
      hide Sound, Granted, Copied, Align, DoMalloc, Malloc, Linked, Chunks;
      if ptr == 0 {
        r := Allocate(newSize, grant);
        return;
      }
      if newSize == 0 {
        return 0;
      }
      var o, n := Align(originalSize), Align(newSize);
      if o >= n {
        return ptr;
      }
      HeadOf(list);
      if ptr == chunkHead.base + HEADER + chunkHead.size - o {
        var increment := n - o;
        if chunkHead.size + increment <= chunkHead.capacity {
          ghost var k := Find(blocks, ptr);
          Bump(increment);
          blocks := blocks[k := Block(ptr, blocks[k].len + increment)];
          return ptr;
        }
      }
      MoveRegions(State(), ptr, originalSize, newSize, grant);
      r := Allocate(n, grant);
      if r != 0 {
        Copy(r, ptr, o);
      }
    }

    /** Clear */
    method Release()
      requires Valid()
      modifies this`chunkHead, this`list, this`blocks, list
      ensures Valid() && State() == Step(old(State()), ClearOp)
    {
      ghost var p := View();
      while chunkHead != null && chunkHead.base != userBuffer
        invariant Valid() && Cleared(View()) == Cleared(p)
        invariant forall c :: c in list ==> c in old(list)
        decreases |list|
      {
        PopHead();
      }
      hide Linked, Chunks;
      HeadOf(list);
      if chunkHead != null && chunkHead.base == userBuffer {
        assert list[0] in list;
        EmptyHead();
      }
      blocks := [];
    }

    method PopHead()
      requires Valid() && list != []
      modifies this`chunkHead, this`list
      ensures Valid() && list == old(list)[1..] && View() == old(View()).(chunks := old(View()).chunks[1..])
      ensures View().chunks == old(View()).chunks[1..]
    {
      HeadOf(list);
      chunkHead := chunkHead.next;
      list := list[1..];
    }

    method EmptyHead()
      requires Valid() && list != []
      modifies list[0]
      ensures Valid() && View() == old(View()).(chunks := [old(View()).chunks[0].(size := 0)] + old(View()).chunks[1..])
    {
      ghost var rest := Chunks(list[1..]);
      assert list[0] !in list[1..];
      chunkHead.size := 0;
      assert Chunks(list[1..]) == rest;
    }
  }

  lemma HeadOf(list: seq<ChunkHeader>)
    ensures list != [] ==>
              && Chunks(list)[0] == Chunk(list[0].base, list[0].capacity, list[0].size)
              && Chunks(list)[1..] == Chunks(list[1..])
  {
  }

  lemma CopiedNone(memory: seq<int>, to: nat, from: nat)
    requires to <= |memory| && from <= |memory|
    ensures Copied(memory, to, from, 0) == memory
  {
  }

  lemma CopiedNext(memory: seq<int>, to: nat, from: nat, n: nat)
    requires to + n < |memory| && from + n < |memory|
    ensures Copied(memory, to, from, n + 1) == Copied(memory, to, from, n)[to + n := memory[from + n]]
    ensures !(to <= from + n < to + n) ==> Copied(memory, to, from, n)[from + n] == memory[from + n]
  {
  }

  /** A block that moves goes to a region apart from its old one. */
  lemma MoveRegions(h: Heap, ptr: nat, originalSize: nat, newSize: nat, grant: nat)
    requires Sound(h) && Allowed(h, ReallocOp(ptr, originalSize, newSize, grant)) && ptr != 0
             && Align(originalSize) < Align(newSize)
    ensures var to, o := Malloc(h.pool, Align(newSize), grant).1, Align(originalSize);
            to != 0 ==> to + o <= |h.memory| && ptr + o <= |h.memory| && (to + o <= ptr || ptr + o <= to)
  {
    AlignTwice(newSize);
    BlockInMemory(h, Find(h.blocks, ptr));
    if Malloc(h.pool, Align(newSize), grant).1 != 0 {
      FreshBlock(h, Align(newSize), grant);
    }
    hide Sound, Malloc, Align, Find, DoMalloc;
  }
}
