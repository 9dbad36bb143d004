/**
 * The linear (bump) allocator: a fixed buffer of `totalSize` bytes handed out
 * front to back. Blocks are returned as offsets into the buffer; offset-based
 * blocks stand for the C pointers `memory + offset`.
 */
module LinearAllocator {
  import opened Defines
  import TMemory

  /**
   * The blocks a run of allocation requests receives, starting with
   * `allocatedBytes` bytes in use: each request that still fits gets the current
   * offset and bumps it, a request that does not fit gets None and bumps nothing.
   * The fit test is on unbounded integers, as the corrected Allocate makes it.
   */
  function Offsets(totalSize: nat, allocatedBytes: nat, sizes: seq<nat>): seq<Option<nat>>
    decreases |sizes|
  {
    if sizes == [] then []
    else if allocatedBytes + sizes[0] <= totalSize then [Some(allocatedBytes)] + Offsets(totalSize, allocatedBytes + sizes[0], sizes[1..])
    else [None] + Offsets(totalSize, allocatedBytes, sizes[1..])
  }

  /**
   * Every block handed out lies inside the buffer, and a later block starts no
   * earlier than the end of any earlier one: the blocks never overlap.
   */
  lemma {:induction false} OffsetsDisjoint(totalSize: nat, allocatedBytes: nat, sizes: seq<nat>)
    requires allocatedBytes <= totalSize
    ensures |Offsets(totalSize, allocatedBytes, sizes)| == |sizes|
    ensures forall i :: 0 <= i < |sizes| && Offsets(totalSize, allocatedBytes, sizes)[i].Some? ==>
      allocatedBytes <= Offsets(totalSize, allocatedBytes, sizes)[i].value &&
      Offsets(totalSize, allocatedBytes, sizes)[i].value + sizes[i] <= totalSize
    ensures forall i, j :: 0 <= i < j < |sizes| ==>
      var o := Offsets(totalSize, allocatedBytes, sizes);
      o[i].Some? && o[j].Some? ==> o[i].value + sizes[i] <= o[j].value
    decreases |sizes|
  {
    if sizes != [] {
      var fits := allocatedBytes + sizes[0] <= totalSize;
      var next := if fits then allocatedBytes + sizes[0] else allocatedBytes;
      OffsetsDisjoint(totalSize, next, sizes[1..]);
      var o := Offsets(totalSize, allocatedBytes, sizes);
      var rest := Offsets(totalSize, next, sizes[1..]);
      assert o == [if fits then Some(allocatedBytes) else None] + rest;
      forall i | 0 < i < |sizes| && o[i].Some?
        ensures next <= o[i].value && o[i].value + sizes[i] <= totalSize
      {
        assert o[i] == rest[i - 1];
      }
    }
  }

  /**
   * Requests of one fixed size fill a buffer of exactly `n` such blocks with
   * no gap: request `i` gets offset `i * blockSize`. When `k` blocks are already
   * in use, the remaining `n - k` requests all succeed.
   */
  lemma {:induction false} FixedSizeFill(blockSize: nat, n: nat, k: nat)
    requires k <= n
    ensures Offsets(n * blockSize, k * blockSize, seq(n - k, _ => blockSize)) ==
      seq(n - k, i => Some((k + i) * blockSize))
    decreases n - k
  {
    if k < n {
      assert (k + 1) * blockSize == k * blockSize + blockSize;
      assert k * blockSize + blockSize <= n * blockSize by {
        assert k + 1 <= n;
        MultiplyMonotone(k + 1, n, blockSize);
      }
      assert seq(n - k, _ => blockSize)[1..] == seq(n - (k + 1), _ => blockSize);
      FixedSizeFill(blockSize, n, k + 1);
      var tail := seq(n - (k + 1), i => Some((k + 1 + i) * blockSize));
      assert seq(n - k, i => Some((k + i) * blockSize)) == [Some(k * blockSize)] + tail;
    }
  }

  lemma MultiplyMonotone(a: nat, b: nat, c: nat)
    requires a <= b
    ensures a * c <= b * c
  {
  }

  /**
   * LinearAllocatorAllocate's step as written: the bounds test and the bump are
   * u64 sums, so `allocated + size` wraps around modulo 2^64.
   */
  function WrappedStep(totalSize: u64, allocatedBytes: u64, size: u64): (Option<nat>, u64)
  {
    if Truncate(allocatedBytes + size, U64Limit) > totalSize then (None, allocatedBytes)
    else (Some(allocatedBytes), Truncate(allocatedBytes + size, U64Limit))
  }

  /** Short of the wrap, the step as written is the step `Offsets` describes. */
  lemma WrappedStepAgrees(totalSize: u64, allocatedBytes: u64, size: u64)
    requires allocatedBytes + size < U64Limit
    ensures WrappedStep(totalSize, allocatedBytes, size).0 == Offsets(totalSize, allocatedBytes, [size])[0]
    ensures WrappedStep(totalSize, allocatedBytes, size).0.Some? ==>
      WrappedStep(totalSize, allocatedBytes, size).1 == allocatedBytes + size
  {
  }

  /**
   * The wrap hands out overlapping blocks. In a 16-byte buffer: 8 bytes at
   * offset 0; then 2^64 - 8 bytes, which pass the test because the sum wraps
   * to 0, at offset 8 and running far past the buffer, with the offset back
   * at 0; then 8 bytes at offset 0 again, the block handed out first.
   */
  lemma WrappedAllocateOverlaps()
    ensures var first := WrappedStep(16, 0, 8);
      var second := WrappedStep(16, first.1, U64Limit - 8);
      var third := WrappedStep(16, second.1, 8);
      first.0 == Some(0) && third.0 == Some(0) &&
      second.0 == Some(8) && 8 + (U64Limit - 8) > 16
  {
  }

  /** Once the buffer is full, one more request of a positive size is refused. */
  lemma OverAllocateRefused(blockSize: nat, n: nat)
    requires blockSize > 0
    ensures Offsets(n * blockSize, n * blockSize, [blockSize]) == [None]
  {
  }

  /** The `linear_allocator` struct. */
  class LinearAllocator {
    var totalSize: u64
    var allocatedBytes: u64
    /** Null when the allocator is not initialised or has been destroyed. */
    var memory: array?<u8>
    var ownsMemory: bool

    ghost predicate Valid()
      reads this
    {
      allocatedBytes <= totalSize && (memory != null ==> totalSize <= memory.Length)
    }

    /** A zeroed struct, the state LinearAllocatorDestroy also leaves behind. */
    constructor ()
      ensures Valid()
      ensures totalSize == 0 && allocatedBytes == 0 && memory == null && !ownsMemory
    {
      totalSize, allocatedBytes, memory, ownsMemory := 0, 0, null, false;
    }

    /**
     * LinearAllocatorCreate: with no caller memory the allocator takes a
     * zero-filled block of `totalSize` bytes from TAllocate under
     * MEMORY_TAG_LINEAR_ALLOCATOR and owns it; otherwise it uses the caller's
     * buffer and does not own it.
     */
    method Create(totalSize: u64, memory: array?<u8>, stats: TMemory.MemoryStats)
      requires memory != null ==> totalSize <= memory.Length
      requires stats.Valid()
      modifies this, stats, stats.tagged
      ensures Valid() && stats.Valid() && stats.tagged == old(stats.tagged)
      ensures this.totalSize == totalSize && allocatedBytes == 0
      ensures ownsMemory <==> memory == null
      ensures memory != null ==> this.memory == memory
      ensures memory != null ==> stats.totalAllocated == old(stats.totalAllocated) && stats.tagged[..] == old(stats.tagged[..])
      ensures memory == null ==> this.memory != null && fresh(this.memory) && this.memory.Length == totalSize
      ensures memory == null ==> forall i :: 0 <= i < totalSize ==> this.memory[i] == 0
      ensures memory == null ==> stats.totalAllocated == old(stats.totalAllocated) + totalSize
      ensures memory == null ==>
        stats.tagged[..] == TMemory.Charged(old(stats.tagged[..]), TMemory.TagLinearAllocator, totalSize)
    {
      this.totalSize := totalSize;
      allocatedBytes := 0;
      ownsMemory := memory == null;
      if memory != null {
        this.memory := memory;
      } else {
        var block, _ := stats.Allocate(totalSize, TMemory.TagLinearAllocator);
        this.memory := block;
      }
    }

    /**
     * LinearAllocatorDestroy: an owned buffer goes back through TFree, a
     * caller's buffer is left alone; either way the struct is zeroed.
     */
    method Destroy(stats: TMemory.MemoryStats) returns (freed: bool)
      requires Valid() && stats.Valid()
      requires ownsMemory && memory != null ==> totalSize <= stats.tagged[TMemory.TagLinearAllocator]
      modifies this, stats, stats.tagged
      ensures Valid() && stats.Valid() && stats.tagged == old(stats.tagged)
      ensures freed <==> old(ownsMemory) && old(memory) != null
      ensures allocatedBytes == 0 && memory == null && totalSize == 0 && !ownsMemory
      ensures freed ==> stats.totalAllocated + old(totalSize) == old(stats.totalAllocated)
      ensures freed ==>
        stats.tagged[..] == TMemory.Refunded(old(stats.tagged[..]), TMemory.TagLinearAllocator, old(totalSize))
      ensures !freed ==> stats.totalAllocated == old(stats.totalAllocated) && stats.tagged[..] == old(stats.tagged[..])
    {
      allocatedBytes := 0;
      freed := ownsMemory && memory != null;
      if freed {
        var _ := stats.Free(totalSize, TMemory.TagLinearAllocator);
      }
      memory := null;
      totalSize := 0;
      ownsMemory := false;
    }

    /**
     * LinearAllocatorAllocate as written: the test and the bump wrap around
     * modulo 2^64, so a huge request can pass and move the offset backwards.
     */
    method AllocateAsWritten(size: u64) returns (block: Option<nat>)
      requires Valid()
      modifies this`allocatedBytes
      ensures Valid()
      ensures memory == null ==> block == None && allocatedBytes == old(allocatedBytes)
      ensures memory != null ==> (block, allocatedBytes) == WrappedStep(totalSize, old(allocatedBytes), size)
      ensures block.None? <==> memory == null || Truncate(old(allocatedBytes) + size, U64Limit) > totalSize
    {
      if memory != null {
        var sum := (allocatedBytes + size) % U64Limit;
        if sum > totalSize {
          return None;
        }
        block := Some(allocatedBytes);
        allocatedBytes := sum;
        return;
      }
      return None;
    }

    /**
     * LinearAllocatorAllocate with a bounds test that cannot wrap (`size` is
     * compared with the bytes remaining): the block at offset `allocatedBytes`
     * (the `allocated` field) when `size` more bytes still fit, else None (as
     * for an allocator with no memory); a refused request changes nothing.
     */
    method Allocate(size: u64) returns (block: Option<nat>)
      requires Valid()
      modifies this`allocatedBytes
      ensures Valid()
      ensures memory == null ==> block == None && allocatedBytes == old(allocatedBytes)
      ensures memory != null ==> [block] == Offsets(totalSize, old(allocatedBytes), [size])
      ensures memory != null && old(allocatedBytes) + size <= totalSize ==>
        block == Some(old(allocatedBytes)) && allocatedBytes == old(allocatedBytes) + size
      ensures memory != null && old(allocatedBytes) + size > totalSize ==>
        block == None && allocatedBytes == old(allocatedBytes)
    {
      if memory != null {
        if size > totalSize - allocatedBytes {
          return None;
        }
        block := Some(allocatedBytes);
        allocatedBytes := allocatedBytes + size;
        return;
      }
      return None;
    }

    /** LinearAllocatorFreeAll: everything is free again and the buffer is zeroed. */
    method FreeAll()
      requires Valid()
      modifies this`allocatedBytes, memory
      ensures Valid()
      ensures old(memory) == null ==> allocatedBytes == old(allocatedBytes)
      ensures memory != null ==> allocatedBytes == 0
      ensures memory != null ==> forall i :: 0 <= i < totalSize ==> memory[i] == 0
      ensures memory != null ==> forall i :: totalSize <= i < memory.Length ==> memory[i] == old(memory[i])
    {
      if memory != null {
        allocatedBytes := 0;
        var i := 0;
        while i < totalSize
          invariant 0 <= i <= totalSize && allocatedBytes == 0
          invariant forall k :: 0 <= k < i ==> memory[k] == 0
          invariant forall k :: totalSize <= k < memory.Length ==> memory[k] == old(memory[k])
        {
          memory[i] := 0;
          i := i + 1;
        }
      }
    }
  }
}
