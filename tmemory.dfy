/**
 * Tagged allocation accounting: a running total of the bytes handed out by
 * TAllocate and not yet returned by TFree, and the same total split by memory
 * tag. The operating-system allocation itself is an array allocation here.
 */
module TMemory {
  import opened Defines

  /** MEMORY_TAG_MAX_TAGS: the number of memory tags. */
  const MaxTags: nat := 18

  type MemoryTag = t: nat | t < MaxTags

  const TagUnknown: MemoryTag := 0
  const TagArray: MemoryTag := 1
  const TagLinearAllocator: MemoryTag := 2
  const TagDArray: MemoryTag := 3
  const TagString: MemoryTag := 7
  const TagRenderer: MemoryTag := 12

  function Sum(s: seq<nat>): nat
  {
    if s == [] then 0 else s[0] + Sum(s[1..])
  }

  /** The per-tag counters after `size` more bytes are charged to `tag`. */
  function Charged(tagged: seq<nat>, tag: MemoryTag, size: nat): (r: seq<nat>)
    requires |tagged| == MaxTags
    ensures |r| == MaxTags && r[tag] == tagged[tag] + size
    ensures forall t :: 0 <= t < MaxTags && t != tag ==> r[t] == tagged[t]
  {
    tagged[tag := tagged[tag] + size]
  }

  /** The per-tag counters after `size` bytes charged to `tag` are given back. */
  function Refunded(tagged: seq<nat>, tag: MemoryTag, size: nat): (r: seq<nat>)
    requires |tagged| == MaxTags && size <= tagged[tag]
    ensures |r| == MaxTags && r[tag] + size == tagged[tag]
    ensures forall t :: 0 <= t < MaxTags && t != tag ==> r[t] == tagged[t]
  {
    tagged[tag := tagged[tag] - size]
  }

  lemma {:induction false} SumUpdate(s: seq<nat>, i: nat, v: nat)
    requires i < |s|
    ensures Sum(s[i := v]) + s[i] == Sum(s) + v
  {
    if i > 0 {
      assert s[i := v][1..] == s[1..][i - 1 := v];
      SumUpdate(s[1..], i - 1, v);
    }
  }

  lemma {:induction false} SumZero(s: seq<nat>)
    requires forall i :: 0 <= i < |s| ==> s[i] == 0
    ensures Sum(s) == 0
  {
    if s != [] {
      SumZero(s[1..]);
    }
  }

  /** Charging a tag raises the sum of all tags by exactly the charge. */
  lemma ChargedSum(tagged: seq<nat>, tag: MemoryTag, size: nat)
    requires |tagged| == MaxTags
    ensures Sum(Charged(tagged, tag, size)) == Sum(tagged) + size
  {
    SumUpdate(tagged, tag, tagged[tag] + size);
  }

  /** A refund lowers the sum of all tags by exactly the refund. */
  lemma RefundedSum(tagged: seq<nat>, tag: MemoryTag, size: nat)
    requires |tagged| == MaxTags && size <= tagged[tag]
    ensures Sum(Refunded(tagged, tag, size)) + size == Sum(tagged)
  {
    SumUpdate(tagged, tag, tagged[tag] - size);
  }

  /** TFree after TAllocate of the same size and tag restores the counters exactly. */
  lemma RefundUndoesCharge(tagged: seq<nat>, tag: MemoryTag, size: nat)
    requires |tagged| == MaxTags
    ensures Refunded(Charged(tagged, tag, size), tag, size) == tagged
  {
  }

  /** The static `stats` record. */
  class MemoryStats {
    var totalAllocated: nat
    /** taggedAllocations, one counter per memory tag. */
    var tagged: array<nat>

    /** The total is always the sum of the per-tag counters. */
    ghost predicate Valid()
      reads this, tagged
    {
      tagged.Length == MaxTags && totalAllocated == Sum(tagged[..])
    }

    /** The zero-initialised static storage. */
    constructor ()
      ensures Valid() && fresh(tagged)
      ensures totalAllocated == 0 && tagged[..] == seq(MaxTags, _ => 0)
    {
      totalAllocated := 0;
      var counters := new nat[MaxTags](_ => 0);
      assert counters[..] == seq(MaxTags, _ => 0);
      SumZero(counters[..]);
      tagged := counters;
    }

    /** InitializeMemory: zero the total and every tag counter. */
    method Initialize()
      requires tagged.Length == MaxTags
      modifies this, tagged
      ensures Valid() && tagged == old(tagged)
      ensures totalAllocated == 0 && tagged[..] == seq(MaxTags, _ => 0)
    {
      totalAllocated := 0;
      var t := 0;
      while t < MaxTags
        invariant tagged == old(tagged) && totalAllocated == 0
        invariant 0 <= t <= MaxTags
        invariant forall k :: 0 <= k < t ==> tagged[k] == 0
      {
        tagged[t] := 0;
        t := t + 1;
      }
      assert tagged[..] == seq(MaxTags, _ => 0);
      SumZero(tagged[..]);
    }

    /**
     * TAllocate: charge `size` bytes to the total and to `tag`, and hand out a
     * zero-filled block. MEMORY_TAG_UNKNOWN only draws a warning (`warned`);
     * it is counted like any other tag.
     */
    method Allocate(size: nat, tag: MemoryTag) returns (block: array<u8>, warned: bool)
      requires Valid()
      modifies this, tagged
      ensures Valid() && tagged == old(tagged)
      ensures totalAllocated == old(totalAllocated) + size
      ensures tagged[..] == Charged(old(tagged[..]), tag, size)
      ensures fresh(block) && block.Length == size
      ensures forall i :: 0 <= i < size ==> block[i] == 0
      ensures warned <==> tag == TagUnknown
    {
      warned := tag == TagUnknown;
      ChargedSum(tagged[..], tag, size);
      totalAllocated := totalAllocated + size;
      tagged[tag] := tagged[tag] + size;
      block := new u8[size](_ => 0);
    }

    /**
     * TFree: give `size` bytes back to the total and to `tag`. The counters are
     * unsigned 64-bit in C and would wrap, so the caller may not free more than
     * is charged to that tag.
     */
    method Free(size: nat, tag: MemoryTag) returns (warned: bool)
      requires Valid() && size <= tagged[tag]
      modifies this, tagged
      ensures Valid() && tagged == old(tagged)
      ensures totalAllocated + size == old(totalAllocated)
      ensures tagged[..] == Refunded(old(tagged[..]), tag, size)
      ensures warned <==> tag == TagUnknown
    {
      warned := tag == TagUnknown;
      RefundedSum(tagged[..], tag, size);
      totalAllocated := totalAllocated - size;
      tagged[tag] := tagged[tag] - size;
    }
  }
}
