/** The linear (bump) allocator of linear_allocator.cpp: one owned buffer
    and an offset that only allocate moves forward and reset moves back to 0.

    The buffer comes from util.hpp's `aligned_alloc`, whose outcome is a
    parameter; `aligned_free` is represented by returning the address it
    would be given. */
module Linear {
  import opened Util

  /** The outcome of one allocate call: what it returns and the new offset. */
  datatype Step = Step(result: Result<nat>, offset: nat)

  /** Bytes skipped so that `addr + padding` is aligned. */
  function Padding(alignment: nat, addr: nat): (p: nat)
    requires IsPowerOfTwo(alignment)
    ensures p < alignment && (addr + p) % alignment == 0
  {
    AlignForwardNoCheck(alignment, addr) - addr
  }

  /** An address that is already aligned needs no padding. */
  lemma PaddingOfAligned(alignment: nat, addr: nat)
    requires IsPowerOfTwo(alignment) && addr % alignment == 0
    ensures Padding(alignment, addr) == 0
  {
    AlignForwardFixedPoint(alignment, addr);
  }

  /** The padding depends only on the offset from an aligned base. */
  lemma PaddingShift(alignment: nat, base: nat, offset: nat)
    requires IsPowerOfTwo(alignment) && base % alignment == 0
    ensures Padding(alignment, base + offset) == Padding(alignment, offset)
  {
    AlignForwardShift(alignment, base, offset);
  }

  /** linear_allocator::allocate(alignment, size) on a buffer at `base` of
      `capacity` bytes whose first `offset` bytes are in use. */
  function Allocation(base: nat, capacity: nat, offset: nat, alignment: nat, size: nat): (s: Step)
    ensures s.result == Err(AlignmentError) <==> !IsPowerOfTwo(alignment)
    ensures s.result.Err? ==> s.offset == offset
    ensures IsPowerOfTwo(alignment) ==>
              (s.result.Ok? <==> offset + Padding(alignment, base + offset) + size <= capacity)
    ensures IsPowerOfTwo(alignment) && s.result.Err? ==> s.result == Err(BadAlloc)
    ensures s.result.Ok? ==>
              && IsPowerOfTwo(alignment)
              && s.result.value % alignment == 0
              && base + offset <= s.result.value < base + offset + alignment
              && s.offset == offset + Padding(alignment, base + offset) + size
              && s.result.value + size == base + s.offset
    ensures offset <= capacity ==> s.offset <= capacity
  {
    if !IsPowerOfTwo(alignment) then
      Step(Err(AlignmentError), offset)
    else
      var aligned := AlignForwardNoCheck(alignment, base + offset);
      var padding := aligned - (base + offset);
      if offset + padding + size > capacity then
        Step(Err(BadAlloc), offset)
      else
        Step(Ok(aligned), offset + padding + size)
  }

  /** The same call with the capacity test and the offset update evaluated
      as the C++ evaluates them, in 64-bit std::size_t arithmetic
      (linear_allocator.cpp:70 and 73); every argument is a std::size_t. */
  function AllocationAsWritten(base: nat, capacity: nat, offset: nat, alignment: nat, size: nat): Step
    requires offset < WORD_LIMIT && alignment < WORD_LIMIT && size < WORD_LIMIT
  {
    if !IsPowerOfTwo(alignment) then
      Step(Err(AlignmentError), offset)
    else
      var padding := Padding(alignment, base + offset);
      var end := WordAdd(WordAdd(offset, padding), size);
      if end > capacity then
        Step(Err(BadAlloc), offset)
      else
        Step(Ok(base + offset + padding), end)
  }

  /** A request of SIZE_MAX bytes at offset 1 of a 64-byte buffer wraps the
      sum to 0: the written code hands out base + 1 and moves the offset back
      to 0, where the intended test refuses the request. */
  lemma AllocationAsWrittenWraps()
    ensures AllocationAsWritten(16, 64, 1, 1, WORD_LIMIT - 1) == Step(Ok(17), 0)
    ensures Allocation(16, 64, 1, 1, WORD_LIMIT - 1) == Step(Err(BadAlloc), 1)
  {
    PaddingOfAligned(1, 17);
  }

  /** Whenever the sum fits in a std::size_t, the written code and the model agree. */
  lemma AllocationAsWrittenAgrees(base: nat, capacity: nat, offset: nat, alignment: nat, size: nat)
    requires offset < WORD_LIMIT && alignment < WORD_LIMIT && size < WORD_LIMIT
    requires offset + alignment + size <= WORD_LIMIT
    ensures AllocationAsWritten(base, capacity, offset, alignment, size) == Allocation(base, capacity, offset, alignment, size)
  {
  }

  /** With a buffer aligned to MAX_ALIGN, default-aligned requests of 13, 13
      and 37 bytes leave the offset at 13, 29 and 69, and each returned
      address is MAX_ALIGN-aligned. */
  lemma DefaultAllocationSequence(base: nat)
    requires base % MAX_ALIGN == 0
    ensures Allocation(base, 128, 0, MAX_ALIGN, 13) == Step(Ok(base), 13)
    ensures Allocation(base, 128, 13, MAX_ALIGN, 13) == Step(Ok(base + 16), 29)
    ensures Allocation(base, 128, 29, MAX_ALIGN, 37) == Step(Ok(base + 32), 69)
  {
    assert IsPowerOfTwo(MAX_ALIGN);
    PaddingOfAligned(MAX_ALIGN, base);
    PaddingShift(MAX_ALIGN, base, 13);
    PaddingShift(MAX_ALIGN, base, 29);
    AlignForwardUnique(MAX_ALIGN, 13, 16);
    AlignForwardUnique(MAX_ALIGN, 29, 32);
  }

  /** Explicit alignments: (1, 10), (16, 20), (4, 4) leave the offset at 10,
      36 and 40. */
  lemma ExplicitAllocationSequence(base: nat)
    requires base % MAX_ALIGN == 0
    ensures Allocation(base, 128, 0, 1, 10) == Step(Ok(base), 10)
    ensures Allocation(base, 128, 10, 16, 20) == Step(Ok(base + 16), 36)
    ensures Allocation(base, 128, 36, 4, 4) == Step(Ok(base + 36), 40)
  {
    assert IsPowerOfTwo(16) && IsPowerOfTwo(4);
    PaddingOfAligned(1, base);
    PaddingShift(16, base, 10);
    AlignForwardUnique(16, 10, 16);
    MultipleTransitive(base, 16, 4);
    MultipleSum(base, 36, 4);
    PaddingOfAligned(4, base + 36);
  }

  class LinearAllocator {
    /** Start of the owned buffer; 0 once moved from. */
    var buffer: nat
    var bufferSize: nat
    var bufferOffset: nat

    /** The offset never passes the end of the buffer. */
    predicate Valid()
      reads this
    {
      bufferOffset <= bufferSize
    }

    /** The private constructor linear_allocator(buffer, buffer_size, buffer_offset). */
    constructor (buffer: nat, bufferSize: nat, bufferOffset: nat)
      ensures this.buffer == buffer && this.bufferSize == bufferSize && this.bufferOffset == bufferOffset
    {
      this.buffer := buffer;
      this.bufferSize := bufferSize;
      this.bufferOffset := bufferOffset;
    }

    /** create(alignment, size): `region` is the outcome of
        aligned_alloc(alignment, size); its error is passed on unchanged. */
    static method Create(alignment: nat, size: nat, region: Result<nat>) returns (r: Result<LinearAllocator>)
      ensures region.Err? ==> r == Err(region.error)
      ensures region.Ok? ==> r.Ok? && fresh(r.value) && r.value.Valid()
      ensures region.Ok? ==>
                r.value.buffer == region.value && r.value.bufferSize == size && r.value.bufferOffset == 0
    {
      if region.Err? {
        return Err(region.error);
      }
      var a := new LinearAllocator(region.value, size, 0);
      r := Ok(a);
    }

    /** create(size): create with alignof(std::max_align_t); `region` is
        the outcome of aligned_alloc(MAX_ALIGN, size). */
    static method CreateDefault(size: nat, region: Result<nat>) returns (r: Result<LinearAllocator>)
      ensures region.Err? ==> r == Err(region.error)
      ensures region.Ok? ==> r.Ok? && fresh(r.value) && r.value.Valid()
      ensures region.Ok? ==>
                r.value.buffer == region.value && r.value.bufferSize == size && r.value.bufferOffset == 0
    {
      r := Create(MAX_ALIGN, size, region);
    }

    /** The move constructor: the new allocator takes every field and the
        source is left empty. */
    constructor Move(other: LinearAllocator)
      modifies other
      ensures buffer == old(other.buffer) && bufferSize == old(other.bufferSize)
      ensures bufferOffset == old(other.bufferOffset)
      ensures other.buffer == 0 && other.bufferSize == 0 && other.bufferOffset == 0
    {
      buffer := other.buffer;
      bufferSize := other.bufferSize;
      bufferOffset := other.bufferOffset;
      new;
      other.buffer := 0;
      other.bufferSize := 0;
      other.bufferOffset := 0;
    }

    /** Move assignment: release the own buffer (its address is `released`,
        0 when there was none), take the other's fields, empty the other.
        Self-assignment changes nothing. */
    method MoveAssign(other: LinearAllocator) returns (released: nat)
      modifies this, other
      ensures other == this ==> released == 0 && unchanged(this)
      ensures other != this ==> released == old(buffer)
      ensures other != this ==>
                && buffer == old(other.buffer) && bufferSize == old(other.bufferSize)
                && bufferOffset == old(other.bufferOffset)
                && other.buffer == 0 && other.bufferSize == 0 && other.bufferOffset == 0
    {
      released := 0;
      if this != other {
        if buffer != 0 {
          released := buffer;
          buffer := 0;
        }
        buffer := other.buffer;
        other.buffer := 0;
        bufferSize := other.bufferSize;
        other.bufferSize := 0;
        bufferOffset := other.bufferOffset;
        other.bufferOffset := 0;
      }
    }

    /** The destructor: release the buffer (if any) and zero every field. */
    method Destroy() returns (released: nat)
      modifies this
      ensures released == old(buffer)
      ensures buffer == 0 && bufferSize == 0 && bufferOffset == 0
    {
      released := 0;
      if buffer != 0 {
        released := buffer;
        buffer := 0;
      }
      bufferSize := 0;
      bufferOffset := 0;
    }

    /** allocate(alignment, size): Allocation applied to the current state. */
    method Allocate(alignment: nat, size: nat) returns (r: Result<nat>)
      requires Valid()
      modifies this
      ensures Valid() && buffer == old(buffer) && bufferSize == old(bufferSize)
      ensures Step(r, bufferOffset) == Allocation(buffer, bufferSize, old(bufferOffset), alignment, size)
    {
      if !IsPowerOfTwo(alignment) {
        return Err(AlignmentError);
      }
      var offsetAddr := buffer + bufferOffset;
      var alignedAddr := AlignForwardNoCheck(alignment, offsetAddr);
      var padding := alignedAddr - offsetAddr;
      if bufferOffset + padding + size > bufferSize {
        return Err(BadAlloc);
      }
      bufferOffset := bufferOffset + padding + size;
      r := Ok(alignedAddr);
    }

    /** allocate(size): allocate with alignof(std::max_align_t). */
    method AllocateDefault(size: nat) returns (r: Result<nat>)
      requires Valid()
      modifies this
      ensures Valid() && buffer == old(buffer) && bufferSize == old(bufferSize)
      ensures Step(r, bufferOffset) == Allocation(buffer, bufferSize, old(bufferOffset), MAX_ALIGN, size)
    {
      r := Allocate(MAX_ALIGN, size);
    }

    /** reset(): the whole buffer is free again; nothing else changes. */
    method Reset()
      modifies this
      ensures bufferOffset == 0 && buffer == old(buffer) && bufferSize == old(bufferSize)
    {
      bufferOffset := 0;
    }

    /** buffer_size() */
    function BufferSize(): nat
      reads this
    {
      bufferSize
    }

    /** buffer_offset(): the bytes in use, never more than the buffer holds. */
    function BufferOffset(): (n: nat)
      reads this
      requires Valid()
      ensures n <= BufferSize()
    {
      bufferOffset
    }
  }

  /** The scenario of the move tests: a fresh 64-byte allocator, one 24-byte
      allocation, then a move that carries size 64 and offset 24 across and
      leaves the source at 0 and 0. */
  method MoveAfterAllocate(base: nat) returns (size: nat, offset: nat, sourceSize: nat, sourceOffset: nat)
    requires base % MAX_ALIGN == 0
    ensures size == 64 && offset == 24 && sourceSize == 0 && sourceOffset == 0
  {
    var a := new LinearAllocator(base, 64, 0);
    var r := a.AllocateDefault(24);
    assert IsPowerOfTwo(MAX_ALIGN);
    AlignForwardFixedPoint(MAX_ALIGN, base);
    var b := new LinearAllocator.Move(a);
    size, offset := b.BufferSize(), b.BufferOffset();
    sourceSize, sourceOffset := a.BufferSize(), a.BufferOffset();
  }
}
