/** The stack allocator of stack_allocator.cpp: a bump allocator over a
    borrowed buffer that writes a small header (the padding in front of the
    payload) just below every payload, so that free can put the offset back
    where it was before that allocation.

    The header words are kept in `headers`, by address; the ghost `frames`
    record the live allocations, oldest first, with the offset each one
    started from. */
module Stack {
  import opened Util

  /** sizeof(alloc_header) and alignof(alloc_header): one std::size_t. */
  const HEADER_SIZE: nat := 8
  const HEADER_ALIGN: nat := 8

  /** The alignment actually used: at least alignof(alloc_header). */
  function StackAlignment(alignment: nat): (a: nat)
    requires IsPowerOfTwo(alignment)
    ensures IsPowerOfTwo(a) && a >= HEADER_ALIGN && a >= alignment
    ensures a % alignment == 0 && a % HEADER_ALIGN == 0
  {
    assert IsPowerOfTwo(HEADER_ALIGN);
    MaxOfPowersOfTwo(HEADER_ALIGN, alignment);
    Max(HEADER_ALIGN, alignment)
  }

  /** The outcome of one allocate call: what it returns, the padding stored
      in the header, and the new offset. */
  datatype Push = Push(result: Result<nat>, padding: nat, offset: nat)

  /** Bytes from `addr` to a payload aligned to StackAlignment(alignment)
      with room for a header in front of it. */
  function HeaderedPadding(alignment: nat, addr: nat): (p: nat)
    requires IsPowerOfTwo(alignment)
    ensures HEADER_SIZE <= p < HEADER_SIZE + StackAlignment(alignment)
    ensures (addr + p) % StackAlignment(alignment) == 0
  {
    AlignForwardNoCheck(StackAlignment(alignment), addr + HEADER_SIZE) - addr
  }

  /** stack_allocator::allocate(alignment, size) on a buffer at `base` of
      `capacity` bytes whose first `offset` bytes are in use. */
  function Placement(base: nat, capacity: nat, offset: nat, alignment: nat, size: nat): (p: Push)
    ensures p.result == Err(AlignmentError) <==> !IsPowerOfTwo(alignment)
    ensures p.result.Err? ==> p.offset == offset
    ensures IsPowerOfTwo(alignment) ==>
              (p.result.Ok? <==> offset + HeaderedPadding(alignment, base + offset) + size <= capacity)
    ensures IsPowerOfTwo(alignment) && p.result.Err? ==> p.result == Err(OutOfCapacity)
    ensures p.result.Ok? ==>
              && IsPowerOfTwo(alignment)
              && p.padding == HeaderedPadding(alignment, base + offset)
              && p.result.value == base + offset + p.padding
              && p.result.value % alignment == 0
              && p.result.value % HEADER_ALIGN == 0
              && base + offset + HEADER_SIZE <= p.result.value
              && p.offset == offset + p.padding + size
              && p.offset <= capacity
  {
    if !IsPowerOfTwo(alignment) then
      Push(Err(AlignmentError), 0, offset)
    else
      var a := StackAlignment(alignment);
      var offsetAddr := base + offset;
      var alignedAddr := AlignForwardNoCheck(a, offsetAddr + HEADER_SIZE);
      var padding := alignedAddr - offsetAddr;
      if offset + padding + size > capacity then
        Push(Err(OutOfCapacity), 0, offset)
      else
        MultipleTransitive(alignedAddr, a, alignment);
        MultipleTransitive(alignedAddr, a, HEADER_ALIGN);
        Push(Ok(alignedAddr), padding, offset + padding + size)
  }

  /** The offset free computes from a payload address and its header. */
  function Unwind(ptr: nat, padding: nat, base: nat): int
  {
    ptr - padding - base
  }

  /** Freeing what allocate returned puts the offset back where it was. */
  lemma UnwindUndoesPlacement(base: nat, capacity: nat, offset: nat, alignment: nat, size: nat)
    requires Placement(base, capacity, offset, alignment, size).result.Ok?
    ensures var p := Placement(base, capacity, offset, alignment, size);
              Unwind(p.result.value, p.padding, base) == offset
  {
    var p := Placement(base, capacity, offset, alignment, size);
    assert p.result.value == base + offset + p.padding;
  }

  /** The same call with the capacity test and the offset update in 64-bit
      std::size_t arithmetic (stack_allocator.cpp:67 and 75). */
  function PlacementAsWritten(base: nat, capacity: nat, offset: nat, alignment: nat, size: nat): Push
    requires offset < WORD_LIMIT && alignment < WORD_LIMIT && size < WORD_LIMIT
  {
    if !IsPowerOfTwo(alignment) then
      Push(Err(AlignmentError), 0, offset)
    else
      var padding := HeaderedPadding(alignment, base + offset);
      var end := WordAdd(WordAdd(offset, padding), size);
      if end > capacity then
        Push(Err(OutOfCapacity), 0, offset)
      else
        Push(Ok(base + offset + padding), padding, WordAdd(offset, WordAdd(padding, size)))
  }

  /** A MAX_ALIGN-aligned payload sits 16 bytes into an empty MAX_ALIGN-aligned buffer. */
  lemma PaddingAtAlignedBase(base: nat)
    requires base % MAX_ALIGN == 0
    ensures HeaderedPadding(MAX_ALIGN, base) == 16
  {
    assert IsPowerOfTwo(MAX_ALIGN);
    AlignForwardShift(MAX_ALIGN, base, HEADER_SIZE);
    AlignForwardUnique(MAX_ALIGN, HEADER_SIZE, 16);
  }

  /** A request of SIZE_MAX - 15 bytes into an empty 64-byte buffer wraps
      the sum to 0: the written code hands out base + 16 and leaves the
      offset at 0, where the intended test refuses the request. */
  lemma PlacementAsWrittenWraps(base: nat)
    requires base % MAX_ALIGN == 0
    ensures PlacementAsWritten(base, 64, 0, MAX_ALIGN, WORD_LIMIT - 16) == Push(Ok(base + 16), 16, 0)
    ensures Placement(base, 64, 0, MAX_ALIGN, WORD_LIMIT - 16).result == Err(OutOfCapacity)
  {
    PaddingAtAlignedBase(base);
  }

  /** Whenever the sums fit in a std::size_t, the written code and the model agree. */
  lemma PlacementAsWrittenAgrees(base: nat, capacity: nat, offset: nat, alignment: nat, size: nat)
    requires offset < WORD_LIMIT && alignment < WORD_LIMIT && size < WORD_LIMIT
    requires IsPowerOfTwo(alignment) ==> offset + HEADER_SIZE + StackAlignment(alignment) + size <= WORD_LIMIT
    ensures PlacementAsWritten(base, capacity, offset, alignment, size) == Placement(base, capacity, offset, alignment, size)
  {
  }

  /** Default-aligned requests of 30, 38 and 60 bytes into a 128-byte
      MAX_ALIGN-aligned buffer: payloads 16 and 64 bytes in, offsets 46 and
      102, the third out of capacity; freeing unwinds to 46, then 0. */
  lemma DefaultPlacementSequence(base: nat)
    requires base % MAX_ALIGN == 0
    ensures Placement(base, 128, 0, MAX_ALIGN, 30) == Push(Ok(base + 16), 16, 46)
    ensures Placement(base, 128, 46, MAX_ALIGN, 38) == Push(Ok(base + 64), 18, 102)
    ensures Placement(base, 128, 102, MAX_ALIGN, 60).result == Err(OutOfCapacity)
    ensures Unwind(base + 64, 18, base) == 46 && Unwind(base + 16, 16, base) == 0
  {
    assert IsPowerOfTwo(MAX_ALIGN);
    PaddingAtAlignedBase(base);
    AlignForwardShift(MAX_ALIGN, base, 54);
    AlignForwardUnique(MAX_ALIGN, 54, 64);
    AlignForwardShift(MAX_ALIGN, base, 110);
    AlignForwardUnique(MAX_ALIGN, 110, 112);
  }

  /** Byte-aligned requests (alignment 1, raised to the header's 8) of 30,
      38 and 60 bytes: payloads 8 and 48 bytes in, offsets 38 and 86, the
      third out of capacity; freeing unwinds to 38, then 0; and 256 bytes
      never fit in 128. */
  lemma BytePlacementSequence(base: nat)
    requires base % MAX_ALIGN == 0
    ensures Placement(base, 128, 0, 1, 30) == Push(Ok(base + 8), 8, 38)
    ensures Placement(base, 128, 38, 1, 38) == Push(Ok(base + 48), 10, 86)
    ensures Placement(base, 128, 86, 1, 60).result == Err(OutOfCapacity)
    ensures Unwind(base + 48, 10, base) == 38 && Unwind(base + 8, 8, base) == 0
    ensures Placement(base, 128, 0, 1, 256).result == Err(OutOfCapacity)
  {
    assert IsPowerOfTwo(1) && IsPowerOfTwo(HEADER_ALIGN);
    assert StackAlignment(1) == HEADER_ALIGN;
    MultipleTransitive(base, MAX_ALIGN, HEADER_ALIGN);
    AlignForwardShift(HEADER_ALIGN, base, 8);
    AlignForwardUnique(HEADER_ALIGN, 8, 8);
    AlignForwardShift(HEADER_ALIGN, base, 46);
    AlignForwardUnique(HEADER_ALIGN, 46, 48);
    AlignForwardShift(HEADER_ALIGN, base, 94);
    AlignForwardUnique(HEADER_ALIGN, 94, 96);
  }

  /** One live allocation: its payload address and the offset it started at. */
  datatype Frame = Frame(ptr: nat, before: nat)

  /** The buffer size the constructor stores as written: it initialises the
      member from itself, so the value is whatever `indeterminate` was. */
  function ConstructedSizeAsWritten(bufferSize: nat, indeterminate: nat): nat
  {
    indeterminate
  }

  /** With the self-initialised size an allocator over 128 bytes can refuse
      a 30-byte request that the intended size accepts. */
  lemma ConstructedSizeAsWrittenLosesCapacity(base: nat)
    requires base % MAX_ALIGN == 0
    ensures ConstructedSizeAsWritten(128, 0) != 128
    ensures Placement(base, ConstructedSizeAsWritten(128, 0), 0, MAX_ALIGN, 30).result == Err(OutOfCapacity)
    ensures Placement(base, 128, 0, MAX_ALIGN, 30).result.Ok?
  {
    DefaultPlacementSequence(base);
  }

  /** A live frame's header is in place and holds the distance back to
      where the frame started. */
  ghost predicate HeaderHolds(buffer: nat, headers: map<nat, nat>, f: Frame)
  {
    && buffer + f.before + HEADER_SIZE <= f.ptr
    && f.ptr - HEADER_SIZE in headers
    && headers[f.ptr - HEADER_SIZE] == f.ptr - buffer - f.before
  }

  /** The stack discipline of a buffer at `buffer` of `size` bytes with
      `offset` in use: every live frame's header holds, every frame lies
      below the offset, and each frame lies below where every later one
      started. */
  ghost predicate Layout(buffer: nat, size: nat, offset: nat, headers: map<nat, nat>, frames: seq<Frame>)
  {
    && offset <= size
    && (forall i :: 0 <= i < |frames| ==> HeaderHolds(buffer, headers, frames[i]))
    && (forall i :: 0 <= i < |frames| ==> frames[i].ptr <= buffer + offset)
    && (forall i, j :: 0 <= i < j < |frames| ==> frames[i].ptr <= buffer + frames[j].before)
  }

  /** Writing the header of a new frame above the offset keeps the
      discipline: no older header is overwritten. */
  lemma LayoutPush(buffer: nat, size: nat, offset: nat, headers: map<nat, nat>, frames: seq<Frame>,
                   padding: nat, newOffset: nat)
    requires Layout(buffer, size, offset, headers, frames)
    requires padding >= HEADER_SIZE && offset + padding <= newOffset <= size
    ensures Layout(buffer, size, newOffset, headers[buffer + offset + padding - HEADER_SIZE := padding],
                   frames + [Frame(buffer + offset + padding, offset)])
  {
    var ptr := buffer + offset + padding;
    var headers' := headers[ptr - HEADER_SIZE := padding];
    var frames' := frames + [Frame(ptr, offset)];
    forall i | 0 <= i < |frames'|
      ensures HeaderHolds(buffer, headers', frames'[i])
    {
      if i < |frames| {
        assert frames'[i] == frames[i] && HeaderHolds(buffer, headers, frames[i]);
        assert frames[i].ptr - HEADER_SIZE != ptr - HEADER_SIZE;
      }
    }
  }

  /** Unwinding to a live frame: its header tells how far back it started,
      and dropping it and every later frame keeps the discipline. */
  lemma LayoutPop(buffer: nat, size: nat, offset: nat, headers: map<nat, nat>, frames: seq<Frame>, i: nat)
    requires Layout(buffer, size, offset, headers, frames) && i < |frames|
    ensures frames[i].ptr - HEADER_SIZE in headers
    ensures frames[i].ptr - headers[frames[i].ptr - HEADER_SIZE] - buffer == frames[i].before
    ensures frames[i].before < offset
    ensures Layout(buffer, size, frames[i].before, headers, frames[..i])
  {
    assert HeaderHolds(buffer, headers, frames[i]);
  }

  class StackAllocator {
    /** Start of the borrowed buffer; 0 once moved from. */
    var buffer: nat
    var bufferSize: nat
    var bufferOffset: nat
    /** The alloc_header words written into the buffer, by address. */
    var headers: map<nat, nat>
    /** The live allocations, oldest first. */
    ghost var frames: seq<Frame>

    ghost predicate Valid()
      reads this
    {
      Layout(buffer, bufferSize, bufferOffset, headers, frames)
    }

    /** The private constructor stack_allocator(buffer, buffer_size,
        buffer_offset), with the size taken from its parameter. */
    constructor (buffer: nat, bufferSize: nat, bufferOffset: nat)
      requires bufferOffset <= bufferSize
      ensures this.buffer == buffer && this.bufferSize == bufferSize && this.bufferOffset == bufferOffset
      ensures headers == map[] && frames == [] && Valid()
    {
      this.buffer := buffer;
      this.bufferSize := bufferSize;
      this.bufferOffset := bufferOffset;
      headers := map[];
      frames := [];
    }

    /** The move constructor: every field moves across; the source is left
        empty. */
    constructor Move(other: StackAllocator)
      requires other.Valid()
      modifies other
      ensures buffer == old(other.buffer) && bufferSize == old(other.bufferSize)
      ensures bufferOffset == old(other.bufferOffset)
      ensures headers == old(other.headers) && frames == old(other.frames) && Valid()
      ensures other.buffer == 0 && other.bufferSize == 0 && other.bufferOffset == 0
      ensures other.frames == [] && other.Valid()
    {
      buffer := other.buffer;
      bufferSize := other.bufferSize;
      bufferOffset := other.bufferOffset;
      headers := other.headers;
      frames := other.frames;
      new;
      other.buffer := 0;
      other.bufferSize := 0;
      other.bufferOffset := 0;
      other.headers := map[];
      other.frames := [];
    }

    /** Move assignment: take the other's fields and empty it; the buffer
        this allocator used is not released (it is borrowed). Self-assignment
        changes nothing. */
    method MoveAssign(other: StackAllocator)
      requires other.Valid()
      modifies this, other
      ensures other == this ==> unchanged(this)
      ensures other != this ==>
                && buffer == old(other.buffer) && bufferSize == old(other.bufferSize)
                && bufferOffset == old(other.bufferOffset)
                && headers == old(other.headers) && frames == old(other.frames)
                && other.buffer == 0 && other.bufferSize == 0 && other.bufferOffset == 0
                && other.frames == []
      ensures Valid() && other.Valid()
    {
      if this != other {
        buffer := other.buffer;
        other.buffer := 0;
        bufferSize := other.bufferSize;
        other.bufferSize := 0;
        bufferOffset := other.bufferOffset;
        other.bufferOffset := 0;
        headers := other.headers;
        other.headers := map[];
        frames := other.frames;
        other.frames := [];
      }
    }

    /** The destructor: zero every field; the buffer is not released. */
    method Destroy()
      modifies this
      ensures buffer == 0 && bufferSize == 0 && bufferOffset == 0 && frames == [] && Valid()
    {
      buffer := 0;
      bufferSize := 0;
      bufferOffset := 0;
      headers := map[];
      frames := [];
    }

    /** allocate(alignment, size): Placement applied to the current state;
        on success the header is written just below the payload and a new
        frame is live. */
    method Allocate(alignment: nat, size: nat) returns (r: Result<nat>)
      requires Valid()
      modifies this
      ensures Valid() && buffer == old(buffer) && bufferSize == old(bufferSize)
      ensures var p := Placement(buffer, bufferSize, old(bufferOffset), alignment, size);
                r == p.result && bufferOffset == p.offset
                && (r.Err? ==> headers == old(headers) && frames == old(frames))
                && (r.Ok? ==>
                      && headers == old(headers)[r.value - HEADER_SIZE := p.padding]
                      && frames == old(frames) + [Frame(r.value, old(bufferOffset))])
    {
      if !IsPowerOfTwo(alignment) {
        return Err(AlignmentError);
      }
      var a := StackAlignment(alignment);
      var offsetAddr := buffer + bufferOffset;
      var targetAddr := offsetAddr + HEADER_SIZE;
      var alignedAddr := AlignForwardNoCheck(a, targetAddr);
      var padding := alignedAddr - offsetAddr;
      if bufferOffset + padding + size > bufferSize {
        return Err(OutOfCapacity);
      }
      LayoutPush(buffer, bufferSize, bufferOffset, headers, frames, padding, bufferOffset + padding + size);
      headers := headers[alignedAddr - HEADER_SIZE := padding];
      frames := frames + [Frame(alignedAddr, bufferOffset)];
      bufferOffset := bufferOffset + padding + size;
      r := Ok(alignedAddr);
    }

    /** allocate(size): allocate with alignof(std::max_align_t). */
    method AllocateDefault(size: nat) returns (r: Result<nat>)
      requires Valid()
      modifies this
      ensures Valid() && buffer == old(buffer) && bufferSize == old(bufferSize)
      ensures var p := Placement(buffer, bufferSize, old(bufferOffset), MAX_ALIGN, size);
                r == p.result && bufferOffset == p.offset
                && (r.Err? ==> headers == old(headers) && frames == old(frames))
                && (r.Ok? ==>
                      && headers == old(headers)[r.value - HEADER_SIZE := p.padding]
                      && frames == old(frames) + [Frame(r.value, old(bufferOffset))])
    {
      r := Allocate(MAX_ALIGN, size);
    }

    /** free(ptr): nullptr is ignored; otherwise the header below `ptr` says
        how far back the frame started, and the offset returns there, which
        also releases every allocation made after it. */
    method Free(ptr: nat)
      requires Valid()
      requires ptr != 0 ==> exists i :: 0 <= i < |frames| && frames[i].ptr == ptr
      modifies this
      ensures Valid() && buffer == old(buffer) && bufferSize == old(bufferSize) && headers == old(headers)
      ensures ptr == 0 ==> bufferOffset == old(bufferOffset) && frames == old(frames)
      ensures ptr != 0 ==>
                exists i :: 0 <= i < |old(frames)| && old(frames)[i].ptr == ptr
                  && bufferOffset == old(frames)[i].before && frames == old(frames)[..i]
    {
      if ptr == 0 {
        return;
      }
      ghost var i :| 0 <= i < |frames| && frames[i].ptr == ptr;
      LayoutPop(buffer, bufferSize, bufferOffset, headers, frames, i);
      var padding := headers[ptr - HEADER_SIZE];
      bufferOffset := ptr - padding - buffer;
      frames := frames[..i];
    }

    /** buffer_size() */
    function BufferSize(): nat
      reads this
    {
      bufferSize
    }

    /** buffer_offset(): the bytes in use, never more than the buffer holds. */
    function BufferOffset(): (n: nat)
      reads this
      requires Valid()
      ensures n <= BufferSize()
    {
      bufferOffset
    }

    /** An allocation followed by freeing what it returned leaves the offset
        and the live frames as they were. */
    method AllocateThenFree(alignment: nat, size: nat) returns (r: Result<nat>)
      requires Valid()
      modifies this
      ensures Valid() && bufferOffset == old(bufferOffset) && frames == old(frames)
    {
      r := Allocate(alignment, size);
      if r.Ok? {
        assert frames[|frames| - 1].ptr == r.value;
        Free(r.value);
        assert frames == old(frames) by {
          assert forall k :: 0 <= k < |frames| ==> frames[k].ptr < r.value;
        }
      }
    }
  }
}
