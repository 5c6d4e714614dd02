/** The pointer-stash aligned allocation of util.cpp.

    `std::malloc` and `std::free` are not modelled: each allocating call
    takes `block`, the address that malloc returned for the request
    (0 when it failed), and `AlignedFree` returns the address it hands to
    `std::free`. The only memory the code itself writes is the
    pointer-sized word stored just below each aligned payload; the class
    `Heap` holds those words, by address. */
module AlignedMalloc {
  import opened Util

  /** malloc_status */
  datatype MallocStatus = Success | AlignmentFailure | BadAllocFailure

  /** malloc_result: a pointer (0 for nullptr) and a status. */
  datatype MallocResult = MallocResult(ptr: nat, status: MallocStatus)

  /** The alignment actually used: at least alignof(std::max_align_t). Every
      alignment below MAX_ALIGN becomes MAX_ALIGN, so the result is a power of
      two for those as well as for every power of two. */
  function EffectiveAlignment(alignment: nat): (e: nat)
    ensures e >= MAX_ALIGN && e >= alignment
    ensures e == Max(alignment, MAX_ALIGN)
    ensures alignment < MAX_ALIGN || IsPowerOfTwo(alignment) ==> IsPowerOfTwo(e) && e % MAX_ALIGN == 0
    ensures IsPowerOfTwo(alignment) ==> e % alignment == 0
  {
    var e := if alignment < MAX_ALIGN then MAX_ALIGN else alignment;
    assert IsPowerOfTwo(MAX_ALIGN) && e == Max(alignment, MAX_ALIGN);
    if IsPowerOfTwo(alignment) then
      MaxOfPowersOfTwo(alignment, MAX_ALIGN);
      e
    else
      e
  }

  /** The number of bytes asked of malloc, in exact arithmetic: room for the
      payload after a gap of at least MAX_ALIGN bytes. */
  function RequestSize(alignment: nat, size: nat): (n: nat)
    ensures n >= MAX_ALIGN + size && n >= alignment + size
  {
    EffectiveAlignment(alignment) + size
  }

  /** The payload address carved out of a block that malloc returned: the
      first multiple of the effective alignment at least MAX_ALIGN bytes in. */
  function AlignedAddress(alignment: nat, block: nat): (p: nat)
    requires alignment < MAX_ALIGN || IsPowerOfTwo(alignment)
    ensures p % EffectiveAlignment(alignment) == 0
    ensures block + MAX_ALIGN <= p < block + MAX_ALIGN + EffectiveAlignment(alignment)
  {
    AlignForwardNoCheck(EffectiveAlignment(alignment), block + MAX_ALIGN)
  }

  /** The address of the stashed original pointer. */
  function StashSlot(p: nat): nat
    requires p >= POINTER_SIZE
  {
    p - POINTER_SIZE
  }

  /** Given a malloc result aligned to MAX_ALIGN, the payload is aligned to
      MAX_ALIGN and to a power-of-two alignment, the stash slot sits between
      the block start and the payload, and the payload ends inside the
      `alignment + size` bytes that were requested. */
  lemma AlignedBlockLayout(alignment: nat, size: nat, block: nat)
    requires alignment < MAX_ALIGN || IsPowerOfTwo(alignment)
    requires block % MAX_ALIGN == 0
    ensures IsPowerOfTwo(alignment) ==> AlignedAddress(alignment, block) % alignment == 0
    ensures AlignedAddress(alignment, block) % MAX_ALIGN == 0
    ensures block <= StashSlot(AlignedAddress(alignment, block))
    ensures StashSlot(AlignedAddress(alignment, block)) + POINTER_SIZE == AlignedAddress(alignment, block)
    ensures AlignedAddress(alignment, block) + size <= block + RequestSize(alignment, size)
  {
    var e := EffectiveAlignment(alignment);
    var p := AlignedAddress(alignment, block);
    if IsPowerOfTwo(alignment) {
      MultipleTransitive(p, e, alignment);
    }
    MultipleTransitive(p, e, MAX_ALIGN);
    AlignForwardPastGap(e, MAX_ALIGN, block);
  }

  /** The request as util.cpp:40 computes it: `alignment + size` in
      std::size_t arithmetic, which wraps past 2^64. */
  function RequestSizeAsWritten(alignment: nat, size: nat): (n: nat)
    requires alignment < WORD_LIMIT && size < WORD_LIMIT
    ensures n < WORD_LIMIT
  {
    WordAdd(EffectiveAlignment(alignment), size)
  }

  /** Whether the request can be stated as a std::size_t at all. */
  predicate RequestFits(alignment: nat, size: nat)
  {
    RequestSize(alignment, size) < WORD_LIMIT
  }

  /** When the request fits, the written sum is the exact one. */
  lemma RequestSizeAsWrittenAgrees(alignment: nat, size: nat)
    requires alignment < WORD_LIMIT && size < WORD_LIMIT && RequestFits(alignment, size)
    ensures RequestSizeAsWritten(alignment, size) == RequestSize(alignment, size)
  {
  }

  /** A request of SIZE_MAX bytes at alignment 16 wraps to malloc(15), and
      the stashed pointer word then ends past those 15 bytes; the exact
      request does not fit in a std::size_t. */
  lemma RequestSizeAsWrittenOverruns(block: nat)
    requires block % MAX_ALIGN == 0
    ensures RequestSizeAsWritten(MAX_ALIGN, WORD_LIMIT - 1) == 15
    ensures StashSlot(AlignedAddress(MAX_ALIGN, block)) + POINTER_SIZE
            > block + RequestSizeAsWritten(MAX_ALIGN, WORD_LIMIT - 1)
    ensures !RequestFits(MAX_ALIGN, WORD_LIMIT - 1)
  {
    assert IsPowerOfTwo(MAX_ALIGN);
  }

  /** The switch in _aligned_malloc: success returns the pointer, each
      failure status becomes its exception. */
  function Throwing(res: MallocResult): Result<nat>
  {
    match res.status
    case Success => Ok(res.ptr)
    case AlignmentFailure => Err(AlignmentError)
    case BadAllocFailure => Err(BadAlloc)
  }

  /** The switch in _aligned_malloc_no_check: there is no alignment case, so
      that status would fall to the default branch. */
  function ThrowingNoCheck(res: MallocResult): Result<nat>
  {
    match res.status
    case Success => Ok(res.ptr)
    case BadAllocFailure => Err(BadAlloc)
    case AlignmentFailure => Err(Unexpected)
  }

  /** The switch in the _try_ variants: nullptr for every failure. */
  function NullOnFailure(res: MallocResult): nat
  {
    if res.status == Success then res.ptr else 0
  }

  /** The non-throwing variant returns nullptr exactly when the throwing one
      throws, and otherwise the same pointer; the unchecked variant agrees
      with the checked one on every status the unchecked helper produces. */
  lemma TryAgreesWithThrowing(res: MallocResult)
    requires res.status == Success ==> res.ptr != 0
    ensures NullOnFailure(res) == 0 <==> Throwing(res).Err?
    ensures Throwing(res).Ok? ==> NullOnFailure(res) == Throwing(res).value
    ensures res.status != AlignmentFailure ==> ThrowingNoCheck(res) == Throwing(res)
  {
  }

  class Heap {
    /** The original malloc pointers memcpy'd just below the aligned
        payloads, keyed by the address they were written at. */
    var stash: map<nat, nat>

    constructor ()
      ensures stash == map[]
    {
      stash := map[];
    }

    /** _aligned_malloc_no_check_helper: raise the alignment, over-allocate,
        align past a MAX_ALIGN gap, stash the original pointer. An alignment
        below MAX_ALIGN is raised whatever it is; a larger one must be a
        power of two. A request whose `alignment + size` does not fit in a
        std::size_t is refused as bad_alloc before malloc is called (the
        written code wraps the sum instead; see RequestSizeAsWritten). */
    method AlignedMallocNoCheckHelper(alignment: nat, size: nat, block: nat) returns (res: MallocResult)
      requires alignment < MAX_ALIGN || IsPowerOfTwo(alignment)
      modifies this
      ensures !RequestFits(alignment, size) || block == 0 ==>
                res == MallocResult(0, BadAllocFailure) && stash == old(stash)
      ensures RequestFits(alignment, size) && block != 0 ==>
                res == MallocResult(AlignedAddress(alignment, block), Success)
                && stash == old(stash)[StashSlot(res.ptr) := block]
    {
      var effective := alignment;
      if effective < MAX_ALIGN {
        effective := MAX_ALIGN;
      }
      if effective + size >= WORD_LIMIT || block == 0 {
        return MallocResult(0, BadAllocFailure);
      }
      var shifted := block + MAX_ALIGN;
      assert effective == EffectiveAlignment(alignment);
      var aligned := AlignForwardNoCheck(effective, shifted);
      stash := stash[aligned - POINTER_SIZE := block];
      res := MallocResult(aligned, Success);
    }

    /** _aligned_malloc_helper: refuse a non-power-of-two alignment before
        anything is allocated or written. */
    method AlignedMallocHelper(alignment: nat, size: nat, block: nat) returns (res: MallocResult)
      modifies this
      ensures !IsPowerOfTwo(alignment) ==> res == MallocResult(0, AlignmentFailure) && stash == old(stash)
      ensures IsPowerOfTwo(alignment) && (!RequestFits(alignment, size) || block == 0) ==>
                res == MallocResult(0, BadAllocFailure) && stash == old(stash)
      ensures IsPowerOfTwo(alignment) && RequestFits(alignment, size) && block != 0 ==>
                res == MallocResult(AlignedAddress(alignment, block), Success)
                && stash == old(stash)[StashSlot(res.ptr) := block]
    {
      if !IsPowerOfTwo(alignment) {
        return MallocResult(0, AlignmentFailure);
      }
      res := AlignedMallocNoCheckHelper(alignment, size, block);
    }

    /** _aligned_malloc_no_check: throws std::bad_alloc when there is no block. */
    method AlignedMallocNoCheck(alignment: nat, size: nat, block: nat) returns (r: Result<nat>)
      requires alignment < MAX_ALIGN || IsPowerOfTwo(alignment)
      modifies this
      ensures !RequestFits(alignment, size) || block == 0 ==> r == Err(BadAlloc) && stash == old(stash)
      ensures RequestFits(alignment, size) && block != 0 ==>
                r == Ok(AlignedAddress(alignment, block))
                && stash == old(stash)[StashSlot(r.value) := block]
    {
      var res := AlignedMallocNoCheckHelper(alignment, size, block);
      r := ThrowingNoCheck(res);
    }

    /** _aligned_malloc: throws alignment_error or std::bad_alloc. */
    method AlignedMalloc(alignment: nat, size: nat, block: nat) returns (r: Result<nat>)
      modifies this
      ensures !IsPowerOfTwo(alignment) ==> r == Err(AlignmentError) && stash == old(stash)
      ensures IsPowerOfTwo(alignment) && (!RequestFits(alignment, size) || block == 0) ==>
                r == Err(BadAlloc) && stash == old(stash)
      ensures IsPowerOfTwo(alignment) && RequestFits(alignment, size) && block != 0 ==>
                r == Ok(AlignedAddress(alignment, block))
                && stash == old(stash)[StashSlot(r.value) := block]
    {
      var res := AlignedMallocHelper(alignment, size, block);
      r := Throwing(res);
    }

    /** _try_aligned_malloc_no_check: nullptr when there is no block. */
    method TryAlignedMallocNoCheck(alignment: nat, size: nat, block: nat) returns (p: nat)
      requires alignment < MAX_ALIGN || IsPowerOfTwo(alignment)
      modifies this
      ensures !RequestFits(alignment, size) || block == 0 ==> p == 0 && stash == old(stash)
      ensures RequestFits(alignment, size) && block != 0 ==>
                p == AlignedAddress(alignment, block) && stash == old(stash)[StashSlot(p) := block]
    {
      var res := AlignedMallocNoCheckHelper(alignment, size, block);
      p := NullOnFailure(res);
    }

    /** _try_aligned_malloc: nullptr for a bad alignment or no block. */
    method TryAlignedMalloc(alignment: nat, size: nat, block: nat) returns (p: nat)
      modifies this
      ensures !IsPowerOfTwo(alignment) || !RequestFits(alignment, size) || block == 0 ==>
                p == 0 && stash == old(stash)
      ensures IsPowerOfTwo(alignment) && RequestFits(alignment, size) && block != 0 ==>
                p == AlignedAddress(alignment, block) && stash == old(stash)[StashSlot(p) := block]
    {
      var res := AlignedMallocHelper(alignment, size, block);
      p := NullOnFailure(res);
    }

    /** _aligned_free: nullptr is ignored; otherwise the original pointer is
        read back from just below `ptr` and returned to malloc, which takes
        the stash slot with the rest of the block. `released` is the address
        passed to std::free (0 when nothing is freed). Freeing a pointer that
        did not come from these functions is the caller's fault. */
    method AlignedFree(ptr: nat) returns (released: nat)
      requires ptr != 0 ==> ptr >= POINTER_SIZE && StashSlot(ptr) in stash
      modifies this
      ensures ptr == 0 ==> released == 0 && stash == old(stash)
      ensures ptr != 0 ==> released == old(stash)[StashSlot(ptr)]
      ensures ptr != 0 ==> stash == old(stash) - {StashSlot(ptr)}
    {
      if ptr == 0 {
        return 0;
      }
      released := stash[ptr - POINTER_SIZE];
      stash := stash - {ptr - POINTER_SIZE};
    }

    /** Round trip: freeing what a successful AlignedMalloc returned hands
        malloc's own block back to std::free and leaves the other stashed
        words alone. */
    method AllocateThenFree(alignment: nat, size: nat, block: nat) returns (p: nat, released: nat)
      requires IsPowerOfTwo(alignment) && RequestFits(alignment, size) && block != 0
      modifies this
      ensures p == AlignedAddress(alignment, block) && released == block
      ensures stash == old(stash) - {StashSlot(p)}
    {
      var r := AlignedMalloc(alignment, size, block);
      p := r.value;
      released := AlignedFree(p);
    }
  }
}
