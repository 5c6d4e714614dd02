# amber allocators in Dafny

amber is a small C++ library of memory allocators. This project models its
core:

- the alignment arithmetic of `util.hpp`;
- the pointer-stash `aligned_malloc` / `aligned_free` family of `util.cpp`;
- three allocators over one contiguous buffer:
  - the linear (bump) allocator, which owns its buffer;
  - the stack allocator, which borrows its buffer and writes a padding
    header under every payload so that `free` can unwind;
  - the pool allocator, which cuts its buffer into equal slots and threads
    the free ones into an intrusive singly linked list.

Addresses and sizes are natural numbers, and the address 0 stands for
`nullptr`. The platform constants are those of x86-64:

- `alignof(std::max_align_t)` is 16;
- pointers are 8 bytes;
- `std::size_t` holds values below 2^64.

Each allocator is a `class` whose fields are the C++ members. Its methods
update those fields as the C++ does, and each method is proved against a
pure function of the old state: `Linear.Allocation`, `Stack.Placement`, or
the free list. Memory that the code writes is modelled only where the code
reads it back:

- the stashed malloc pointer (`AlignedMalloc.Heap.stash`);
- the stack header words (`Stack.StackAllocator.headers`);
- the pool's `next` words (`Pool.PoolAllocator.links`).

A failure that the C++ reports as a thrown exception, a `std::expected`
error or a `nullptr` is an `Err` of `Util.Result`, or 0 for `nullptr`.

Files:

- `util.dfy`: module `Util`.
- `aligned_malloc.dfy`: module `AlignedMalloc`.
- `linear_allocator.dfy`: module `Linear`.
- `stack_allocator.dfy`: module `Stack`.
- `pool_allocator.dfy`: module `Pool`.

## Model

| member | source | states |
|---|---|---|
| Util.WordAdd | src/amber/linear_allocator.cpp:70 | std::size_t addition: the result is below 2^64 and is the exact sum, or the sum less 2^64; it is exact whenever the sum fits |
| Util.IsPowerOfTwo | src/amber/util.cpp:55 | std::has_single_bit as a recursive definition; PowerOfTwoIsPow2 proves it means n == 2^k |
| Util.PowerOfTwoIsPow2 | src/amber/util.cpp:55 | the single-bit test holds exactly for the numbers 2^k |
| Util.PowerOfTwoDivides | src/amber/pool_allocator.cpp:52 | of two powers of two, the larger is a multiple of the smaller, so the max of two alignments serves both |
| Util.MaxOfPowersOfTwo | src/amber/pool_allocator.cpp:52-53 | the max of two power-of-two alignments is a power of two and a multiple of each |
| Util.MultipleOfMax | src/amber/pool_allocator.cpp:52-57 | a multiple of the max of two power-of-two alignments is aligned to both |
| Util.AlignForwardNoCheck | src/amber/util.hpp:18-20 | rounding up to a power-of-two alignment gives a multiple of the alignment in [value, value + alignment) |
| Util.AlignForward | src/amber/util.hpp:18-20 | an alignment that is not a power of two is an alignment error, and only such an alignment is; otherwise the result is aligned and in [value, value + alignment) |
| Util.IsAligned | src/amber/util.hpp:14-16 | is_aligned as divisibility; AlignForwardFixedPoint ties it to align_forward |
| Util.AlignForwardIsLeast | src/amber/util.hpp:18-20 | the rounded value is not above any aligned value that is at least the input |
| Util.AlignForwardUnique | src/amber/util.hpp:18-20 | the rounded value is the only multiple of the alignment in [value, value + alignment) |
| Util.AlignForwardFixedPoint | src/amber/util.hpp:14-20 | is_aligned holds exactly when rounding up leaves the value unchanged |
| Util.AlignForwardIdempotent | src/amber/util.hpp:18-20 | rounding up twice is rounding up once |
| Util.AlignForwardByOne | src/amber/util.hpp:18-20 | alignment 1 leaves every value as it is |
| Util.AlignForwardShift | src/amber/util.hpp:18-20 | rounding commutes with adding an aligned base |
| Util.AlignForwardPastGap | src/amber/util.cpp:44-46 | starting one max_align_t past an aligned block start, the next multiple of the effective alignment is at most one alignment past the start |
| Util.AlignForwardFitsWord | src/amber/util.hpp:18-20 | when value + alignment fits in a std::size_t, so does the rounded value |
| Util.AlignForwardTable | test/unit/src/amber_test/util_test.cpp:20-68 | the small cases of the test table: (1,0)→0, (1,1)→1, (1,2)→2, (2,1)→2, (2,2)→2, (2,3)→4, (2,4)→4, (8,20)→24, (8,21)→24, (8,24)→24, (8,25)→32 |
| Util.AlignForwardAroundAlignment | test/unit/src/amber_test/util_test.cpp:69-86 | for any power of two p > 1: p−1 and p round to p, and p+1 rounds to 2p |
| Util.AlignForwardNear2To60 | test/unit/src/amber_test/util_test.cpp:69-86 | 2^60−1 and 2^60 round to 2^60, and 2^60+1 rounds to 2^61, which is below 2^64 |
| Util.AlignForwardRejects | test/unit/src/amber_test/util_test.cpp:98-138 | alignments 0, 3 and 24 are refused with an alignment error |
| AlignedMalloc.EffectiveAlignment | src/amber/util.cpp:37-39 | the alignment is the larger of the request and max_align_t; for any alignment below max_align_t, and for every power of two, it is a power of two and a multiple of max_align_t; for a power of two it is also a multiple of the request |
| AlignedMalloc.RequestSize | src/amber/util.cpp:40 | the exact number of bytes asked of malloc leaves room for size bytes after a gap of at least max_align_t and of at least the alignment |
| AlignedMalloc.AlignedAddress | src/amber/util.cpp:44-47 | the payload is aligned to the effective alignment and lies from max_align_t to max_align_t + alignment bytes past the block start |
| AlignedMalloc.StashSlot | src/amber/util.cpp:49 | the word just below the payload, where the malloc pointer is written and read back (util.cpp:118) |
| AlignedMalloc.AlignedBlockLayout | src/amber/util.cpp:37-49 | for any alignment below max_align_t or any power of two: the payload is max_align_t-aligned, and aligned to a power-of-two request; the stash slot lies inside the block, directly below the payload; payload + size lies inside the exact alignment + size bytes requested |
| AlignedMalloc.RequestSizeAsWritten | src/amber/util.cpp:40 | `alignment + size` as std::size_t computes it: always below 2^64, wrapping when the sum does not fit |
| AlignedMalloc.RequestFits | src/amber/util.cpp:40 | whether the exact request can be stated as a std::size_t |
| AlignedMalloc.RequestSizeAsWrittenAgrees | src/amber/util.cpp:40 | when the exact request fits, the wrapping sum is the exact one |
| AlignedMalloc.RequestSizeAsWrittenOverruns | src/amber/util.cpp:40-49 | size SIZE_MAX at alignment 16 asks malloc for 15 bytes, and the stash word written at util.cpp:49 ends past them; the exact request does not fit |
| AlignedMalloc.Throwing | src/amber/util.cpp:77-86 | the switch of _aligned_malloc: success, alignment_error or bad_alloc per status |
| AlignedMalloc.ThrowingNoCheck | src/amber/util.cpp:64-71 | the switch of _aligned_malloc_no_check: an alignment status falls to unexpected_error |
| AlignedMalloc.NullOnFailure | src/amber/util.cpp:89-109 | the switches of the try variants: nullptr for every failure |
| AlignedMalloc.TryAgreesWithThrowing | src/amber/util.cpp:61-109 | the try variant returns nullptr exactly when the throwing variant throws, and otherwise the same pointer; the unchecked switch agrees with the checked one on every status the unchecked helper yields |
| AlignedMalloc.Heap.AlignedMallocNoCheckHelper | src/amber/util.cpp:28-51 | any alignment below max_align_t or any power of two is accepted; a request that does not fit a std::size_t (corrected, see Findings) or a failed malloc gives bad_alloc and writes nothing; otherwise the aligned payload is returned and the malloc pointer is stashed just below it |
| AlignedMalloc.Heap.AlignedMallocHelper | src/amber/util.cpp:53-59 | a non-power-of-two alignment is an alignment failure, with nothing written; otherwise bad_alloc or the stashed payload, as the unchecked helper |
| AlignedMalloc.Heap.AlignedMallocNoCheck | src/amber/util.cpp:61-72 | any alignment below max_align_t or any power of two; bad_alloc when the request does not fit or malloc fails; otherwise the payload, with the pointer stashed below it |
| AlignedMalloc.Heap.AlignedMalloc | src/amber/util.cpp:74-87 | alignment error for a non-power of two; bad_alloc when the request does not fit or malloc fails; otherwise the payload with the pointer stashed below it |
| AlignedMalloc.Heap.TryAlignedMallocNoCheck | src/amber/util.cpp:89-98 | any alignment below max_align_t or any power of two; nullptr when the request does not fit or malloc fails; otherwise the payload, with the pointer stashed |
| AlignedMalloc.Heap.TryAlignedMalloc | src/amber/util.cpp:100-109 | nullptr for a bad alignment, a request that does not fit or a failed malloc; otherwise the payload, with the pointer stashed |
| AlignedMalloc.Heap.AlignedFree | src/amber/util.cpp:111-120 | nullptr is ignored; otherwise the stashed pointer is the one handed to std::free, and that stash slot is gone |
| AlignedMalloc.Heap.AllocateThenFree | src/amber/util.cpp:74-120 | freeing what a successful aligned_malloc returned hands malloc's own block back to std::free and leaves every other stashed word alone |
| Linear.Padding | src/amber/linear_allocator.cpp:66-69 | the padding is less than the alignment and makes the address aligned |
| Linear.PaddingOfAligned | src/amber/linear_allocator.cpp:66-69 | an aligned address needs no padding |
| Linear.PaddingShift | src/amber/linear_allocator.cpp:66-69 | the padding depends only on the offset from an aligned base |
| Linear.Allocation | src/amber/linear_allocator.cpp:61-75 | alignment error exactly for non-powers of two; otherwise success exactly when offset + padding + size fits the capacity, and bad_alloc when it does not. On success: the address is aligned and within one alignment of the old end; the new offset is the old one plus padding plus size, and the block ends at the new offset. An error leaves the offset unchanged; the offset never passes the capacity |
| Linear.AllocationAsWritten | src/amber/linear_allocator.cpp:70-73 | the same call with the capacity test and the offset update in wrapping std::size_t arithmetic; its partners are AllocationAsWrittenWraps and AllocationAsWrittenAgrees |
| Linear.AllocationAsWrittenWraps | src/amber/linear_allocator.cpp:70-73 | with 64-bit wrap-around, a SIZE_MAX request at offset 1 of a 64-byte buffer is accepted and moves the offset to 0; the intended check refuses it |
| Linear.AllocationAsWrittenAgrees | src/amber/linear_allocator.cpp:70-73 | when offset + alignment + size fits in 64 bits, the wrapping code and the model agree |
| Linear.DefaultAllocationSequence | test/unit/src/amber_test/linear_allocator_test.cpp:98-119 | default-aligned requests of 13, 13 and 37 bytes give aligned addresses and offsets 13, 29, 69 |
| Linear.ExplicitAllocationSequence | test/unit/src/amber_test/linear_allocator_test.cpp:68-95 | requests (1,10), (16,20), (4,4) give aligned addresses and offsets 10, 36, 40 |
| Linear.LinearAllocator.constructor | src/amber/linear_allocator.cpp:97-101 | stores the buffer, the size and the offset |
| Linear.LinearAllocator.Create | src/amber/linear_allocator.cpp:18-28 | an aligned_alloc error is passed on; otherwise a fresh allocator over that buffer, with offset 0 |
| Linear.LinearAllocator.CreateDefault | src/amber/linear_allocator.cpp:30-35 | as Create with max_align_t |
| Linear.LinearAllocator.Move | src/amber/linear_allocator.cpp:12-16 | the new allocator takes every field; the source is zeroed |
| Linear.LinearAllocator.MoveAssign | src/amber/linear_allocator.cpp:37-49 | self-assignment changes nothing; otherwise the old buffer is released, the other's fields are taken and the other is zeroed |
| Linear.LinearAllocator.Destroy | src/amber/linear_allocator.cpp:51-59 | the buffer (if any) is released and every field is zeroed |
| Linear.LinearAllocator.Allocate | src/amber/linear_allocator.cpp:61-75 | the result and the new offset are those of Allocation on the old state; the buffer and size are unchanged and the invariant is kept |
| Linear.LinearAllocator.AllocateDefault | src/amber/linear_allocator.cpp:77-80 | Allocation with max_align_t |
| Linear.LinearAllocator.Reset | src/amber/linear_allocator.cpp:82-85 | the offset is 0; the buffer and size are unchanged |
| Linear.LinearAllocator.BufferSize | src/amber/linear_allocator.cpp:87-90 | buffer_size(): the size the allocator was created with |
| Linear.LinearAllocator.BufferOffset | src/amber/linear_allocator.cpp:92-95 | the offset is never above the buffer size |
| Linear.MoveAfterAllocate | test/unit/src/amber_test/linear_allocator_test.cpp:23-43 | after a 24-byte allocation in a 64-byte allocator, a move carries size 64 and offset 24 and leaves the source at 0 and 0 |
| Stack.StackAlignment | src/amber/stack_allocator.cpp:61 | the alignment raised to alignof(alloc_header) is a power of two and a multiple of both |
| Stack.HeaderedPadding | src/amber/stack_allocator.cpp:62-66 | the padding leaves room for the header (at least 8 bytes) and aligns the payload, and it is less than 8 + alignment |
| Stack.Placement | src/amber/stack_allocator.cpp:51-77 | alignment error exactly for non-powers of two, and out of capacity for every other failure; success exactly when offset + padding + size fits. On success: the payload is aligned to the request and to the header, at least one header past the old end; the stored padding is what free will read; the new offset is the old one plus padding plus size, and within capacity |
| Stack.Unwind | src/amber/stack_allocator.cpp:93 | the offset free computes: payload address less the stored padding less the buffer start |
| Stack.UnwindUndoesPlacement | src/amber/stack_allocator.cpp:84-95 | free's arithmetic on a successful allocation's payload and header gives back the offset before that allocation |
| Stack.PlacementAsWritten | src/amber/stack_allocator.cpp:67-75 | the same call with the capacity test and the offset update in wrapping std::size_t arithmetic; its partners are PlacementAsWrittenWraps and PlacementAsWrittenAgrees |
| Stack.PaddingAtAlignedBase | src/amber/stack_allocator.cpp:62-66 | in an empty max_align_t-aligned buffer, a max_align_t payload sits 16 bytes in |
| Stack.PlacementAsWrittenWraps | src/amber/stack_allocator.cpp:67-75 | with 64-bit wrap-around, a SIZE_MAX−15 request into an empty 64-byte buffer is accepted and the offset becomes 0; the intended check refuses it |
| Stack.PlacementAsWrittenAgrees | src/amber/stack_allocator.cpp:67-75 | when the sums fit in 64 bits, the wrapping code and the model agree |
| Stack.DefaultPlacementSequence | test/unit/src/amber_test/stack_allocator_test.cpp:49-82 | requests of 30, 38 and 60 bytes into 128: payloads at +16 and +64, offsets 46 and 102, then out of capacity; freeing unwinds to 46, then 0 |
| Stack.BytePlacementSequence | test/unit/src/amber_test/stack_allocator_test.cpp:85-123 | byte-aligned requests of 30, 38 and 60: payloads at +8 and +48, offsets 38 and 86, then out of capacity; unwinds to 38, then 0; 256 bytes never fit |
| Stack.ConstructedSizeAsWritten | src/amber/stack_allocator.cpp:110 | the size the constructor stores as written: the member's own indeterminate value, not the parameter |
| Stack.ConstructedSizeAsWrittenLosesCapacity | src/amber/stack_allocator.cpp:107-112 | with the self-initialised size, a 128-byte allocator can refuse a 30-byte request that the intended size accepts |
| Stack.LayoutPush | src/amber/stack_allocator.cpp:71-75 | writing a new header above the offset keeps every older header and the stack discipline |
| Stack.LayoutPop | src/amber/stack_allocator.cpp:89-94 | a live frame's header holds the distance back to where the frame started; unwinding there drops it and every later frame and keeps the discipline |
| Stack.StackAllocator.constructor | src/amber/stack_allocator.cpp:107-112 | stores the buffer, the size and the offset, with no live frames (the corrected size initialisation) |
| Stack.StackAllocator.Move | src/amber/stack_allocator.cpp:28-32 | the new allocator takes every field; the source is zeroed |
| Stack.StackAllocator.MoveAssign | src/amber/stack_allocator.cpp:34-42 | self-assignment changes nothing; otherwise the other's fields are taken and the other is zeroed; nothing is released |
| Stack.StackAllocator.Destroy | src/amber/stack_allocator.cpp:44-49 | every field is zeroed; nothing is released |
| Stack.StackAllocator.Allocate | src/amber/stack_allocator.cpp:51-77 | the result and the new offset are those of Placement on the old state. On success the header word below the payload holds the padding and a new frame is live; on failure nothing else changes |
| Stack.StackAllocator.AllocateDefault | src/amber/stack_allocator.cpp:79-82 | Allocate with max_align_t |
| Stack.StackAllocator.Free | src/amber/stack_allocator.cpp:84-95 | nullptr changes nothing; freeing a live payload puts the offset back to where that allocation started and drops it and every later frame |
| Stack.StackAllocator.BufferSize | src/amber/stack_allocator.cpp:97-100 | buffer_size(): the size the allocator was constructed with |
| Stack.StackAllocator.BufferOffset | src/amber/stack_allocator.cpp:102-105 | the offset is never above the buffer size |
| Stack.StackAllocator.AllocateThenFree | src/amber/stack_allocator.cpp:51-95 | an allocation followed by freeing its result leaves the offset and the live frames as they were |
| Pool.SlotAddresses | src/amber/pool_allocator.cpp:147-158 | init_buffer leaves entry_count slots on the list, highest address first |
| Pool.SlotAddressesInBuffer | src/amber/pool_allocator.cpp:151-152 | every slot lies whole inside the entry_size × entry_count bytes of the buffer |
| Pool.SlotAddressesDistinct | src/amber/pool_allocator.cpp:151-152 | with a positive entry size no slot address repeats |
| Pool.ListFromUnique | src/amber/pool_allocator.cpp:15-17 | the next words determine the free list: from a given head there is only one walk |
| Pool.PushOntoList | src/amber/pool_allocator.cpp:128-129 | writing the old head into a slot that is not on the list and making it the head prepends it to the list |
| Pool.PopFromList | src/amber/pool_allocator.cpp:101-102 | moving the head to its next word and zeroing the old head's word leaves the rest of the list |
| Pool.EntrySize | src/amber/pool_allocator.cpp:33-36 | the entry size of the unaligned constructor: at least one pool_entry and at least the request, and the request itself when it is already that large |
| Pool.AlignedEntrySize | src/amber/pool_allocator.cpp:49-57 | alignment error exactly for non-powers of two; otherwise the entry size is at least the request and one pool_entry, is aligned to the request and to pool_entry, and is less than one alignment above the raised size |
| Pool.AlignedEntrySizeIsLeast | src/amber/pool_allocator.cpp:52-57 | the rounded entry size is the least size with those properties |
| Pool.AlignedEntrySizeExamples | src/amber/pool_allocator.cpp:49-57 | (6, 1) gives 8, (20, 16) gives 32, and alignment 3 is refused |
| Pool.PoolAllocator.SlotsInBuffer | src/amber/pool_allocator.cpp:123-125 | every slot is a non-null address inside [buffer, buffer + buffer_size) |
| Pool.PoolAllocator.CountsAddUp | src/amber/pool_allocator.cpp:94-145 | handed-out slots plus free slots are always entry_count |
| Pool.PoolAllocator.EmptyIffNullHead | src/amber/pool_allocator.cpp:96 | free_head is nullptr exactly when no slot is free |
| Pool.PoolAllocator.Raw | src/amber/pool_allocator.cpp:29-31 | the fields the constructors set before init_buffer: buffer, sizes and count as given, free_head nullptr, no slot free or handed out |
| Pool.PoolAllocator.InitBuffer | src/amber/pool_allocator.cpp:147-158 | every slot is on the free list, last slot first; the pool invariant holds and nothing is handed out |
| Pool.PoolAllocator.New | src/amber/pool_allocator.cpp:29-43 | the entry size is raised to one pool_entry; a failed malloc is bad_alloc; otherwise a fresh pool with every slot free |
| Pool.PoolAllocator.NewAligned | src/amber/pool_allocator.cpp:45-65 | alignment error for a non-power of two; bad_alloc for a failed aligned_alloc; otherwise a fresh pool of AlignedEntrySize slots, all free |
| Pool.PoolAllocator.Move | src/amber/pool_allocator.cpp:21-27 | the new pool takes every field and the free list; the source is zeroed |
| Pool.PoolAllocator.Clear | src/amber/pool_allocator.cpp:82-92 | every field zeroed and the free list empty, as the destructor and a move leave a pool; the empty pool is valid |
| Pool.PoolAllocator.MoveAssign | src/amber/pool_allocator.cpp:67-80 | self-assignment changes nothing; otherwise the old buffer is released, the other's fields are taken, and all five of the other's fields are zeroed |
| Pool.PoolAllocator.Destroy | src/amber/pool_allocator.cpp:82-92 | the buffer (if any) is released and every field is zeroed |
| Pool.PoolAllocator.PopHead | src/amber/pool_allocator.cpp:99-103 | the head slot is handed out, the head moves to its next word and the slot's word is zeroed |
| Pool.PoolAllocator.Allocate | src/amber/pool_allocator.cpp:94-104 | out of capacity exactly when no slot is free, with nothing changed; otherwise the head slot, which was not handed out, lies inside the buffer and is now handed out |
| Pool.PoolAllocator.TryAllocate | src/amber/pool_allocator.cpp:106-116 | nullptr exactly when no slot is free; otherwise as Allocate |
| Pool.PoolAllocator.PushSlot | src/amber/pool_allocator.cpp:126-129 | a handed-out slot takes the old head as its next word and becomes the head |
| Pool.PoolAllocator.Free | src/amber/pool_allocator.cpp:118-130 | out of bounds exactly for a non-null address outside the buffer, with nothing changed; nullptr changes nothing; a handed-out slot goes back to the front of the free list |
| Pool.PoolAllocator.TryFree | src/amber/pool_allocator.cpp:132-145 | false exactly for a non-null address outside the buffer; otherwise as Free |
| Pool.PoolAllocator.BufferSize | src/amber/pool_allocator.hpp:59 | buffer_size(): entry size times entry count while the pool is valid |
| Pool.PoolAllocator.EntrySizeOf | src/amber/pool_allocator.hpp:61 | entry_size() |
| Pool.PoolAllocator.EntryCount | src/amber/pool_allocator.hpp:63 | entry_count() |
| Pool.DrainFourEntries | test/unit/src/amber_test/pool_allocator_test.cpp:57-79 | four allocations from a pool with four free slots return them in list order; the fifth is out of capacity |
| Pool.ReturnFourEntries | test/unit/src/amber_test/pool_allocator_test.cpp:81-95 | freeing the four handed-out slots of an exhausted pool makes all four free again |
| Pool.FourEntryScenario | test/unit/src/amber_test/pool_allocator_test.cpp:43-95 | a 32-byte pool of 8-byte entries hands out +24, +16, +8, +0, then is out of capacity; after four frees all four slots are free |

## Left out

- `std::malloc`, `std::aligned_alloc` and `std::free` are not modelled. Each allocating operation takes the address the call returned as a parameter (0 for failure), and each releasing operation returns the address it hands to `std::free`.
- The `AMBER_USE_CPP_ALIGNED_ALLOC` branches of util.cpp (lines 124-167) forward to `std::aligned_alloc`/`std::free` and are not modelled. The public wrappers `aligned_malloc`, `try_aligned_malloc` and their `_no_check` forms are only modelled through the functions they call.
- `aligned_alloc`/`aligned_free` of util.hpp:10-12 (the `std::expected` form that the linear allocator uses) are defined in a file that is not part of this model. Their outcome is the `region` parameter of `Linear.LinearAllocator.Create`.
- util.inl, which defines `is_aligned`, `align_forward` and `align_forward_no_check`, is not part of this model. `align_forward` is taken to round a value up to a power-of-two alignment, and to refuse any other alignment with `alignment_error`, as util_test.cpp pins it down.
- The parameter order of `align_forward` is inconsistent in the sources. util.hpp:20, linear_allocator.cpp:68, stack_allocator.cpp:65 and util.cpp:46 pass (alignment, value). util_test.cpp:91 and pool_allocator.cpp:57 pass (value, alignment). The model has one function, `Util.AlignForwardNoCheck(alignment, value)`, and reads every call site as rounding the value up to the alignment.
- Pool.AlignedEntrySize: pool_allocator.cpp:57 is read as rounding the raised entry size up to the raised alignment, since the header's declared order would round the alignment up to the entry size.
- The error messages are not modelled. The stack allocator returns `std::string` errors formatted by mica, and the "formatting failed" path (stack_allocator.cpp:55-58) is not modelled; the error kinds are `Util.Error` values.
- The typed `allocate<T>` / `free<T>` templates are declared in the headers, but their definitions (the .inl files) are not part of this model; the byte-aligned stack test is modelled as alignment 1.
- `stack_allocator::create` and `pool_allocator::create` (taking a buffer), and `entry_allocate_count` / `entry_free_count`, appear in the headers or tests but are not defined in the .cpp files. They are not modelled. `Pool.PoolAllocator.CountsAddUp` states the relation those counters report.
- `std::memset(entry_ptr, 0, entry_size)` in the pool's allocate is modelled only as zeroing the slot's `next` word. The rest of the slot's bytes are not tracked.
- Payload contents, `std::construct_at`, `std::launder` and `std::assume_aligned` are not modelled. The assume_aligned hints hold by the alignment lemmas.
- buddy_allocator.hpp, malloc_buffer, mmap_buffer, aligned_alloc_buffer, bitwise_enum and the exception classes are outside this model.
- Stack.StackAllocator.Free: it requires a non-null pointer to be the payload of a live allocation, which is what the unchecked header read at stack_allocator.cpp:91-92 needs. Freeing any other address reads arbitrary memory and is not modelled.
- Pool.PoolAllocator.Free: an in-bounds address that is not a handed-out slot is excluded by its `requires`. The C++ links such an address (or a slot that is already free) into the list and corrupts it, and the model does not follow that path. The same holds for Pool.PoolAllocator.TryFree.
- Stack.StackAllocator.MoveAssign and Stack.StackAllocator.Destroy release nothing, as in the source: the buffer is borrowed.
- The 64-bit wrap-around of `buffer_offset_ + aligned_padding + size` (linear and stack) and of `alignment + size` (util.cpp:40) appears only in the as-written members of the findings. Every other member uses exact arithmetic; `Linear.AllocationAsWrittenAgrees`, `Stack.PlacementAsWrittenAgrees` and `AlignedMalloc.RequestSizeAsWrittenAgrees` show that the two agree when the sums fit.
- AlignedMalloc.Heap.AlignedMallocNoCheckHelper: an alignment of 16 or more that is not a power of two is excluded by its `requires`. util.cpp:46 passes it to `align_forward_no_check`, whose definition is not part of this model. Every alignment below 16 is accepted, since util.cpp:37-39 raises it to 16. The same holds for AlignedMalloc.Heap.AlignedMallocNoCheck, AlignedMalloc.Heap.TryAlignedMallocNoCheck, AlignedMalloc.AlignedAddress and AlignedMalloc.AlignedBlockLayout.
- AlignedMalloc.Heap.AlignedMallocNoCheckHelper: a request whose `alignment + size` does not fit a std::size_t is refused as bad_alloc, which is the corrected behaviour of the Findings row for util.cpp:40. The written code asks malloc for the wrapped sum instead. AlignedMalloc.AlignedBlockLayout states the layout against the exact request.
- The public `aligned_malloc_no_check` (util.cpp:124-131) calls the checked `_aligned_malloc`, so `_aligned_malloc_no_check` (util.cpp:61-72, modelled by `AlignedMalloc.Heap.AlignedMallocNoCheck`) is not reached from the public interface. `try_aligned_malloc_no_check` (util.cpp:142-149) does reach the unchecked helper.
- Pool.PoolAllocator.New: the product `entry_size * entry_count` is exact, where the C++ computes it in 64-bit arithmetic. The same holds for Pool.PoolAllocator.NewAligned.

## Findings

| source | as written | input that shows it | evidently intended | confidence | as-written member | corrected member |
|---|---|---|---|---|---|---|
| src/amber/linear_allocator.cpp:70-73 | the capacity test `buffer_offset_ + aligned_padding + size > buffer_size_` is evaluated in 64-bit std::size_t arithmetic and can wrap | a 64-byte buffer at 16 with offset 1, alignment 1 and size 2^64−1: the sum wraps to 0, the request is accepted at address 17, and the offset becomes 0 | refuse any request whose end passes the buffer | not executed | Linear.AllocationAsWrittenWraps | Linear.Allocation |
| src/amber/stack_allocator.cpp:67-75 | the same test and the offset update wrap in 64-bit arithmetic | an empty 64-byte buffer, default alignment and size 2^64−16: padding 16 makes the sum wrap to 0, the request is accepted at base + 16, and the offset becomes 0 | refuse any request whose end passes the buffer | not executed | Stack.PlacementAsWrittenWraps | Stack.Placement |
| src/amber/stack_allocator.cpp:110 | `buffer_size_(buffer_size_)` initialises the member from itself, not from the parameter, so the stored size is indeterminate | a 128-byte buffer whose indeterminate size happens to be 0: a 30-byte request is refused as out of capacity | `buffer_size_(buffer_size)` | not executed | Stack.ConstructedSizeAsWrittenLosesCapacity | Stack.StackAllocator.constructor |
| src/amber/util.cpp:40 | `std::malloc(alignment + size)` adds in 64-bit std::size_t arithmetic, so a huge size wraps to a small request | alignment 16 and size 2^64−1: malloc is asked for 15 bytes; if it succeeds, the payload is block + 16 and the pointer word memcpy'd at util.cpp:49 occupies block + 8 .. block + 16, past the 15-byte block, and the call reports success | refuse a request whose `alignment + size` does not fit, with bad_alloc | not executed | AlignedMalloc.RequestSizeAsWrittenOverruns | AlignedMalloc.Heap.AlignedMallocNoCheckHelper |
