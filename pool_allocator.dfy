/** The pool allocator of pool_allocator.cpp: a buffer cut into
    `entryCount` slots of `entrySize` bytes, with the free slots threaded
    into a singly linked list through their first word.

    `links` holds that first word (pool_entry::next) of every slot that has
    one, by slot address; `freeHead` is the list's head (0 for nullptr).
    The ghost `freeList` is the list those words spell out and `live` the
    slots handed out and not yet returned. std::malloc, std::aligned_alloc
    and std::free are not modelled: the constructors take the address the
    allocation call returned and the releasing operations return the
    address they hand to std::free. */
module Pool {
  import opened Util

  /** sizeof(pool_entry) and alignof(pool_entry): one pointer. */
  const ENTRY_SIZE: nat := 8
  const ENTRY_ALIGN: nat := 8

  /** The addresses of the slots 0 .. n-1 of a buffer at `base`, highest
      first: the order in which init_buffer leaves them on the free list. */
  function SlotAddresses(base: nat, size: nat, n: nat): (xs: seq<nat>)
    ensures |xs| == n
  {
    if n == 0 then [] else [base + (n - 1) * size] + SlotAddresses(base, size, n - 1)
  }

  /** Every slot lies whole inside the `n * size` bytes at `base`. */
  lemma {:induction false} SlotAddressesInBuffer(base: nat, size: nat, n: nat)
    ensures forall x :: x in SlotAddresses(base, size, n) ==> base <= x && x + size <= base + n * size
  {
    if n > 0 {
      SlotAddressesInBuffer(base, size, n - 1);
      MulMonotoneStep(size, n - 1);
    }
  }

  /** One more slot adds one entry size: (n + 1) * size == n * size + size. */
  lemma MulMonotoneStep(size: nat, n: nat)
    ensures (n + 1) * size == n * size + size
  {
  }

  predicate Distinct(xs: seq<nat>)
  {
    forall i, j :: 0 <= i < j < |xs| ==> xs[i] != xs[j]
  }

  function Elems(xs: seq<nat>): set<nat>
  {
    set x | x in xs
  }

  /** With slots of positive size no address repeats. */
  lemma {:induction false} SlotAddressesDistinct(base: nat, size: nat, n: nat)
    requires size > 0
    ensures Distinct(SlotAddresses(base, size, n))
  {
    if n > 0 {
      SlotAddressesDistinct(base, size, n - 1);
      SlotAddressesInBuffer(base, size, n - 1);
      var xs := SlotAddresses(base, size, n);
      assert forall j :: 1 <= j < |xs| ==> xs[j] in SlotAddresses(base, size, n - 1);
    }
  }

  /** A sequence without repeats has as many elements as its set. */
  lemma {:induction false} DistinctCard(xs: seq<nat>)
    requires Distinct(xs)
    ensures |Elems(xs)| == |xs|
  {
    if xs != [] {
      assert Distinct(xs[1..]) by {
        forall i, j | 0 <= i < j < |xs[1..]| ensures xs[1..][i] != xs[1..][j] {
          assert xs[1..][i] == xs[i + 1] && xs[1..][j] == xs[j + 1];
        }
      }
      DistinctCard(xs[1..]);
      assert Elems(xs) == {xs[0]} + Elems(xs[1..]) by {
        assert xs == [xs[0]] + xs[1..];
      }
      assert xs[0] !in Elems(xs[1..]) by {
        assert forall j :: 0 <= j < |xs[1..]| ==> xs[1..][j] == xs[j + 1];
      }
    }
  }

  /** `list` is what following the next words from `head` spells out: no
      node on it is nullptr, and the walk ends at nullptr. */
  ghost predicate ListFrom(links: map<nat, nat>, head: nat, list: seq<nat>)
    decreases |list|
  {
    if list == [] then head == 0
    else head != 0 && head == list[0] && head in links && ListFrom(links, links[head], list[1..])
  }

  /** The walk from a head is unique: the words determine the list. */
  lemma {:induction false} ListFromUnique(links: map<nat, nat>, head: nat, a: seq<nat>, b: seq<nat>)
    requires ListFrom(links, head, a) && ListFrom(links, head, b)
    ensures a == b
    decreases |a|
  {
    if a != [] {
      ListFromUnique(links, links[head], a[1..], b[1..]);
      assert a == [a[0]] + a[1..] && b == [b[0]] + b[1..];
    }
  }

  /** Writing the word of a slot that is not on the list leaves the list as it is. */
  lemma {:induction false} ListFromFrame(links: map<nat, nat>, head: nat, list: seq<nat>, slot: nat, word: nat)
    requires ListFrom(links, head, list) && slot !in list
    ensures ListFrom(links[slot := word], head, list)
    decreases |list|
  {
    if list != [] {
      assert list[1..] == list[1..] && slot !in list[1..];
      ListFromFrame(links, links[head], list[1..], slot, word);
    }
  }

  /** Pushing a slot that is not on the list: write the old head into its
      word and make it the head. */
  lemma PushOntoList(links: map<nat, nat>, head: nat, list: seq<nat>, slot: nat)
    requires ListFrom(links, head, list) && slot !in list && slot != 0
    ensures ListFrom(links[slot := head], slot, [slot] + list)
  {
    ListFromFrame(links, head, list, slot, head);
    assert ([slot] + list)[1..] == list;
  }

  /** Popping the head and zeroing its word: the rest of the list remains. */
  lemma PopFromList(links: map<nat, nat>, head: nat, list: seq<nat>)
    requires ListFrom(links, head, list) && list != [] && Distinct(list)
    ensures head in links && ListFrom(links[head := 0], links[head], list[1..])
  {
    assert head !in list[1..] by {
      assert forall j :: 0 <= j < |list[1..]| ==> list[1..][j] == list[j + 1];
    }
    ListFromFrame(links, links[head], list[1..], head, 0);
  }

  /** The entry size of the unaligned constructor: the request, raised to
      one pool_entry when it is smaller. */
  function EntrySize(entrySize: nat): (r: nat)
    ensures r >= ENTRY_SIZE && r >= entrySize
    ensures entrySize >= ENTRY_SIZE ==> r == entrySize
  {
    if entrySize < ENTRY_SIZE then ENTRY_SIZE else entrySize
  }

  /** The entry size of the aligned constructor: an alignment that is not a
      power of two is refused; otherwise the entry size, raised to one
      pool_entry, is rounded up to a multiple of the alignment raised to
      alignof(pool_entry). */
  function AlignedEntrySize(entrySize: nat, entryAlign: nat): (r: Result<nat>)
    ensures r == Err(AlignmentError) <==> !IsPowerOfTwo(entryAlign)
    ensures r.Err? ==> r.error == AlignmentError
    ensures r.Ok? ==>
              && r.value >= entrySize && r.value >= ENTRY_SIZE
              && r.value % entryAlign == 0 && r.value % ENTRY_ALIGN == 0
              && r.value < EntrySize(entrySize) + Max(entryAlign, ENTRY_ALIGN)
  {
    if !IsPowerOfTwo(entryAlign) then
      Err(AlignmentError)
    else
      assert IsPowerOfTwo(ENTRY_ALIGN);
      MaxOfPowersOfTwo(entryAlign, ENTRY_ALIGN);
      var align := Max(entryAlign, ENTRY_ALIGN);
      var size := AlignForwardNoCheck(align, EntrySize(entrySize));
      MultipleOfMax(size, entryAlign, ENTRY_ALIGN);
      Ok(size)
  }

  /** The rounded entry size is the least one that holds the entry and a
      pool_entry and keeps every slot aligned. */
  lemma AlignedEntrySizeIsLeast(entrySize: nat, entryAlign: nat, m: nat)
    requires IsPowerOfTwo(entryAlign)
    requires m >= entrySize && m >= ENTRY_SIZE && m % entryAlign == 0 && m % ENTRY_ALIGN == 0
    ensures AlignedEntrySize(entrySize, entryAlign).value <= m
  {
    assert IsPowerOfTwo(ENTRY_ALIGN);
    MaxOfPowersOfTwo(entryAlign, ENTRY_ALIGN);
    AlignForwardIsLeast(Max(entryAlign, ENTRY_ALIGN), EntrySize(entrySize), m);
  }

  /** Small requests become one pool_entry; aligned ones round up. */
  lemma AlignedEntrySizeExamples()
    ensures AlignedEntrySize(6, 1) == Ok(8)
    ensures AlignedEntrySize(20, 16) == Ok(32)
    ensures AlignedEntrySize(8, 3) == Err(AlignmentError)
  {
    assert IsPowerOfTwo(16) && IsPowerOfTwo(8);
    AlignForwardUnique(8, 8, 8);
    AlignForwardUnique(16, 20, 32);
  }

  class PoolAllocator {
    var buffer: nat
    var freeHead: nat
    var bufferSize: nat
    var entrySize: nat
    var entryCount: nat
    /** The first word of each slot, by address. */
    var links: map<nat, nat>
    ghost var freeList: seq<nat>
    ghost var live: set<nat>

    /** The addresses of all slots. */
    ghost function Slots(): set<nat>
      reads this
    {
      Elems(SlotAddresses(buffer, entrySize, entryCount))
    }

    ghost predicate Valid()
      reads this
    {
      && bufferSize == entrySize * entryCount
      && (entryCount > 0 ==> entrySize >= ENTRY_SIZE && buffer > 0)
      && ListFrom(links, freeHead, freeList)
      && Distinct(freeList)
      && Elems(freeList) <= Slots()
      && live == Slots() - Elems(freeList)
    }

    /** Every slot is a non-null address inside the buffer. */
    lemma SlotsInBuffer()
      requires Valid()
      ensures forall x :: x in Slots() ==> x != 0 && buffer <= x < buffer + bufferSize
    {
      SlotAddressesInBuffer(buffer, entrySize, entryCount);
    }

    /** Handed-out and free slots together are all entryCount slots. */
    lemma CountsAddUp()
      requires Valid()
      ensures |live| + |freeList| == entryCount
    {
      if entryCount > 0 {
        SlotAddressesDistinct(buffer, entrySize, entryCount);
      }
      DistinctCard(SlotAddresses(buffer, entrySize, entryCount));
      DistinctCard(freeList);
      assert Slots() == live + Elems(freeList);
    }

    /** The free list is empty exactly when the head is nullptr. */
    lemma EmptyIffNullHead()
      requires Valid()
      ensures freeHead == 0 <==> freeList == []
    {
      SlotsInBuffer();
      if freeList != [] {
        assert freeList[0] in Elems(freeList);
      }
    }

    /** The constructors' common part: store the fields; init_buffer follows. */
    constructor Raw(buffer: nat, bufferSize: nat, entrySize: nat, entryCount: nat)
      ensures this.buffer == buffer && this.bufferSize == bufferSize
      ensures this.entrySize == entrySize && this.entryCount == entryCount
      ensures freeHead == 0 && links == map[] && freeList == [] && live == {}
    {
      this.buffer := buffer;
      this.bufferSize := bufferSize;
      this.entrySize := entrySize;
      this.entryCount := entryCount;
      freeHead := 0;
      links := map[];
      freeList := [];
      live := {};
    }

    /** init_buffer: push every slot, lowest address first, so that the last
        slot is the head and every slot is free. */
    method InitBuffer()
      requires bufferSize == entrySize * entryCount
      requires entryCount > 0 ==> entrySize >= ENTRY_SIZE && buffer > 0
      modifies this
      ensures Valid() && live == {}
      ensures freeList == SlotAddresses(buffer, entrySize, entryCount)
      ensures buffer == old(buffer) && bufferSize == old(bufferSize)
      ensures entrySize == old(entrySize) && entryCount == old(entryCount)
    {
      freeHead := 0;
      freeList := [];
      var i := 0;
      while i < entryCount
        invariant 0 <= i <= entryCount
        invariant freeList == SlotAddresses(buffer, entrySize, i)
        invariant ListFrom(links, freeHead, freeList)
        invariant buffer == old(buffer) && bufferSize == old(bufferSize)
        invariant entrySize == old(entrySize) && entryCount == old(entryCount)
      {
        var slot := buffer + i * entrySize;
        SlotAddressesInBuffer(buffer, entrySize, i);
        PushOntoList(links, freeHead, freeList, slot);
        links := links[slot := freeHead];
        freeHead := slot;
        freeList := [slot] + freeList;
        i := i + 1;
      }
      live := {};
      if entryCount > 0 {
        SlotAddressesDistinct(buffer, entrySize, entryCount);
      }
    }

    /** pool_allocator(entry_size, entry_count): the entry size is raised to
        one pool_entry, `block` is what std::malloc returned for the whole
        buffer, and nullptr means std::bad_alloc. */
    static method New(entrySize: nat, entryCount: nat, block: nat) returns (r: Result<PoolAllocator>)
      ensures block == 0 ==> r == Err(BadAlloc)
      ensures block != 0 ==> r.Ok? && fresh(r.value) && r.value.Valid()
      ensures block != 0 ==>
                && r.value.buffer == block && r.value.entrySize == EntrySize(entrySize)
                && r.value.entryCount == entryCount && r.value.bufferSize == EntrySize(entrySize) * entryCount
                && r.value.freeList == SlotAddresses(block, EntrySize(entrySize), entryCount)
                && r.value.live == {}
    {
      var size := entrySize;
      if size < ENTRY_SIZE {
        size := ENTRY_SIZE;
      }
      if block == 0 {
        return Err(BadAlloc);
      }
      var p := new PoolAllocator.Raw(block, size * entryCount, size, entryCount);
      p.InitBuffer();
      r := Ok(p);
    }

    /** pool_allocator(entry_size, entry_count, entry_align): refuse an
        alignment that is not a power of two, round the entry size up (see
        AlignedEntrySize); `block` is what std::aligned_alloc returned. */
    static method NewAligned(entrySize: nat, entryCount: nat, entryAlign: nat, block: nat)
      returns (r: Result<PoolAllocator>)
      ensures !IsPowerOfTwo(entryAlign) ==> r == Err(AlignmentError)
      ensures IsPowerOfTwo(entryAlign) && block == 0 ==> r == Err(BadAlloc)
      ensures IsPowerOfTwo(entryAlign) && block != 0 ==> r.Ok? && fresh(r.value) && r.value.Valid()
      ensures IsPowerOfTwo(entryAlign) && block != 0 ==>
                var size := AlignedEntrySize(entrySize, entryAlign).value;
                && r.value.buffer == block && r.value.entrySize == size
                && r.value.entryCount == entryCount && r.value.bufferSize == size * entryCount
                && r.value.freeList == SlotAddresses(block, size, entryCount)
                && r.value.live == {}
    {
      if !IsPowerOfTwo(entryAlign) {
        return Err(AlignmentError);
      }
      var align := entryAlign;
      if align < ENTRY_ALIGN {
        align := ENTRY_ALIGN;
      }
      var size := entrySize;
      if size < ENTRY_SIZE {
        size := ENTRY_SIZE;
      }
      assert IsPowerOfTwo(ENTRY_ALIGN) && align == Max(entryAlign, ENTRY_ALIGN);
      MaxOfPowersOfTwo(entryAlign, ENTRY_ALIGN);
      size := AlignForwardNoCheck(align, size);
      if block == 0 {
        return Err(BadAlloc);
      }
      var p := new PoolAllocator.Raw(block, size * entryCount, size, entryCount);
      p.InitBuffer();
      r := Ok(p);
    }

    /** The move constructor: every field moves across; the source is left
        empty. */
    constructor Move(other: PoolAllocator)
      requires other.Valid()
      modifies other
      ensures buffer == old(other.buffer) && freeHead == old(other.freeHead)
      ensures bufferSize == old(other.bufferSize) && entrySize == old(other.entrySize)
      ensures entryCount == old(other.entryCount) && links == old(other.links)
      ensures freeList == old(other.freeList) && live == old(other.live) && Valid()
      ensures other.buffer == 0 && other.freeHead == 0 && other.bufferSize == 0
      ensures other.entrySize == 0 && other.entryCount == 0 && other.Valid()
    {
      buffer := other.buffer;
      freeHead := other.freeHead;
      bufferSize := other.bufferSize;
      entrySize := other.entrySize;
      entryCount := other.entryCount;
      links := other.links;
      freeList := other.freeList;
      live := other.live;
      new;
      other.Clear();
    }

    /** Zero every field, as a moved-from or destroyed pool is left. */
    method Clear()
      modifies this
      ensures buffer == 0 && freeHead == 0 && bufferSize == 0 && entrySize == 0 && entryCount == 0
      ensures links == map[] && freeList == [] && live == {} && Valid()
    {
      buffer := 0;
      freeHead := 0;
      bufferSize := 0;
      entrySize := 0;
      entryCount := 0;
      links := map[];
      freeList := [];
      live := {};
    }

    /** Move assignment: release the own buffer with std::free (its address
        is `released`, 0 when there was none), take the other's fields and
        empty the other. Self-assignment changes nothing. */
    method MoveAssign(other: PoolAllocator) returns (released: nat)
      requires other.Valid()
      modifies this, other
      ensures other == this ==> released == 0 && unchanged(this)
      ensures other != this ==>
                && released == old(buffer)
                && buffer == old(other.buffer) && freeHead == old(other.freeHead)
                && bufferSize == old(other.bufferSize) && entrySize == old(other.entrySize)
                && entryCount == old(other.entryCount) && links == old(other.links)
                && freeList == old(other.freeList) && live == old(other.live)
                && other.buffer == 0 && other.freeHead == 0 && other.bufferSize == 0
                && other.entrySize == 0 && other.entryCount == 0
      ensures other != this ==> Valid() && other.Valid()
    {
      released := 0;
      if this != other {
        if buffer != 0 {
          released := buffer;
        }
        buffer := other.buffer;
        freeHead := other.freeHead;
        bufferSize := other.bufferSize;
        entrySize := other.entrySize;
        entryCount := other.entryCount;
        links := other.links;
        freeList := other.freeList;
        live := other.live;
        other.Clear();
      }
    }

    /** The destructor: release the buffer (if any) and zero every field. */
    method Destroy() returns (released: nat)
      modifies this
      ensures released == old(buffer)
      ensures buffer == 0 && freeHead == 0 && bufferSize == 0 && entrySize == 0 && entryCount == 0
    {
      released := 0;
      if buffer != 0 {
        released := buffer;
      }
      Clear();
    }

    /** Take the head slot: the head moves to its next word and the slot's
        first word is zeroed (the memset of allocate). */
    method PopHead() returns (slot: nat)
      requires Valid() && freeHead != 0
      modifies this
      ensures Valid()
      ensures slot == old(freeHead) && old(freeList) != [] && slot == old(freeList)[0]
      ensures freeList == old(freeList)[1..] && live == old(live) + {slot}
      ensures slot in old(links) && freeHead == old(links)[slot] && links == old(links)[slot := 0]
      ensures buffer == old(buffer) && bufferSize == old(bufferSize)
      ensures entrySize == old(entrySize) && entryCount == old(entryCount)
    {
      EmptyIffNullHead();
      PopFromList(links, freeHead, freeList);
      slot := freeHead;
      freeHead := links[slot];
      links := links[slot := 0];
      assert freeList == [slot] + freeList[1..];
      freeList := freeList[1..];
      live := live + {slot};
    }

    /** allocate(): out_of_capacity_error when no slot is free; otherwise the
        head slot, which is now handed out. */
    method Allocate() returns (r: Result<nat>)
      requires Valid()
      modifies this
      ensures Valid()
      ensures old(freeList) == [] <==> r.Err?
      ensures r.Err? ==> r.error == OutOfCapacity && unchanged(this)
      ensures r.Ok? ==> r.value == old(freeList)[0] && r.value !in old(live)
      ensures r.Ok? ==> old(buffer) <= r.value < old(buffer) + old(bufferSize)
      ensures r.Ok? ==> freeList == old(freeList)[1..] && live == old(live) + {r.value}
      ensures r.Ok? ==> links == old(links)[r.value := 0]
      ensures buffer == old(buffer) && bufferSize == old(bufferSize)
      ensures entrySize == old(entrySize) && entryCount == old(entryCount)
    {
      EmptyIffNullHead();
      if freeHead == 0 {
        return Err(OutOfCapacity);
      }
      SlotsInBuffer();
      assert freeList[0] in Elems(freeList);
      var slot := PopHead();
      r := Ok(slot);
    }

    /** try_allocate(): as allocate, with nullptr for "no slot free". */
    method TryAllocate() returns (p: nat)
      requires Valid()
      modifies this
      ensures Valid()
      ensures old(freeList) == [] <==> p == 0
      ensures p == 0 ==> unchanged(this)
      ensures p != 0 ==> p == old(freeList)[0] && p !in old(live)
      ensures p != 0 ==> old(buffer) <= p < old(buffer) + old(bufferSize)
      ensures p != 0 ==> freeList == old(freeList)[1..] && live == old(live) + {p}
      ensures p != 0 ==> links == old(links)[p := 0]
      ensures buffer == old(buffer) && bufferSize == old(bufferSize)
      ensures entrySize == old(entrySize) && entryCount == old(entryCount)
    {
      EmptyIffNullHead();
      if freeHead == 0 {
        return 0;
      }
      SlotsInBuffer();
      assert freeList[0] in Elems(freeList);
      p := PopHead();
    }

    /** Push a handed-out slot back: its first word takes the old head and it
        becomes the head. */
    method PushSlot(ptr: nat)
      requires Valid() && ptr in live
      modifies this
      ensures Valid()
      ensures freeList == [ptr] + old(freeList) && live == old(live) - {ptr}
      ensures freeHead == ptr && links == old(links)[ptr := old(freeHead)]
      ensures buffer == old(buffer) && bufferSize == old(bufferSize)
      ensures entrySize == old(entrySize) && entryCount == old(entryCount)
    {
      SlotsInBuffer();
      assert ptr !in freeList by {
        assert ptr !in Elems(freeList);
      }
      PushOntoList(links, freeHead, freeList, ptr);
      links := links[ptr := freeHead];
      freeHead := ptr;
      freeList := [ptr] + freeList;
      live := live - {ptr};
      assert Elems(freeList) == {ptr} + Elems(old(freeList));
    }

    /** free(ptr): nullptr is ignored; an address outside the buffer is
        out_of_bounds_error and changes nothing; a handed-out slot goes back
        on the free list. An in-bounds address that is not a handed-out slot
        is the caller's error and excluded. */
    method Free(ptr: nat) returns (r: Result<()>)
      requires Valid()
      requires ptr == 0 || ptr in live || ptr < buffer || ptr >= buffer + bufferSize
      modifies this
      ensures Valid()
      ensures r.Err? <==> ptr != 0 && (ptr < old(buffer) || ptr >= old(buffer) + old(bufferSize))
      ensures r.Err? ==> r.error == OutOfBounds
      ensures ptr !in old(live) ==> unchanged(this)
      ensures ptr in old(live) ==>
                && r.Ok? && freeList == [ptr] + old(freeList) && live == old(live) - {ptr}
                && freeHead == ptr && links == old(links)[ptr := old(freeHead)]
      ensures buffer == old(buffer) && bufferSize == old(bufferSize)
      ensures entrySize == old(entrySize) && entryCount == old(entryCount)
    {
      SlotsInBuffer();
      if ptr == 0 {
        return Ok(());
      }
      if ptr < buffer || ptr >= buffer + bufferSize {
        return Err(OutOfBounds);
      }
      PushSlot(ptr);
      r := Ok(());
    }

    /** try_free(ptr): as free, with false for an address outside the buffer. */
    method TryFree(ptr: nat) returns (ok: bool)
      requires Valid()
      requires ptr == 0 || ptr in live || ptr < buffer || ptr >= buffer + bufferSize
      modifies this
      ensures Valid()
      ensures !ok <==> ptr != 0 && (ptr < old(buffer) || ptr >= old(buffer) + old(bufferSize))
      ensures ptr !in old(live) ==> unchanged(this)
      ensures ptr in old(live) ==>
                && ok && freeList == [ptr] + old(freeList) && live == old(live) - {ptr}
                && freeHead == ptr && links == old(links)[ptr := old(freeHead)]
      ensures buffer == old(buffer) && bufferSize == old(bufferSize)
      ensures entrySize == old(entrySize) && entryCount == old(entryCount)
    {
      SlotsInBuffer();
      if ptr == 0 {
        return true;
      }
      if ptr < buffer || ptr >= buffer + bufferSize {
        return false;
      }
      PushSlot(ptr);
      ok := true;
    }

    /** buffer_size() */
    function BufferSize(): nat
      reads this
    {
      bufferSize
    }

    /** entry_size() */
    function EntrySizeOf(): nat
      reads this
    {
      entrySize
    }

    /** entry_count() */
    function EntryCount(): nat
      reads this
    {
      entryCount
    }
  }

  /** Four allocations from a pool with four free slots hand those slots
      out in list order, and a fifth is out of capacity. */
  method DrainFourEntries(pool: PoolAllocator) returns (a1: nat, a2: nat, a3: nat, a4: nat, fifth: Result<nat>)
    requires pool.Valid() && |pool.freeList| == 4
    modifies pool
    ensures [a1, a2, a3, a4] == old(pool.freeList)
    ensures fifth == Err(OutOfCapacity)
    ensures pool.Valid() && pool.freeList == [] && pool.live == old(pool.live) + {a1, a2, a3, a4}
  {
    var r1 := pool.Allocate();
    var r2 := pool.Allocate();
    var r3 := pool.Allocate();
    var r4 := pool.Allocate();
    a1, a2, a3, a4 := r1.value, r2.value, r3.value, r4.value;
    fifth := pool.Allocate();
  }

  /** The free half: returning four different handed-out slots of an
      exhausted pool puts four slots back on the free list. */
  method ReturnFourEntries(pool: PoolAllocator, a1: nat, a2: nat, a3: nat, a4: nat) returns (ghost freeAfter: nat)
    requires pool.Valid() && pool.freeList == [] && pool.live == {a1, a2, a3, a4}
    requires a1 != a2 && a1 != a3 && a1 != a4 && a2 != a3 && a2 != a4 && a3 != a4
    modifies pool
    ensures pool.Valid() && freeAfter == 4 && pool.live == {}
  {
    var f1 := pool.Free(a1);
    var f2 := pool.Free(a2);
    var f3 := pool.Free(a3);
    var f4 := pool.Free(a4);
    freeAfter := |pool.freeList|;
  }

  /** The allocate/free scenario over a 32-byte pool of 8-byte entries:
      four allocations succeed with the four slots, highest address first,
      the fifth is out of capacity, and after the four frees every slot is
      free again. */
  method FourEntryScenario(block: nat)
    returns (a1: nat, a2: nat, a3: nat, a4: nat, fifth: Result<nat>, ghost freeAfter: nat)
    requires block != 0
    ensures a1 == block + 24 && a2 == block + 16 && a3 == block + 8 && a4 == block
    ensures fifth == Err(OutOfCapacity) && freeAfter == 4
  {
    var created := PoolAllocator.New(8, 4, block);
    var pool := created.value;
    assert SlotAddresses(block, 8, 1) == [block];
    assert SlotAddresses(block, 8, 2) == [block + 8, block];
    assert SlotAddresses(block, 8, 3) == [block + 16, block + 8, block];
    assert pool.freeList == [block + 24, block + 16, block + 8, block];
    a1, a2, a3, a4, fifth := DrainFourEntries(pool);
    freeAfter := ReturnFourEntries(pool, a1, a2, a3, a4);
  }
}
