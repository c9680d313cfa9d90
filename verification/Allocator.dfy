/** The dynamic allocator of the VM's memory: exact fit, then best splittable fit,
    then the space above the top; freeing coalesces both ways and lowers the top. */
module Allocator {
  import opened Words
  import opened HeapLayout
  import opened FreeIndex

  // ------------------------------------------------------------------------- sizes

  /** Block tags below TUPLE, by their codes. */
  type Tag = t: nat | t < 11

  function ElementSize(tag: Tag): nat {
    match tag
    case 4 => 2  // ARRAY_U16
    case 5 => 2  // ARRAY_I16
    case 6 => 4  // ARRAY_U32
    case 7 => 4  // ARRAY_I32
    case 8 => 8  // ARRAY_U64
    case 9 => 8  // ARRAY_REF
    case 10 => 8 // CLOSURE
    case _ => 1  // RAW, OBJECT, ARRAY_U8, ARRAY_I8: counted in bytes
  }

  /** Where element i ends in a payload, by what is stored per element. */
  function ElementEnd(i: nat, tag: Tag): nat {
    match tag
    case 4 => 2 * i + 2
    case 5 => 2 * i + 2
    case 6 => 4 * i + 4
    case 7 => 4 * i + 4
    case 8 => 8 * i + 8
    case 9 => 8 * i + 8
    case 10 => 8 * i + 8
    case _ => i + 1
  }

  /** All count elements lie inside size bytes. */
  ghost predicate Holds(size: nat, count: nat, tag: Tag) {
    forall i: nat :: i < count ==> ElementEnd(i, tag) <= size
  }

  /** The least positive multiple of eight that holds them. */
  ghost predicate Tightest(size: nat, count: nat, tag: Tag) {
    size > 0 && size % 8 == 0 && Holds(size, count, tag) &&
    forall other: nat :: other > 0 && other % 8 == 0 && Holds(other, count, tag) ==> size <= other
  }

  /** The payload of a block, rounded up to a positive multiple of eight. */
  function Payload(count: nat, tag: Tag): (p: nat)
    ensures p >= 8 && p % 8 == 0 && count * ElementSize(tag) <= p
  {
    var aligned := (count * ElementSize(tag) + 7) / 8 * 8;
    if aligned == 0 then 8 else aligned
  }

  lemma PayloadIsTightest(count: nat, tag: Tag)
    ensures Tightest(Payload(count, tag), count, tag)
  {
    forall other: nat | other > 0 && other % 8 == 0 && Holds(other, count, tag)
      ensures Payload(count, tag) <= other
    {
      if count > 0 { assert ElementEnd(count - 1, tag) <= other; }
    }
  }

  // -------------------------------------------------------------------------- bytes

  function Word32(bytes: seq<u8>, a: nat): u32
    requires a + 4 <= |bytes|
  {
    var b0: int, b1: int, b2: int, b3: int := bytes[a], bytes[a + 1], bytes[a + 2], bytes[a + 3];
    b0 + b1 * 0x100 + b2 * 0x1_0000 + b3 * 0x100_0000
  }

  function ByteOf(v: u32, unit: nat): u8
    requires unit > 0
  {
    var w: int := v;
    w / unit % 0x100
  }

  lemma BytesMakeWord(v: u32)
    ensures var b0: int, b1: int, b2: int, b3: int := ByteOf(v, 1), ByteOf(v, 0x100), ByteOf(v, 0x1_0000), ByteOf(v, 0x100_0000);
            b0 + b1 * 0x100 + b2 * 0x1_0000 + b3 * 0x100_0000 == v
  {
  }

  const TAG_UNIT := 0x1000_0000

  predicate HasTag(bytes: seq<u8>, h: nat)
    requires h + 8 <= |bytes|
  {
    Word32(bytes, h + 4) / TAG_UNIT < 11
  }

  /** A live block's header gives its size. */
  predicate HeaderFits(bytes: seq<u8>, l: Layout, h: nat)
    requires h in l.size
  {
    h + 8 <= |bytes| && HasTag(bytes, h) &&
    l.size[h] == Payload(Word32(bytes, h), Word32(bytes, h + 4) / TAG_UNIT)
  }

  predicate Headed(bytes: seq<u8>, l: Layout) {
    forall h :: h in l.size && h !in l.free ==> HeaderFits(bytes, l, h)
  }

  /** Nothing outside [lo, hi) has changed. */
  predicate OnlyIn(before: seq<u8>, after: seq<u8>, lo: nat, hi: nat) {
    |after| == |before| && forall i :: 0 <= i < |before| && !(lo <= i < hi) ==> after[i] == before[i]
  }

  /** A block's header and payload are as they were. */
  predicate Kept(before: seq<u8>, after: seq<u8>, l: Layout, h: nat)
    requires h in l.size
  {
    |after| == |before| && forall i :: h <= i < End(l, h) && i < |before| ==> after[i] == before[i]
  }

  lemma NothingWritten(bytes: seq<u8>, lo: nat, hi: nat)
    ensures OnlyIn(bytes, bytes, lo, hi)
  {
  }

  lemma SortedIndex(m: map<nat, nat>, s: seq<Entry>)
    requires Agrees(m, s)
    ensures Sorted(s)
  {
  }

  // ---------------------------------------------------------------------- placement

  predicate FreeOf(l: Layout, a: nat) {
    a in l.free && a in l.size
  }

  /** Where a search through all free blocks would put a payload: one of exactly its
      size, else one of the smallest that can be split, else above the top. */
  ghost predicate Chosen(l: Layout, p: nat, h: nat) {
    if exists a :: FreeOf(l, a) && l.size[a] == p then
      FreeOf(l, h) && l.size[h] == p
    else if exists a :: FreeOf(l, a) && l.size[a] >= p + 16 then
      FreeOf(l, h) && l.size[h] >= p + 16 && forall a :: FreeOf(l, a) && l.size[a] >= p + 16 ==> l.size[h] <= l.size[a]
    else
      h == l.top
  }

  /** The division of the heap after the payload has been placed at h. */
  function Claimed(l: Layout, p: nat, h: nat): Layout {
    if FreeOf(l, h) && l.size[h] == p then Taken(l, h)
    else if FreeOf(l, h) && l.size[h] >= p + 16 then Split(l, h, p)
    else Raised(l, p)
  }

  /** Where the writes of placing p at h end: a split writes the rest's header too. */
  function ClaimEnd(l: Layout, p: nat, h: nat): nat {
    if FreeOf(l, h) && l.size[h] != p then h + 16 + p else h + 8 + p
  }

  /** Every live block but h keeps its header and payload. */
  ghost predicate OthersKept(before: seq<u8>, after: seq<u8>, l: Layout, h: nat) {
    forall a :: a != h && IsLive(l, a) ==> Kept(before, after, l, a)
  }

  /** A new block at h: zeroed, with one reference, disjoint from all live blocks. */
  ghost predicate Placed(before: seq<u8>, after: seq<u8>, l: Layout, l1: Layout, h: nat, count: u32, tag: Tag) {
    var p := Payload(count, tag);
    Chosen(l, p, h) && l1 == Claimed(l, p, h) && !IsLive(l, h) && IsLive(l1, h) && l1.size[h] == p && SameLiveBut(l, l1, h) &&
    Stamped(after, h, p, count, tag) && OthersKept(before, after, l, h)
  }

  predicate Stamped(b: seq<u8>, h: nat, p: nat, count: u32, tag: Tag) {
    8 <= p && h + 8 + p <= |b| && (forall i :: h + 8 <= i < h + 8 + p ==> b[i] == 0) &&
    Word32(b, h) == count && Word32(b, h + 4) == tag * TAG_UNIT + 1
  }

  /** The block at h is live no more; the others are as they were. */
  ghost predicate Returned(before: seq<u8>, after: seq<u8>, l: Layout, l1: Layout, h: nat) {
    IsLive(l, h) && !IsLive(l1, h) && SameLiveBut(l, l1, h) && OthersKept(before, after, l, h)
  }

  function DynamicBase(capacity: nat): (base: nat)
    ensures base % 8 == 0 && capacity / 2 <= base < capacity / 2 + 8
  {
    (capacity / 2 + 7) / 8 * 8
  }

  class Memory {
    const heap: array<u8>
    var nextFreeStatic: nat
    var nextFreeDynamic: nat
    var freeByAddr: map<nat, nat>
    var freeBySize: seq<Entry>
    var freeBlocks: seq<nat>
    var currentlyUsedWords: nat
    var peakUsedWords: nat
    var liveObjectsCount: nat
    ghost var size: map<nat, nat>
    ghost var staticWords: nat

    function Top(): nat
      reads this`nextFreeDynamic
    {
      if nextFreeDynamic == 8 then DynamicBase(heap.Length) else nextFreeDynamic
    }

    ghost function Shape(): Layout
      reads this`nextFreeDynamic, this`size, this`freeByAddr
    {
      Layout(DynamicBase(heap.Length), Top(), size, freeByAddr.Keys)
    }

    /** The indexes hold the free blocks of the layout. */
    ghost predicate Indexed()
      reads this`freeByAddr, this`freeBySize, this`size
    {
      Agrees(freeByAddr, freeBySize) && forall a :: a in freeByAddr ==> a in size && freeByAddr[a] == size[a]
    }

    ghost predicate Listed()
      reads this`freeByAddr, this`freeBlocks
    {
      Ascending(freeBlocks) && forall a :: a in freeBlocks <==> a in freeByAddr
    }

    ghost predicate Counted()
      reads this`freeByAddr, this`nextFreeDynamic, this`size, this`staticWords
      reads this`currentlyUsedWords, this`peakUsedWords, this`liveObjectsCount
    {
      currentlyUsedWords == staticWords + LiveWords(Shape()) && currentlyUsedWords <= peakUsedWords &&
      liveObjectsCount == LiveCount(Shape())
    }

    ghost predicate Bounded()
      reads this`nextFreeDynamic, this`nextFreeStatic
    {
      heap.Length < M32 && 8 < DynamicBase(heap.Length) <= Top() < heap.Length && (nextFreeDynamic == 8 || nextFreeDynamic == Top()) &&
      nextFreeStatic < DynamicBase(heap.Length)
    }

    ghost predicate Valid()
      reads this, heap
    {
      Bounded() && Tiled(Shape()) && Settled(Shape()) && Indexed() && Listed() && Headed(heap[..], Shape()) && Counted()
    }

    constructor (capacity: nat)
      requires 8 < DynamicBase(capacity) && capacity < M32
      ensures Valid() && fresh(heap) && heap.Length == capacity && size == map[]
    {
      heap := new u8[capacity](_ => 0);
      nextFreeStatic, nextFreeDynamic := 0, 8;
      freeByAddr, freeBySize, freeBlocks := map[], [], [];
      currentlyUsedWords, peakUsedWords, liveObjectsCount := 0, 0, 0;
      size, staticWords := map[], 0;
      new;
      NothingUsed(Shape(), Top());
    }

    // ---------------------------------------------------------------- the indexes

    method LowerBound(p: nat) returns (i: nat)
      requires Sorted(freeBySize)
      ensures i <= |freeBySize|
      ensures forall k :: 0 <= k < i ==> freeBySize[k].payload < p
      ensures forall k :: i <= k < |freeBySize| ==> freeBySize[k].payload >= p
    {
      i := 0;
      while i < |freeBySize| && freeBySize[i].payload < p
        invariant i <= |freeBySize| && forall k :: 0 <= k < i ==> freeBySize[k].payload < p
      {
        i := i + 1;
      }
    }

    /** Add a free block to both indexes, behind those of the same size. */
    method Insert(p: nat, h: nat)
      requires Agrees(freeByAddr, freeBySize) && h !in freeByAddr
      modifies this`freeByAddr, this`freeBySize
      ensures Agrees(freeByAddr, freeBySize) && freeByAddr == old(freeByAddr)[h := p]
    {
      var i := LowerBound(p + 1);
      InsertedAgrees(freeByAddr, freeBySize, i, Entry(p, h));
      freeByAddr := freeByAddr[h := p];
      freeBySize := Inserted(freeBySize, i, Entry(p, h));
    }

    /** Remove a free block, found in the size index. */
    method TakeAt(i: nat)
      requires Agrees(freeByAddr, freeBySize) && i < |freeBySize|
      modifies this`freeByAddr, this`freeBySize
      ensures Agrees(freeByAddr, freeBySize) && freeByAddr == old(freeByAddr) - {old(freeBySize)[i].header}
    {
      RemovedAgrees(freeByAddr, freeBySize, i);
      freeByAddr := freeByAddr - {freeBySize[i].header};
      freeBySize := Removed(freeBySize, i);
    }

    /** Remove a free block, found in the address index. */
    method Erase(h: nat)
      requires Agrees(freeByAddr, freeBySize) && h in freeByAddr
      modifies this`freeByAddr, this`freeBySize
      ensures Agrees(freeByAddr, freeBySize) && freeByAddr == old(freeByAddr) - {h}
    {
      var p := freeByAddr[h];
      var i := LowerBound(p);
      ghost var k :| 0 <= k < |freeBySize| && freeBySize[k] == Entry(p, h);
      while freeBySize[i].header != h
        invariant i <= k
        decreases k - i
      {
        i := i + 1;
      }
      TakeAt(i);
    }

    method SyncFreeBlocks()
      modifies this`freeBlocks
      ensures Listed()
    {
      freeBlocks := [];
      var rest := freeByAddr.Keys;
      while rest != {}
        invariant Ascending(freeBlocks)
        invariant forall a :: a in freeBlocks || a in rest <==> a in freeByAddr
        invariant forall i, b :: 0 <= i < |freeBlocks| && b in rest ==> freeBlocks[i] < b
      {
        ghost var least := Least(rest);
        var a :| a in rest && forall b :: b in rest ==> a <= b;
        freeBlocks := freeBlocks + [a];
        rest := rest - {a};
      }
    }

    // -------------------------------------------------------------------- bytes

    method WriteWord(a: nat, v: u32)
      requires a + 4 <= heap.Length
      modifies heap
      ensures Word32(heap[..], a) == v && OnlyIn(old(heap[..]), heap[..], a, a + 4)
    {
      hide ByteOf;
      BytesMakeWord(v);
      heap[a], heap[a + 1], heap[a + 2], heap[a + 3] := ByteOf(v, 1), ByteOf(v, 0x100), ByteOf(v, 0x1_0000), ByteOf(v, 0x100_0000);
    }

    /** A new block's zeroed payload and its header, with one reference. */
    method WriteBlock(h: nat, p: nat, count: u32, tag: Tag)
      requires h + 8 + p <= heap.Length && p >= 8
      modifies heap
      ensures OnlyIn(old(heap[..]), heap[..], h, h + 8 + p) && Stamped(heap[..], h, p, count, tag)
    {
      var i := h + 8;
      while i < h + 8 + p
        invariant h + 8 <= i <= h + 8 + p
        invariant OnlyIn(old(heap[..]), heap[..], h, h + 8 + p) && forall k :: h + 8 <= k < i ==> heap[k] == 0
      {
        heap[i] := 0;
        i := i + 1;
      }
      WriteWord(h, count);
      label L:
      WriteWord(h + 4, tag * TAG_UNIT + 1);
      SameWord(old@L(heap[..]), heap[..], h);
    }

    // --------------------------------------------------------------- allocation

    /** A free block for the payload, split if it is larger; 0 when there is none. */
    method PickFree(p: nat) returns (header: nat)
      requires Bounded() && Tiled(Shape()) && Settled(Shape()) && Indexed() && p >= 8 && p % 8 == 0
      modifies this`freeByAddr, this`freeBySize, this`size, heap
      ensures Indexed()
      ensures header == 0 ==> Shape() == old(Shape()) && heap[..] == old(heap[..]) && Chosen(Shape(), p, Top())
      ensures header != 0 ==> header in old(Shape()).free && Chosen(old(Shape()), p, header)
      ensures header != 0 ==> Shape() == Claimed(old(Shape()), p, header)
      ensures header != 0 ==> OnlyIn(old(heap[..]), heap[..], header + 8 + p, ClaimEnd(old(Shape()), p, header))
    {
      hide Tiled, Settled, Chosen, Agrees, OnlyIn, Sorted;
      ghost var l := Shape();
      SortedIndex(freeByAddr, freeBySize);
      var i := LowerBound(p);
      SearchedExactly(l, freeByAddr, freeBySize, p, i);
      if i < |freeBySize| && freeBySize[i].payload == p {
        header := freeBySize[i].header;
        AgreesAt(freeByAddr, freeBySize, i);
        TiledFacts(l, header);
        NothingWritten(heap[..], header + 8 + p, ClaimEnd(l, p, header));
        TakeAt(i);
      } else {
        i := LowerBound(p + 16);
        SearchedLarger(l, freeByAddr, freeBySize, p, i);
        if i < |freeBySize| {
          AgreesAt(freeByAddr, freeBySize, i);
          TiledFacts(l, freeBySize[i].header);
          header := Carve(i, p);
        } else {
          header := 0;
        }
      }
    }

    method Carve(i: nat, p: nat) returns (header: nat)
      requires Bounded() && Tiled(Shape()) && Settled(Shape()) && Indexed() && p >= 8 && p % 8 == 0
      requires i < |freeBySize| && freeBySize[i].payload >= p + 16
      modifies this`freeByAddr, this`freeBySize, this`size, heap
      ensures Indexed() && header == old(freeBySize)[i].header && header in old(size)
      ensures Shape() == Split(old(Shape()), header, p)
      ensures OnlyIn(old(heap[..]), heap[..], header + 8 + p, header + 16 + p)
    {
      hide Settled, Tiled, Agrees;
      ghost var l := Shape();
      AgreesAt(freeByAddr, freeBySize, i);
      header := freeBySize[i].header;
      var whole := freeBySize[i].payload;
      TiledFacts(l, header);
      SplitOk(l, header, p);
      WriteFreeHeader(header + 8 + p, whole - p - 8);
      SplitIndex(i, p);
    }

    method WriteFreeHeader(h: nat, payload: u32)
      requires h + 8 <= heap.Length
      modifies heap
      ensures OnlyIn(old(heap[..]), heap[..], h, h + 8)
    {
      hide Word32;
      WriteWord(h, payload);
      WriteWord(h + 4, 0);
    }

    /** Replace a free block in the indexes by its rear part. */
    method SplitIndex(i: nat, p: nat)
      requires Indexed() && i < |freeBySize| && freeBySize[i].payload >= p + 16 && freeBySize[i].header + 8 + p !in size
      modifies this`freeByAddr, this`freeBySize, this`size
      ensures Indexed() && old(freeBySize)[i].header in old(size) && old(freeBySize)[i].payload == old(size)[old(freeBySize)[i].header]
      ensures Shape() == Split(old(Shape()), old(freeBySize)[i].header, p)
    {
      hide Agrees;
      AgreesAt(freeByAddr, freeBySize, i);
      var header, whole := freeBySize[i].header, freeBySize[i].payload;
      var rest, restPayload: nat := header + 8 + p, whole - p - 8;
      TakeAt(i);
      Insert(restPayload, rest);
      size := size[header := p][rest := restPayload];
    }

    /** Make room for a payload; overflow leaves the top above the heap's end. */
    method Reserve(p: nat) returns (ok: bool, header: nat)
      requires Bounded() && Tiled(Shape()) && Settled(Shape()) && Indexed() && p >= 8 && p % 8 == 0
      modifies this`freeByAddr, this`freeBySize, this`size, this`nextFreeDynamic, heap
      ensures ok <==> !(Chosen(old(Shape()), p, old(Top())) && old(Top()) + 8 + p >= heap.Length)
      ensures ok ==> Indexed() && Bounded() && Chosen(old(Shape()), p, header) && Shape() == Claimed(old(Shape()), p, header)
      ensures ok ==> OnlyIn(old(heap[..]), heap[..], header + 8 + p, ClaimEnd(old(Shape()), p, header))
      ensures !ok ==> nextFreeDynamic >= heap.Length && heap[..] == old(heap[..]) && freeByAddr == old(freeByAddr)
    {
      hide Tiled, Settled, Chosen, Agrees;
      ghost var l := Shape();
      TopIsNotFree(l);
      if nextFreeDynamic == 8 { nextFreeDynamic := DynamicBase(heap.Length); }
      header := PickFree(p);
      ok := true;
      if header == 0 {
        header := nextFreeDynamic;
        nextFreeDynamic := nextFreeDynamic + 8 + p;
        if nextFreeDynamic >= heap.Length { return false, 0; }
        size := size[header := p];
      } else {
        FreeIsNotTop(l, p, header);
      }
    }

    method Allocate(count: u32, tag: Tag) returns (ok: bool, address: nat)
      requires Valid() && Top() + 8 + Payload(count, tag) < M32
      modifies this, heap
      ensures ok <==> !(Chosen(old(Shape()), Payload(count, tag), old(Top())) && old(Top()) + 8 + Payload(count, tag) >= heap.Length)
      ensures ok ==> Valid() && address >= 8 && Placed(old(heap[..]), heap[..], old(Shape()), Shape(), address - 8, count, tag)
      ensures ok ==> address - 8 in size && Tightest(size[address - 8], count, tag)
      ensures ok ==> currentlyUsedWords == old(currentlyUsedWords) + (8 + size[address - 8]) / 8
      ensures ok ==> liveObjectsCount == old(liveObjectsCount) + 1
      ensures !ok ==> nextFreeDynamic >= heap.Length && heap[..] == old(heap[..]) && freeByAddr == old(freeByAddr)
    {
      hide Tiled, Settled, Chosen, Payload, Headed, DynamicBase, Claimed, Stamped, Bounded, Indexed, Listed, LiveWords, LiveCount, Tightest;
      ghost var l, b0 := Shape(), heap[..];
      var p := Payload(count, tag);
      PayloadIsTightest(count, tag);
      var header;
      ok, header := Reserve(p);
      if !ok { return false, 0; }
      ghost var b1 := heap[..];
      ClaimedOk(l, p, header);
      ClaimCounts(l, p, header);
      CountAllocation(p, l);
      InsideHeap(header);
      WriteBlock(header, p, count, tag);
      ClaimKeeps(b0, b1, heap[..], l, p, header, count, tag);
      SyncFreeBlocks();
      address := header + 8;
    }

    method CountAllocation(p: nat, ghost l: Layout)
      requires currentlyUsedWords == staticWords + LiveWords(l) && liveObjectsCount == LiveCount(l)
      requires LiveWords(Shape()) == LiveWords(l) + (8 + p) / 8 && LiveCount(Shape()) == LiveCount(l) + 1
      modifies this`currentlyUsedWords, this`peakUsedWords, this`liveObjectsCount
      ensures Counted() && liveObjectsCount == old(liveObjectsCount) + 1
      ensures currentlyUsedWords == old(currentlyUsedWords) + (8 + p) / 8
    {
      hide LiveWords, LiveCount;
      currentlyUsedWords := currentlyUsedWords + (8 + p) / 8;
      if currentlyUsedWords > peakUsedWords { peakUsedWords := currentlyUsedWords; }
      liveObjectsCount := liveObjectsCount + 1;
    }

    lemma InsideHeap(h: nat)
      requires Bounded() && Tiled(Shape()) && h in size
      ensures h + 8 + size[h] <= heap.Length
    {
      hide Tiled;
      TiledFacts(Shape(), h);
    }

    // ------------------------------------------------------------------- freeing

    /** The block at h has left the live ones and is not yet in the indexes; l is the
        division of the heap with that block free. */
    ghost predicate Pending(h: nat, p: nat, l: Layout)
      reads this`nextFreeDynamic, this`nextFreeStatic, this`size, this`freeByAddr, this`freeBySize
    {
      Bounded() && Tiled(l) && Unsettled(l, h) && h in l.size && l.size[h] == p && Indexed() && h !in freeByAddr &&
      l == Shape().(free := freeByAddr.Keys + {h})
    }

    method Deallocate(address: nat)
      requires Valid() && (address != 0 ==> address >= 8 && IsLive(Shape(), address - 8))
      modifies this, heap
      ensures Valid()
      ensures address == 0 ==> Shape() == old(Shape()) && heap[..] == old(heap[..])
      ensures address != 0 ==> Returned(old(heap[..]), heap[..], old(Shape()), Shape(), address - 8)
      ensures address != 0 ==> currentlyUsedWords == old(currentlyUsedWords) - (8 + old(size)[address - 8]) / 8
      ensures address != 0 ==> liveObjectsCount == old(liveObjectsCount) - 1
    {
      hide Tiled, Settled, Payload, Headed, DynamicBase, Bounded, Indexed, Listed, LiveWords, LiveCount, Unsettled, Returned, Alone, SameLive, Pending;
      if address == 0 { return; }
      var header := address - 8;
      ghost var l, b0 := Shape(), heap[..];
      InsideHeap(header);
      var p := ReadPayload(header);
      FreedOk(l, header);
      FreedCounts(l, header);
      CountDeallocation(p, l);
      WriteWord(header + 4, 0);
      ghost var l1, b1 := Freed(l, header), heap[..];
      NowPending(header, p);
      ghost var at, l2 := Reclaim(header, p, l1);
      ReturnedOk(b0, b1, heap[..], header, at, l, l2, Shape());
      SyncFreeBlocks();
    }

    /** Coalesce, then lower the top or index the block. */
    method Reclaim(h: nat, p: nat, ghost l: Layout) returns (ghost at: nat, ghost l2: Layout)
      requires Pending(h, p, l)
      modifies this`nextFreeDynamic, this`freeByAddr, this`freeBySize, this`size, heap
      ensures Bounded() && Indexed() && Tiled(Shape()) && Settled(Shape()) && Top() <= l.top
      ensures Tiled(l2) && at in l2.size && at in l2.free && SameLive(l, l2) && SameLive(l2, Shape())
      ensures OnlyIn(old(heap[..]), heap[..], at, at + 4)
    {
      hide Tiled, Settled, Bounded, Indexed, Unsettled, Alone;
      ghost var l1;
      var header, payload;
      payload, l1 := JoinNext(h, p, l);
      header, payload, l2 := JoinPrevious(h, payload, l1);
      at := header;
      assert at in l2.size && at in l2.free && Tiled(l2);
      Settle(header, payload, l2);
    }

    /** A live block's payload, from its header. */
    method ReadPayload(h: nat) returns (p: nat)
      requires Headed(heap[..], Shape()) && IsLive(Shape(), h)
      ensures p == size[h]
    {
      hide Word32, Payload;
      assert HeaderFits(heap[..], Shape(), h);
      var count := Word32(heap[..], h);
      var tagAndRef := Word32(heap[..], h + 4);
      p := Payload(count, tagAndRef / TAG_UNIT);
    }

    method CountDeallocation(p: nat, ghost l: Layout)
      requires currentlyUsedWords == staticWords + LiveWords(l) && liveObjectsCount == LiveCount(l)
      requires LiveWords(l) >= (8 + p) / 8 && LiveCount(l) > 0
      modifies this`currentlyUsedWords, this`liveObjectsCount
      ensures currentlyUsedWords == old(currentlyUsedWords) - (8 + p) / 8 && liveObjectsCount == old(liveObjectsCount) - 1
    {
      hide LiveWords, LiveCount;
      currentlyUsedWords := currentlyUsedWords - (8 + p) / 8;
      if liveObjectsCount > 0 { liveObjectsCount := liveObjectsCount - 1; }
    }

    lemma NowPending(h: nat, p: nat)
      requires Bounded() && Tiled(Freed(Shape(), h)) && Unsettled(Freed(Shape(), h), h) && Indexed()
      requires IsLive(Shape(), h) && size[h] == p
      ensures Pending(h, p, Freed(Shape(), h))
    {
      hide Tiled, Unsettled, Indexed, Bounded;
    }

    /** Join the freed block with a free one behind it. */
    method JoinNext(h: nat, p: nat, ghost l: Layout) returns (payload: nat, ghost l1: Layout)
      requires Pending(h, p, l)
      modifies this`freeByAddr, this`freeBySize, this`size
      ensures Pending(h, payload, l1) && SameLive(l, l1) && End(l1, h) !in l1.free && l1.top == l.top
    {
      hide Tiled, Unsettled, Agrees, Bounded;
      payload, l1 := p, l;
      var next := h + 8 + p;
      TiledFacts(l, h);
      if next in freeByAddr {
        JoinNextOk(l, h);
        TiledFacts(l, next);
        JoinedLive(l, h);
        payload := p + 8 + freeByAddr[next];
        Erase(next);
        size := size[h := payload] - {next};
        l1 := Joined(l, h);
      }
    }

    /** Join the freed block with a free one that ends where it begins. */
    method JoinPrevious(h: nat, p: nat, ghost l: Layout) returns (header: nat, payload: nat, ghost l1: Layout)
      requires Pending(h, p, l) && End(l, h) !in l.free
      modifies this`freeByAddr, this`freeBySize, this`size
      ensures Pending(header, payload, l1) && SameLive(l, l1) && Alone(l1, header) && l1.top == l.top
    {
      hide Tiled, Unsettled, Agrees, Bounded;
      header, payload, l1 := h, p, l;
      var below := set a | a in freeByAddr && a < h;
      if below == {} {
        NoneBelow(l, h, below);
        return;
      }
      ghost var greatest := Greatest(below);
      var prev :| prev in below && forall b :: b in below ==> b <= prev;
      if prev + 8 + freeByAddr[prev] == h {
        header, payload := JoinBack(prev, h, p, l);
        l1 := Joined(l, prev);
      } else {
        assert forall a :: a in l.free && a < h ==> a in below;
        NothingBefore(l, h, prev);
      }
    }

    method JoinBack(prev: nat, h: nat, p: nat, ghost l: Layout) returns (header: nat, payload: nat)
      requires Pending(h, p, l) && End(l, h) !in l.free && prev in freeByAddr && prev + 8 + freeByAddr[prev] == h
      modifies this`freeByAddr, this`freeBySize, this`size
      ensures prev in l.size && End(l, prev) in l.size && Pending(header, payload, Joined(l, prev)) && header == prev
      ensures SameLive(l, Joined(l, prev)) && Alone(Joined(l, prev), header)
    {
      hide Tiled, Unsettled, Agrees, Bounded, Alone;
      JoinPreviousOk(l, prev, h);
      TiledFacts(l, h);
      JoinedLive(l, prev);
      header, payload := prev, freeByAddr[prev] + 8 + p;
      Erase(prev);
      size := size[prev := payload] - {h};
    }

    /** Lower the top when the freed block ends there, else put it in the indexes. */
    method Settle(h: nat, p: nat, ghost l: Layout)
      requires Pending(h, p, l) && Alone(l, h)
      modifies this`nextFreeDynamic, this`freeByAddr, this`freeBySize, this`size, heap
      ensures Bounded() && Indexed() && Tiled(Shape()) && Settled(Shape()) && SameLive(l, Shape()) && Top() <= l.top
      ensures OnlyIn(old(heap[..]), heap[..], h, h + 4)
    {
      hide Tiled, Unsettled, Agrees, Settled, Alone, Word32;
      TiledFacts(l, h);
      if h + 8 + p == nextFreeDynamic {
        LoweredOk(l, h);
        nextFreeDynamic := h;
        size := size - {h};
        assert Shape() == Lowered(l, h);
      } else {
        KeptOk(l, h);
        WriteWord(h, p);
        Insert(p, h);
        assert Shape() == l;
      }
    }

    // ------------------------------------------------------- the rest of the memory

    /** Static space grows below the dynamic base; overflow ends the run. */
    method StaticAllocation(bytes: nat, address: nat) returns (ok: bool, r: nat)
      requires Valid() && nextFreeStatic + 7 + bytes < M32
      modifies this
      ensures ok <==> address != 0 || (old(nextFreeStatic) + 7) / 8 * 8 + bytes < DynamicBase(heap.Length)
      ensures ok ==> Valid() && Shape() == old(Shape()) && currentlyUsedWords == old(currentlyUsedWords) + (bytes + 7) / 8
      ensures ok && address == 0 ==> old(nextFreeStatic) <= r && r % 8 == 0 && r + bytes == nextFreeStatic < DynamicBase(heap.Length)
    {
      hide Tiled, Settled, Headed, Listed, Indexed, LiveWords, LiveCount, DynamicBase;
      r := address;
      if address == 0 {
        r := (nextFreeStatic + 7) / 8 * 8;
        nextFreeStatic := r + bytes;
        if nextFreeStatic >= DynamicBase(heap.Length) { return false, r; }
      }
      currentlyUsedWords := currentlyUsedWords + (bytes + 7) / 8;
      if currentlyUsedWords > peakUsedWords { peakUsedWords := currentlyUsedWords; }
      staticWords := staticWords + (bytes + 7) / 8;
      ok := true;
    }

    /** A program's write into the payload of a live block. */
    method WriteU8(address: nat, offset: nat, value: u8)
      requires Valid() && address >= 8 && IsLive(Shape(), address - 8) && offset < size[address - 8]
      modifies heap
      ensures Valid() && heap[address + offset] == value && OnlyIn(old(heap[..]), heap[..], address + offset, address + offset + 1)
      ensures OthersKept(old(heap[..]), heap[..], Shape(), address - 8)
    {
      hide Tiled, Settled, Listed, Indexed, Bounded, HeaderFits, LiveWords, LiveCount;
      ghost var b0 := heap[..];
      InsideHeap(address - 8);
      heap[address + offset] := value;
      assert OnlyIn(b0, heap[..], address + offset, address + offset + 1);
      WriteKeeps(b0, heap[..], Shape(), address - 8, address + offset, address + offset + 1);
      forall a | IsLive(Shape(), a) ensures HeaderFits(heap[..], Shape(), a) {
        TiledFacts(Shape(), a);
        PayloadWriteKeepsHeader(b0, heap[..], Shape(), address - 8, address + offset, a);
      }
    }

    /** One more reference: the low 28 bits of the header's second word. */
    method IncreaseReference(address: nat)
      requires Valid() && (8 <= address < heap.Length ==> IsLive(Shape(), address - 8))
      modifies heap
      ensures Valid() && (!(8 <= address < heap.Length) ==> heap[..] == old(heap[..]))
      ensures 8 <= address < heap.Length ==> OnlyIn(old(heap[..]), heap[..], address - 4, address)
      ensures 8 <= address < heap.Length ==>
                Word32(heap[..], address - 4) % TAG_UNIT == (old(Word32(heap[..], address - 4)) + 1) % TAG_UNIT &&
                Word32(heap[..], address - 4) / TAG_UNIT == old(Word32(heap[..], address - 4)) / TAG_UNIT &&
                OthersKept(old(heap[..]), heap[..], Shape(), address - 8)
    {
      hide Tiled, Settled, Listed, Indexed, Bounded, HeaderFits, LiveWords, LiveCount, Word32;
      if address < 8 || address >= heap.Length { return; }
      ghost var b0 := heap[..];
      var tagAndRef := Word32(heap[..], address - 4);
      PackedCount(tagAndRef);
      WriteWord(address - 4, tagAndRef / TAG_UNIT * TAG_UNIT + (tagAndRef % TAG_UNIT + 1) % TAG_UNIT);
      WriteKeeps(b0, heap[..], Shape(), address - 8, address - 4, address);
      forall a | IsLive(Shape(), a) ensures HeaderFits(heap[..], Shape(), a) {
        TiledFacts(Shape(), a);
        CountWriteKeepsHeader(b0, heap[..], Shape(), address - 8, a);
      }
    }

    /** Once nothing is live, the memory is as before the first allocation. */
    lemma Drained()
      requires Valid() && forall a :: !IsLive(Shape(), a)
      ensures Top() == DynamicBase(heap.Length) && freeByAddr == map[] && freeBySize == [] && freeBlocks == []
      ensures currentlyUsedWords == staticWords && liveObjectsCount == 0
    {
      hide Tiled, Settled, Bounded, Headed, DynamicBase;
      forall a | a in Shape().size ensures a in Shape().free { assert !IsLive(Shape(), a); }
      DrainedCompletely(Shape());
      NothingUsed(Shape(), Top());
      assert freeByAddr.Keys == {};
      NothingIndexed(freeByAddr, freeBySize, freeBlocks);
    }
  }

  lemma NothingIndexed(m: map<nat, nat>, s: seq<Entry>, blocks: seq<nat>)
    requires Agrees(m, s) && forall a :: a in blocks ==> a in m
    ensures s != [] || blocks != [] ==> m.Keys != {}
  {
    if s != [] { assert s[0].header in m; }
    if blocks != [] { assert blocks[0] in m; }
  }

  lemma WriteKeeps(before: seq<u8>, after: seq<u8>, l: Layout, h: nat, lo: nat, hi: nat)
    requires Tiled(l) && IsLive(l, h) && h <= lo <= hi <= End(l, h) && OnlyIn(before, after, lo, hi)
    ensures OthersKept(before, after, l, h)
  {
    hide Tiled;
    forall a | a != h && IsLive(l, a) ensures Kept(before, after, l, a) {
      Ordered(l, a, h);
      Ordered(l, h, a);
    }
  }

  lemma PayloadWriteKeepsHeader(before: seq<u8>, after: seq<u8>, l: Layout, h: nat, at: nat, a: nat)
    requires OthersKept(before, after, l, h) && OnlyIn(before, after, at, at + 1) && h + 8 <= at
    requires IsLive(l, a) && l.size[a] >= 8 && HeaderFits(before, l, a)
    ensures HeaderFits(after, l, a)
  {
    hide Payload, Word32;
    SameWord(before, after, a);
    SameWord(before, after, a + 4);
  }

  lemma PackedCount(w: u32)
    ensures var w1: int := w / TAG_UNIT * TAG_UNIT + (w % TAG_UNIT + 1) % TAG_UNIT;
            0 <= w1 < M32 && w1 / TAG_UNIT == w / TAG_UNIT && w1 % TAG_UNIT == (w + 1) % TAG_UNIT
  {
  }

  lemma CountWriteKeepsHeader(before: seq<u8>, after: seq<u8>, l: Layout, h: nat, a: nat)
    requires OthersKept(before, after, l, h) && OnlyIn(before, after, h + 4, h + 8) && h + 8 <= |before|
    requires Word32(after, h + 4) / TAG_UNIT == Word32(before, h + 4) / TAG_UNIT
    requires IsLive(l, a) && l.size[a] >= 8 && HeaderFits(before, l, a)
    ensures HeaderFits(after, l, a)
  {
    hide Payload, Word32;
    SameWord(before, after, a);
    if a != h { SameWord(before, after, a + 4); }
  }

  lemma NoneBelow(l: Layout, h: nat, below: set<nat>)
    requires Tiled(l) && Unsettled(l, h) && h in l.size && End(l, h) !in l.free
    requires below == {} && forall a :: a in l.free && a < h ==> a in below
    ensures Alone(l, h)
  {
    NothingBefore(l, h, h);
  }

  lemma FreedCounts(l: Layout, h: nat)
    requires Tiled(l) && Tiled(Freed(l, h)) && IsLive(l, h)
    ensures LiveWords(Freed(l, h)) == LiveWords(l) - (8 + l.size[h]) / 8 && LiveCount(Freed(l, h)) == LiveCount(l) - 1
  {
    hide Tiled;
    UsedDiffers(l, Freed(l, h), h, l.top);
    TiledFacts(l, h);
    OneMoreLive(Freed(l, h), l, h);
  }

  /** Freeing touches the bytes of no other live block. */
  lemma ReturnedOk(b0: seq<u8>, b1: seq<u8>, b2: seq<u8>, h: nat, at: nat, l: Layout, l3: Layout, l4: Layout)
    requires Tiled(l) && Tiled(l3) && Tiled(l4) && IsLive(l, h) && Headed(b0, l) && at in l3.size && at in l3.free
    requires SameLive(Freed(l, h), l3) && SameLive(l3, l4) && l4.top <= l.top
    requires OnlyIn(b0, b1, h + 4, h + 8) && OnlyIn(b1, b2, at, at + 4)
    ensures Returned(b0, b2, l, l4, h) && Headed(b2, l4)
    ensures LiveWords(l4) == LiveWords(Freed(l, h)) && LiveCount(l4) == LiveCount(Freed(l, h))
  {
    hide Tiled, HeaderFits, LiveWords, LiveCount;
    forall a | a != h && IsLive(l, a) ensures Kept(b0, b2, l, a) && IsLive(l3, a) && l3.size[a] == l.size[a] {
      assert IsLive(Freed(l, h), a);
      ReturnedApart(l, l3, h, at, a);
    }
    forall a | IsLive(l4, a) ensures HeaderFits(b2, l4, a) {
      assert IsLive(l3, a) && IsLive(Freed(l, h), a);
      TiledFacts(l, a);
      HeaderStays(b0, b2, l, l4, a);
    }
    SameLiveCounts(Freed(l, h), l4);
  }

  lemma ReturnedApart(l: Layout, l3: Layout, h: nat, at: nat, a: nat)
    requires Tiled(l) && Tiled(l3) && h in l.size && a in l.size && a in l3.size && l3.size[a] == l.size[a] && at in l3.size && a != h && a != at
    ensures (End(l, a) <= h || h + 16 <= a) && (End(l, a) <= at || at + 16 <= a)
  {
    hide Tiled;
    TiledFacts(l, h);
    TiledFacts(l3, at);
    Ordered(l, a, h);
    Ordered(l, h, a);
    Ordered(l3, a, at);
    Ordered(l3, at, a);
  }

  lemma SameLiveCounts(l: Layout, l1: Layout)
    requires Tiled(l1) && SameLive(l, l1) && l1.top <= l.top
    ensures LiveWords(l1) == LiveWords(l) && LiveCount(l1) == LiveCount(l)
  {
    hide Tiled;
    UsedDiffers(l, l1, 0, l.top);
    NothingAbove(l1, l.top);
    forall a ensures a in l1.size.Keys - l1.free <==> a in l.size.Keys - l.free {
      assert IsLive(l, a) <==> IsLive(l1, a);
    }
    assert l1.size.Keys - l1.free == l.size.Keys - l.free;
  }

  lemma {:induction false} NothingUsed(l: Layout, limit: nat)
    requires l.size == map[]
    ensures Used(l, limit) == 0
  {
    if limit != 0 { NothingUsed(l, limit - 1); }
  }

  /** What the lower bound for p tells about all free blocks. */
  lemma SearchedExactly(l: Layout, m: map<nat, nat>, s: seq<Entry>, p: nat, i: nat)
    requires Agrees(m, s) && l.free == m.Keys && forall a :: a in m ==> a in l.size && m[a] == l.size[a]
    requires i <= |s| && (forall k :: 0 <= k < i ==> s[k].payload < p) && forall k :: i <= k < |s| ==> s[k].payload >= p
    ensures i < |s| && s[i].payload == p ==> Chosen(l, p, s[i].header)
    ensures !(i < |s| && s[i].payload == p) ==> forall a :: FreeOf(l, a) ==> l.size[a] != p
  {
    if i < |s| && s[i].payload == p {
      assert FreeOf(l, s[i].header) && l.size[s[i].header] == p;
    } else {
      forall a | FreeOf(l, a) ensures l.size[a] != p {
        assert Entry(m[a], a) in s;
      }
    }
  }

  lemma SearchedLarger(l: Layout, m: map<nat, nat>, s: seq<Entry>, p: nat, i: nat)
    requires Agrees(m, s) && l.free == m.Keys && forall a :: a in m ==> a in l.size && m[a] == l.size[a]
    requires i <= |s| && (forall k :: 0 <= k < i ==> s[k].payload < p + 16) && forall k :: i <= k < |s| ==> s[k].payload >= p + 16
    requires forall a :: FreeOf(l, a) ==> l.size[a] != p
    ensures Chosen(l, p, if i < |s| then s[i].header else l.top)
  {
    if i < |s| {
      assert FreeOf(l, s[i].header) && l.size[s[i].header] >= p + 16;
      forall a | FreeOf(l, a) && l.size[a] >= p + 16 ensures s[i].payload <= l.size[a] {
        assert Entry(m[a], a) in s;
      }
    } else {
      forall a | FreeOf(l, a) ensures l.size[a] < p + 16 {
        assert Entry(m[a], a) in s;
      }
    }
  }

  lemma SameWord(before: seq<u8>, after: seq<u8>, a: nat)
    requires a + 4 <= |before| == |after| && forall i :: a <= i < a + 4 ==> after[i] == before[i]
    ensures Word32(after, a) == Word32(before, a)
  {
  }

  lemma TopIsNotFree(l: Layout)
    requires Tiled(l)
    ensures l.top !in l.size && l.free <= l.size.Keys
  {
    hide Tiled;
    if l.top in l.size { TiledFacts(l, l.top); }
    FreeAreBlocks(l);
  }

  lemma FreeAreBlocks(l: Layout)
    requires Tiled(l)
    ensures l.free <= l.size.Keys
  {
  }

  lemma FreeIsNotTop(l: Layout, p: nat, h: nat)
    requires Tiled(l) && h in l.free && Chosen(l, p, h)
    ensures h != l.top && !Chosen(l, p, l.top)
  {
    hide Tiled;
    TopIsNotFree(l);
  }

  lemma ClaimedOk(l: Layout, p: nat, h: nat)
    requires Tiled(l) && Settled(l) && p >= 8 && p % 8 == 0 && Chosen(l, p, h)
    ensures var l1 := Claimed(l, p, h);
            Tiled(l1) && Settled(l1) && IsLive(l1, h) && l1.size[h] == p && !IsLive(l, h) && SameLiveBut(l, l1, h) &&
            l.top <= l1.top
    ensures FreeOf(l, h) || h == l.top
  {
    hide Tiled, Settled;
    TopIsNotFree(l);
    if FreeOf(l, h) {
      if l.size[h] == p {
        TakenOk(l, h);
      } else {
        SplitOk(l, h, p);
        SplitLive(l, h, p);
      }
    } else {
      RaisedOk(l, p);
    }
  }

  /** The bytes written by a claim belong to no block that was live. */
  lemma ClaimKeeps(b0: seq<u8>, b1: seq<u8>, b2: seq<u8>, l: Layout, p: nat, h: nat, count: u32, tag: Tag)
    requires Tiled(l) && Settled(l) && p == Payload(count, tag) && Chosen(l, p, h) && Headed(b0, l)
    requires OnlyIn(b0, b1, h + 8 + p, ClaimEnd(l, p, h)) && OnlyIn(b1, b2, h, h + 8 + p) && Stamped(b2, h, p, count, tag)
    ensures Placed(b0, b2, l, Claimed(l, p, h), h, count, tag) && Headed(b2, Claimed(l, p, h))
  {
    hide Tiled, Settled, Chosen, Payload, HeaderFits, Claimed, ClaimEnd;
    ClaimedOk(l, p, h);
    var l1 := Claimed(l, p, h);
    forall a | a != h && IsLive(l, a) ensures Kept(b0, b2, l, a) {
      ClaimApart(l, p, h, a);
    }
    forall a | IsLive(l1, a) ensures HeaderFits(b2, l1, a) {
      if a == h {
        NewHeaderFits(b2, l1, h, count, tag);
      } else {
        TiledFacts(l, a);
        HeaderStays(b0, b2, l, l1, a);
      }
    }
  }

  lemma ClaimApart(l: Layout, p: nat, h: nat, a: nat)
    requires Tiled(l) && Settled(l) && p >= 8 && p % 8 == 0 && Chosen(l, p, h) && a != h && IsLive(l, a)
    ensures (End(l, a) <= h || ClaimEnd(l, p, h) <= a) && h + 8 + p <= ClaimEnd(l, p, h)
  {
    hide Tiled, Settled;
    ClaimedOk(l, p, h);
    if FreeOf(l, h) {
      Ordered(l, a, h);
      Ordered(l, h, a);
    } else {
      TiledFacts(l, a);
    }
  }

  lemma NewHeaderFits(b: seq<u8>, l: Layout, h: nat, count: u32, tag: Tag)
    requires h in l.size && l.size[h] == Payload(count, tag) && Stamped(b, h, l.size[h], count, tag)
    ensures HeaderFits(b, l, h)
  {
    hide Payload;
    assert (tag * TAG_UNIT + 1) / TAG_UNIT == tag;
  }

  lemma HeaderStays(before: seq<u8>, after: seq<u8>, l: Layout, l1: Layout, a: nat)
    requires a in l.size && a in l1.size && l1.size[a] == l.size[a] >= 8 && HeaderFits(before, l, a) && Kept(before, after, l, a)
    ensures HeaderFits(after, l1, a)
  {
    hide Payload, Word32;
    SameWord(before, after, a);
    SameWord(before, after, a + 4);
  }

  lemma ClaimCounts(l: Layout, p: nat, h: nat)
    requires Tiled(l) && Settled(l) && p >= 8 && p % 8 == 0 && Chosen(l, p, h)
    ensures var l1 := Claimed(l, p, h);
            LiveWords(l1) == LiveWords(l) + (8 + p) / 8 && LiveCount(l1) == LiveCount(l) + 1
  {
    hide Tiled, Settled, Chosen, Claimed;
    ClaimedOk(l, p, h);
    var l1 := Claimed(l, p, h);
    UsedDiffers(l, l1, h, l1.top);
    NothingAbove(l, l1.top);
    TiledFacts(l1, h);
    OneMoreLive(l, l1, h);
  }

  lemma OneMoreLive(l: Layout, l1: Layout, h: nat)
    requires SameLiveBut(l, l1, h) && !IsLive(l, h) && IsLive(l1, h)
    ensures LiveCount(l1) == LiveCount(l) + 1
  {
    forall a ensures a in l1.size.Keys - l1.free <==> a in (l.size.Keys - l.free) + {h} {
      assert IsLive(l, a) || !IsLive(l, a);
    }
    assert l1.size.Keys - l1.free == (l.size.Keys - l.free) + {h};
  }
}
