/** The static state of kernel/memory.c: two byte-packed bitmaps, the heap bounds, and the loops
    over them. */
module PageMemory {
  import opened Paging
  import opened Allocation
  import opened Multiboot
  import Bitmaps

  const BITMAP_SIZE := PAGE_COUNT / 8

  function AlignUp(value: nat): nat { (value + PAGE_SIZE - 1) / PAGE_SIZE * PAGE_SIZE }

  function AlignDown(value: nat): nat { value / PAGE_SIZE * PAGE_SIZE }

  /** The pages between two page boundaries. */
  function Between(start: nat, end: nat): set<nat> {
    Range(start / PAGE_SIZE, if end > start then (end - start) / PAGE_SIZE else 0)
  }

  function ClampStart(base: nat): nat {
    if base < FIRST_FRAME * PAGE_SIZE then FIRST_FRAME * PAGE_SIZE else base
  }

  /** The end of a range cut at the identity-map limit, without ever adding past 64 bits. */
  function ClampEnd(base: nat, length: nat): nat
    requires base < PAGE_COUNT * PAGE_SIZE
  {
    if length > PAGE_COUNT * PAGE_SIZE - base then PAGE_COUNT * PAGE_SIZE else base + length
  }

  lemma UsableBounds(base: nat, length: nat)
    requires base < PAGE_COUNT * PAGE_SIZE
    ensures Between(AlignUp(ClampStart(base)), AlignDown(ClampEnd(base, length))) == PagesInside(base, length)
  {
    var start, end := AlignUp(ClampStart(base)), AlignDown(ClampEnd(base, length));
    forall p: nat
      ensures InRange(p, start / PAGE_SIZE, if end > start then (end - start) / PAGE_SIZE else 0) <==>
              Allocable(p) && Inside(p, base, length)
    {
    }
  }

  lemma ReservedBounds(base: nat, length: nat)
    requires base < PAGE_COUNT * PAGE_SIZE && length != 0
    ensures Between(AlignDown(ClampStart(base)), AlignUp(ClampEnd(base, length))) == PagesOverlapping(base, length)
    ensures AlignUp(ClampEnd(base, length)) <= PAGE_COUNT * PAGE_SIZE
  {
    var start, end := AlignDown(ClampStart(base)), AlignUp(ClampEnd(base, length));
    forall p: nat
      ensures InRange(p, start / PAGE_SIZE, if end > start then (end - start) / PAGE_SIZE else 0) <==>
              Allocable(p) && Overlaps(p, base, length)
    {
    }
  }

  /** One page more of a range, added to a set or taken from it. */
  lemma RangeStep(s: set<nat>, first: nat, n: nat)
    ensures s + Range(first, 0) == s && s - Range(first, 0) == s
    ensures s + Range(first, n + 1) == s + Range(first, n) + {first + n}
    ensures s - Range(first, n + 1) == s - Range(first, n) - {first + n}
  {
    RangeNext(first, n);
  }

  lemma PageAt(start: nat, n: nat)
    ensures (start + n * PAGE_SIZE) / PAGE_SIZE == start / PAGE_SIZE + n
  {
  }

  lemma PagesDone(start: nat, end: nat, n: nat)
    requires start % PAGE_SIZE == 0 && end % PAGE_SIZE == 0
    requires start + n * PAGE_SIZE >= end && (n == 0 || start + n * PAGE_SIZE <= end)
    ensures Between(start, end) == Range(start / PAGE_SIZE, n)
  {
  }

  class Memory {
    const pageBitmap: array<bv8>
    const usableBitmap: array<bv8>
    var usableBytes: nat
    var entryCount: nat
    var heapBase: nat
    var heapLimit: nat
    var heapPtr: nat
    var ready: bool

    ghost predicate Shape()
      reads this
    {
      pageBitmap != usableBitmap && pageBitmap.Length == BITMAP_SIZE && usableBitmap.Length == BITMAP_SIZE
    }

    ghost function Reserved(): set<nat>
      reads pageBitmap
    {
      Bitmaps.Pages(pageBitmap[..])
    }

    ghost function Usable(): set<nat>
      reads usableBitmap
    {
      Bitmaps.Pages(usableBitmap[..])
    }

    ghost function State(): Allocator
      reads this, pageBitmap, usableBitmap
    {
      Allocator(Reserved(), Usable(), usableBytes, ready, heapBase, heapLimit, heapPtr)
    }

    constructor ()
      ensures Shape() && fresh(pageBitmap) && fresh(usableBitmap)
      ensures !ready && heapBase == 0 && heapLimit == 0 && heapPtr == 0
    {
      pageBitmap := new bv8[BITMAP_SIZE];
      usableBitmap := new bv8[BITMAP_SIZE];
      usableBytes, entryCount, heapBase, heapLimit, heapPtr, ready := 0, 0, 0, 0, 0, false;
    }

    // -------------------------------------------------------------- marking

    method Offer(page: nat)
      requires Shape() && page < PAGE_COUNT
      modifies pageBitmap, usableBitmap
      ensures Usable() == old(Usable()) + {page} && Reserved() == old(Reserved()) - {page}
    {
      Bitmaps.Set(usableBitmap, page);
      Bitmaps.Clear(pageBitmap, page);
    }

    method Withdraw(page: nat)
      requires Shape() && page < PAGE_COUNT
      modifies pageBitmap, usableBitmap
      ensures Usable() == old(Usable()) - {page} && Reserved() == old(Reserved()) + {page}
    {
      Bitmaps.Clear(usableBitmap, page);
      Bitmaps.Set(pageBitmap, page);
    }

    /** The loop of mark_usable_range between two page boundaries. */
    method OfferPages(start: nat, end: nat)
      requires Shape() && start % PAGE_SIZE == 0 && end % PAGE_SIZE == 0 && end <= PAGE_COUNT * PAGE_SIZE
      modifies pageBitmap, usableBitmap
      ensures Usable() == old(Usable()) + Between(start, end)
      ensures Reserved() == old(Reserved()) - Between(start, end)
    {
      hide Range, Bitmaps.Pages;
      var address := start;
      ghost var done := 0;
      RangeStep(old(Usable()), start / PAGE_SIZE, 0);
      RangeStep(old(Reserved()), start / PAGE_SIZE, 0);
      while address < end
        invariant address == start + done * PAGE_SIZE
        invariant done == 0 || address <= end
        invariant Usable() == old(Usable()) + Range(start / PAGE_SIZE, done)
        invariant Reserved() == old(Reserved()) - Range(start / PAGE_SIZE, done)
      {
        RangeStep(old(Usable()), start / PAGE_SIZE, done);
        RangeStep(old(Reserved()), start / PAGE_SIZE, done);
        PageAt(start, done);
        Offer(address / PAGE_SIZE);
        address, done := address + PAGE_SIZE, done + 1;
      }
      PagesDone(start, end, done);
    }

    /** The loop of mark_reserved_range between two page boundaries. */
    method WithdrawPages(start: nat, end: nat)
      requires Shape() && start % PAGE_SIZE == 0 && end % PAGE_SIZE == 0 && end <= PAGE_COUNT * PAGE_SIZE
      modifies pageBitmap, usableBitmap
      ensures Usable() == old(Usable()) - Between(start, end)
      ensures Reserved() == old(Reserved()) + Between(start, end)
    {
      hide Range, Bitmaps.Pages;
      var address := start;
      ghost var done := 0;
      RangeStep(old(Usable()), start / PAGE_SIZE, 0);
      RangeStep(old(Reserved()), start / PAGE_SIZE, 0);
      while address < end
        invariant address == start + done * PAGE_SIZE
        invariant done == 0 || address <= end
        invariant Usable() == old(Usable()) - Range(start / PAGE_SIZE, done)
        invariant Reserved() == old(Reserved()) + Range(start / PAGE_SIZE, done)
      {
        RangeStep(old(Usable()), start / PAGE_SIZE, done);
        RangeStep(old(Reserved()), start / PAGE_SIZE, done);
        PageAt(start, done);
        Withdraw(address / PAGE_SIZE);
        address, done := address + PAGE_SIZE, done + 1;
      }
      PagesDone(start, end, done);
    }

    method MarkUsableRange(base: nat, length: nat)
      requires Shape()
      modifies pageBitmap, usableBitmap
      ensures Usable() == old(Usable()) + PagesInside(base, length)
      ensures Reserved() == old(Reserved()) - PagesInside(base, length)
    {
      if base >= PAGE_COUNT * PAGE_SIZE || length == 0 {
        assert PagesInside(base, length) == {};
        return;
      }
      var end := if length > PAGE_COUNT * PAGE_SIZE - base then PAGE_COUNT * PAGE_SIZE else base + length;
      var start := if base < FIRST_FRAME * PAGE_SIZE then FIRST_FRAME * PAGE_SIZE else base;
      start := AlignUp(start);
      end := AlignDown(end);
      UsableBounds(base, length);
      OfferPages(start, end);
    }

    method MarkReservedRange(base: nat, length: nat)
      requires Shape()
      modifies pageBitmap, usableBitmap
      ensures Usable() == old(Usable()) - PagesOverlapping(base, length)
      ensures Reserved() == old(Reserved()) + PagesOverlapping(base, length)
    {
      if base >= PAGE_COUNT * PAGE_SIZE || length == 0 {
        assert PagesOverlapping(base, length) == {};
        return;
      }
      var end := if length > PAGE_COUNT * PAGE_SIZE - base then PAGE_COUNT * PAGE_SIZE else base + length;
      var start := if base < FIRST_FRAME * PAGE_SIZE then FIRST_FRAME * PAGE_SIZE else base;
      start := AlignDown(start);
      end := AlignUp(end);
      ReservedBounds(base, length);
      if end > PAGE_COUNT * PAGE_SIZE {
        end := PAGE_COUNT * PAGE_SIZE;
      }
      WithdrawPages(start, end);
    }

    method ReserveAddressRange(s: Span)
      requires Shape()
      modifies pageBitmap, usableBitmap
      ensures var pages := if s.start < s.end then PagesOverlapping(s.start, s.end - s.start) else {};
              Usable() == old(Usable()) - pages && Reserved() == old(Reserved()) + pages
    {
      if s.end <= s.start {
        return;
      }
      MarkReservedRange(s.start, s.end - s.start);
    }

    /** reserve_kernel_ranges: one call for each of the kernel's own spans, in order. */
    method ReserveSpans(spans: seq<Span>)
      requires Shape()
      modifies pageBitmap, usableBitmap
      ensures Usable() == old(Usable()) - CoveredPages(spans)
      ensures Reserved() == old(Reserved()) + CoveredPages(spans)
    {
      for i := 0 to |spans|
        invariant Usable() == old(Usable()) - CoveredPages(spans[..i])
        invariant Reserved() == old(Reserved()) + CoveredPages(spans[..i])
      {
        CoveredPush(spans[..i], spans[i]);
        assert spans[..i + 1] == spans[..i] + [spans[i]];
        ReserveAddressRange(spans[i]);
      }
      assert spans[..|spans|] == spans;
    }

    // -------------------------------------------------------------- the two passes over the map

    /** First pass: check every entry and offer the type-1 ranges. */
    method OfferRecords(map_: seq<Byte>) returns (ok: bool)
      requires Shape()
      modifies pageBitmap, usableBitmap, this`entryCount
      ensures ok <==> Parse(map_, 0).Records?
      ensures ok ==> entryCount == old(entryCount) + |Parse(map_, 0).records|
      ensures ok ==> Usable() == old(Usable()) + OfferedPages(Parse(map_, 0).records)
      ensures ok ==> Reserved() == old(Reserved()) - OfferedPages(Parse(map_, 0).records)
    {
      hide Continues, OfferedPages, ClaimedPages, Bitmaps.Pages;
      var offset := 0;
      ghost var done: seq<Record> := [];
      ContinuesEnds(map_, []);
      while offset < |map_|
        invariant offset <= |map_|
        invariant Continues(map_, done, offset)
        invariant entryCount == old(entryCount) + |done|
        invariant Usable() == old(Usable()) + OfferedPages(done)
        invariant Reserved() == old(Reserved()) - OfferedPages(done)
        decreases |map_| - offset
      {
        ContinuesFits(map_, done, offset);
        if |map_| - offset < 24 || U32At(map_, offset) < 20 || U32At(map_, offset) > |map_| - offset - 4 {
          return false;
        }
        entryCount := entryCount + 1;
        var r := RecordAt(map_, offset);
        OfferedPush(done, r);
        if r.kind == 1 && r.length != 0 {
          MarkUsableRange(r.base, r.length);
        } else {
          assert r.kind == 1 ==> PagesInside(r.base, r.length) == {};
        }
        ContinuesStep(map_, done, offset);
        done := done + [r];
        offset := offset + U32At(map_, offset) + 4;
      }
      ContinuesEnds(map_, done);
      return true;
    }

    /** Second pass over the same bytes: no entry is checked again. */
    method ClaimRecords(map_: seq<Byte>)
      requires Shape()
      requires Parse(map_, 0).Records?
      modifies pageBitmap, usableBitmap
      ensures Usable() == old(Usable()) - ClaimedPages(Parse(map_, 0).records)
      ensures Reserved() == old(Reserved()) + ClaimedPages(Parse(map_, 0).records)
    {
      hide Continues, OfferedPages, ClaimedPages, Bitmaps.Pages;
      var offset := 0;
      ghost var done: seq<Record> := [];
      ContinuesEnds(map_, []);
      while offset < |map_|
        invariant offset <= |map_|
        invariant Continues(map_, done, offset)
        invariant Usable() == old(Usable()) - ClaimedPages(done)
        invariant Reserved() == old(Reserved()) + ClaimedPages(done)
        decreases |map_| - offset
      {
        ContinuesFits(map_, done, offset);
        var r := RecordAt(map_, offset);
        ClaimedPush(done, r);
        if r.kind != 1 || r.length == 0 {
          if r.kind == 1 {
            assert PagesOverlapping(r.base, r.length) == {};
          }
          MarkReservedRange(r.base, r.length);
        }
        ContinuesStep(map_, done, offset);
        done := done + [r];
        offset := offset + U32At(map_, offset) + 4;
      }
      ContinuesEnds(map_, done);
    }

    /** `done` are the records before `offset`. */
    static ghost predicate Continues(m: seq<Byte>, done: seq<Record>, offset: nat)
      requires offset <= |m|
    {
      match Parse(m, offset)
      case Bad => Parse(m, 0).Bad?
      case Records(rest) => Parse(m, 0) == Records(done + rest)
    }

    /** Nothing has been read before the map, and all of it once its end is reached. */
    static lemma ContinuesEnds(m: seq<Byte>, done: seq<Record>)
      ensures Continues(m, [], 0)
      ensures Continues(m, done, |m|) ==> Parse(m, 0) == Records(done)
      ensures OfferedPages([]) == {} && ClaimedPages([]) == {}
    {
      if Parse(m, 0).Records? {
        assert [] + Parse(m, 0).records == Parse(m, 0).records;
      }
      assert done + [] == done;
    }

    /** An entry that does not fit makes the whole map bad. */
    static lemma ContinuesFits(m: seq<Byte>, done: seq<Record>, offset: nat)
      requires offset < |m| && Continues(m, done, offset)
      ensures !EntryFits(m, offset) ==> Parse(m, 0).Bad?
    {
    }

    static lemma ContinuesStep(m: seq<Byte>, done: seq<Record>, offset: nat)
      requires offset < |m| && EntryFits(m, offset)
      requires Continues(m, done, offset)
      ensures Continues(m, done + [RecordAt(m, offset)], NextOffset(m, offset))
    {
      var rest := Parse(m, NextOffset(m, offset));
      if rest.Records? {
        var r := RecordAt(m, offset);
        assert done + ([r] + rest.records) == done + [r] + rest.records;
      }
    }

    // -------------------------------------------------------------- pages

    ghost function Counted(onlyFree: bool): set<nat>
      reads pageBitmap, usableBitmap
    {
      if onlyFree then Usable() - Reserved() else Usable()
    }

    /** How many pages from 1 MiB up are usable, or usable and free. */
    method CountPages(onlyFree: bool) returns (n: nat)
      requires Shape()
      ensures n == |Counted(onlyFree) * Range(FIRST_FRAME, PAGE_COUNT - FIRST_FRAME)|
    {
      n := 0;
      ghost var counted := Counted(onlyFree);
      assert counted * Range(FIRST_FRAME, 0) == {};
      for page := FIRST_FRAME to PAGE_COUNT
        invariant n == |counted * Range(FIRST_FRAME, page - FIRST_FRAME)|
      {
        var counts := Counts(page, onlyFree);
        CountNext(counted, page);
        if counts {
          n := n + 1;
        }
      }
    }

    method Counts(page: nat, onlyFree: bool) returns (counts: bool)
      requires Shape() && page < PAGE_COUNT
      ensures counts <==> page in Counted(onlyFree)
    {
      var usable := Bitmaps.Test(usableBitmap, page);
      var taken := Bitmaps.Test(pageBitmap, page);
      return usable && !(onlyFree && taken);
    }

    static lemma CountNext(s: set<nat>, page: nat)
      requires FIRST_FRAME <= page
      ensures |s * Range(FIRST_FRAME, page + 1 - FIRST_FRAME)| ==
              |s * Range(FIRST_FRAME, page - FIRST_FRAME)| + if page in s then 1 else 0
    {
      var before := s * Range(FIRST_FRAME, page - FIRST_FRAME);
      RangeNext(FIRST_FRAME, page - FIRST_FRAME);
      assert page !in before;
      assert s * Range(FIRST_FRAME, page + 1 - FIRST_FRAME) == before + (if page in s then {page} else {});
    }

    method RecountUsableMemory()
      requires Shape()
      modifies this`usableBytes
      ensures usableBytes == PAGE_SIZE * |Usable() * Range(FIRST_FRAME, PAGE_COUNT - FIRST_FRAME)|
    {
      var n := CountPages(false);
      usableBytes := n * PAGE_SIZE;
    }

    /** page_allocator_free_pages */
    method FreePageCount() returns (n: nat)
      requires Shape() && Valid(State())
      ensures n == |FreePages(State())|
    {
      n := CountPages(true);
      assert (Usable() - Reserved()) * Range(FIRST_FRAME, PAGE_COUNT - FIRST_FRAME) == FreePages(State());
    }

    method RangeIsFree(first: nat, n: nat) returns (free: bool)
      requires Shape()
      ensures free == FreeRun(Reserved(), first, n)
    {
      if first > PAGE_COUNT || n > PAGE_COUNT - first {
        return false;
      }
      for page := 0 to n
        invariant forall p :: first <= p < first + page ==> p !in Reserved()
      {
        var taken := Bitmaps.Test(pageBitmap, first + page);
        if taken {
          return false;
        }
      }
      return true;
    }

    method ReserveRun(first: nat, n: nat)
      requires Shape() && first + n <= PAGE_COUNT
      modifies pageBitmap
      ensures Reserved() == old(Reserved()) + Range(first, n)
    {
      for offset := 0 to n
        invariant Reserved() == old(Reserved()) + Range(first, offset)
      {
        RangeNext(first, offset);
        Bitmaps.Set(pageBitmap, first + offset);
      }
    }

    method PageAllocContiguous(n: nat) returns (address: nat, verdict: Verdict)
      requires Shape()
      modifies pageBitmap
      ensures (State(), address, verdict) == Allocate(old(State()), n)
    {
      hide FreeRun;
      if !ready || n == 0 || n > PAGE_COUNT {
        return 0, InvalidRequest;
      }
      var page := FIRST_FRAME;
      while page <= PAGE_COUNT - n
        invariant FIRST_FRAME <= page
        invariant Reserved() == old(Reserved())
        invariant FirstFit(Reserved(), n, FIRST_FRAME) == FirstFit(Reserved(), n, page)
      {
        var free := RangeIsFree(page, n);
        if free {
          ReserveRun(page, n);
          return page * PAGE_SIZE, Granted;
        }
        page := page + 1;
      }
      assert FirstFit(Reserved(), n, page) == 0;
      return 0, OutOfPages;
    }

    method PageFree(address: nat) returns (verdict: Verdict)
      requires Shape()
      modifies pageBitmap
      ensures (State(), verdict) == Free(old(State()), address)
    {
      if address % PAGE_SIZE != 0 || address < FIRST_FRAME * PAGE_SIZE || address >= PAGE_COUNT * PAGE_SIZE ||
         (address >= heapBase && address < heapLimit) {
        return NotOwnedPage;
      }
      var usable := Bitmaps.Test(usableBitmap, address / PAGE_SIZE);
      if !usable {
        return NotOwnedPage;
      }
      Bitmaps.Clear(pageBitmap, address / PAGE_SIZE);
      return Granted;
    }

    // -------------------------------------------------------------- heap

    /** malloc */
    method HeapAlloc(size: nat) returns (address: nat, verdict: Verdict)
      requires size < U64
      modifies this`heapPtr
      ensures (State(), address, verdict) == Malloc(old(State()), size)
    {
      if size == 0 || heapBase == 0 || heapLimit == 0 || heapPtr < heapBase || heapPtr > heapLimit {
        return 0, HeapNotReady;
      }
      if size > U64 - 1 - 15 {
        return 0, SizeOverflow;
      }
      var rounded := (size + 15) % U64 / 16 * 16;
      if rounded > heapLimit - heapPtr {
        return 0, HeapExhausted;
      }
      address, verdict := heapPtr, Granted;
      heapPtr := heapPtr + rounded;
    }

    // -------------------------------------------------------------- initialisation

    /** The bitmaps as the memory map leaves them, before the heap is taken. */
    method BuildBitmaps(map_: seq<Byte>, spans: seq<Span>) returns (ok: bool)
      requires Shape()
      modifies pageBitmap, usableBitmap, this`entryCount
      ensures ok <==> Parse(map_, 0).Records?
      ensures ok ==> Usable() == UsablePages(Parse(map_, 0).records, spans)
      ensures ok ==> forall p :: p in Usable() ==> FIRST_FRAME <= p < PAGE_COUNT
      ensures ok ==> forall p: nat :: p in Reserved() <==> p < PAGE_COUNT && p !in Usable()
      ensures ok ==> entryCount == |Parse(map_, 0).records|
    {
      hide Parse, ClaimedPages, CoveredPages;
      Bitmaps.Fill(pageBitmap, 0xFF);
      Bitmaps.Fill(usableBitmap, 0);
      entryCount := 0;
      assert Usable() == {};
      ok := OfferRecords(map_);
      if ok {
        ClaimRecords(map_);
        ReserveSpans(spans);
      }
    }

    /** memory_init, given the boot information at `infoAddress` and the bytes of its memory map. */
    method Init(infoAddress: nat, info: Info, map_: seq<Byte>, textStart: nat, bssEnd: nat) returns (ok: bool)
      requires Shape()
      requires InfoValid(infoAddress, info) ==> |map_| == info.mmapLength
      modifies this, pageBitmap, usableBitmap
      ensures Shape()
      ensures ok ==> JustInitialised(State())
      ensures ok ==> Parse(map_, 0).Records? && entryCount == |Parse(map_, 0).records|
      ensures ok ==> forall p ::
                p in Usable() <==> HandedOut(p, Parse(map_, 0).records, infoAddress, info, textStart, bssEnd)
      ensures ok <==>
              && infoAddress != 0 && info.flags / 64 % 2 == 1 && info.mmapLength != 0 && info.mmapAddr != 0
              && info.mmapAddr + info.mmapLength <= 0x4000_0000 && Parse(map_, 0).Records?
              && exists q: nat :: SixteenFrom(q, Parse(map_, 0).records, infoAddress, info, textStart, bssEnd)
    {
      if infoAddress == 0 || info.flags / 64 % 2 == 0 || info.mmapLength == 0 || info.mmapAddr == 0 ||
         info.mmapAddr >= PAGE_COUNT * PAGE_SIZE ||
         info.mmapLength > PAGE_COUNT * PAGE_SIZE - info.mmapAddr {
        return false;
      }
      ok := InitFromMap(map_, KernelSpans(infoAddress, info, textStart, bssEnd));
      if Parse(map_, 0).Records? {
        ByAddress(Parse(map_, 0).records, infoAddress, info, textStart, bssEnd);
      }
      hide HandedOut, SixteenFrom, HasHeapRun, UsablePages, KernelSpans, Parse;
    }

    method InitFromMap(map_: seq<Byte>, spans: seq<Span>) returns (ok: bool)
      requires Shape()
      modifies this, pageBitmap, usableBitmap
      ensures Shape()
      ensures ok ==> JustInitialised(State())
      ensures ok ==> Parse(map_, 0).Records? && entryCount == |Parse(map_, 0).records|
      ensures ok ==> Usable() == UsablePages(Parse(map_, 0).records, spans)
      ensures ok <==> Parse(map_, 0).Records? && HasHeapRun(UsablePages(Parse(map_, 0).records, spans))
    {
      ok := ReadMap(map_, spans);
      if ok {
        ok := TakeHeap();
      }
    }

    method ReadMap(map_: seq<Byte>, spans: seq<Span>) returns (ok: bool)
      requires Shape()
      modifies this, pageBitmap, usableBitmap
      ensures Shape()
      ensures ok <==> Parse(map_, 0).Records?
      ensures ok ==> Valid(State()) && ready && heapBase == 0 && Usable() !! Reserved()
      ensures ok ==> Usable() == UsablePages(Parse(map_, 0).records, spans)
      ensures ok ==> entryCount == |Parse(map_, 0).records|
    {
      ClearCounters();
      ok := BuildBitmaps(map_, spans);
      if ok {
        FinishMap();
      }
    }

    method ClearCounters()
      requires Shape()
      modifies this
      ensures Shape() && heapBase == heapLimit == heapPtr == 0
    {
      heapPtr, heapBase, heapLimit, usableBytes, ready := 0, 0, 0, 0, false;
    }

    method FinishMap()
      requires Shape() && heapBase == heapLimit == heapPtr == 0
      requires forall p :: p in Usable() ==> FIRST_FRAME <= p < PAGE_COUNT
      requires forall p: nat :: p in Reserved() <==> p < PAGE_COUNT && p !in Usable()
      modifies this`usableBytes, this`ready
      ensures Valid(State()) && ready && Usable() !! Reserved()
    {
      RecountUsableMemory();
      ready := true;
      BuiltIsValid(State());
    }

    method TakeHeap() returns (ok: bool)
      requires Shape() && Valid(State()) && ready && heapBase == 0 && Usable() !! Reserved()
      modifies this`ready, this`heapBase, this`heapLimit, this`heapPtr, pageBitmap
      ensures Usable() == old(Usable())
      ensures entryCount == old(entryCount)
      ensures ok <==> HasHeapRun(Usable())
      ensures ok ==> JustInitialised(State())
    {
      HeapTaken(State());
      var start, verdict := PageAllocContiguous(HEAP_PAGES);
      if start == 0 {
        ready := false;
        return false;
      }
      heapPtr, heapBase := start, start;
      heapLimit := start + HEAP_PAGES * PAGE_SIZE;
      return true;
    }
  }

  lemma BuiltIsValid(a: Allocator)
    requires forall p :: p in a.usable ==> FIRST_FRAME <= p < PAGE_COUNT
    requires forall p: nat :: p in a.reserved <==> p < PAGE_COUNT && p !in a.usable
    requires a.usableBytes == PAGE_SIZE * |a.usable * Range(FIRST_FRAME, PAGE_COUNT - FIRST_FRAME)|
    requires a.heapBase == a.heapLimit == a.heapPtr == 0
    ensures Valid(a) && a.usable !! a.reserved
  {
    assert a.usable * Range(FIRST_FRAME, PAGE_COUNT - FIRST_FRAME) == a.usable;
  }

  /** The sixteen pages from q on may all be handed out. */
  ghost predicate SixteenFrom(q: nat, records: seq<Record>, infoAddress: nat, info: Info, textStart: nat, bssEnd: nat) {
    forall p :: q <= p < q + 16 ==> HandedOut(p, records, infoAddress, info, textStart, bssEnd)
  }

  lemma ByAddress(records: seq<Record>, infoAddress: nat, info: Info, textStart: nat, bssEnd: nat)
    requires InfoValid(infoAddress, info)
    ensures var usable := UsablePages(records, KernelSpans(infoAddress, info, textStart, bssEnd));
            && (forall p: nat :: p in usable <==> HandedOut(p, records, infoAddress, info, textStart, bssEnd))
            && (HasHeapRun(usable) <==> exists q: nat :: SixteenFrom(q, records, infoAddress, info, textStart, bssEnd))
  {
    var usable := UsablePages(records, KernelSpans(infoAddress, info, textStart, bssEnd));
    forall p: nat
      ensures p in usable <==> HandedOut(p, records, infoAddress, info, textStart, bssEnd)
    {
      UsableByAddress(records, infoAddress, info, textStart, bssEnd, p);
    }
    assert forall p: nat :: HandedOut(p, records, infoAddress, info, textStart, bssEnd) ==> p < PAGE_COUNT;
    hide UsablePages, HandedOut;
    if HasHeapRun(usable) {
      var q :| 0 <= q < PAGE_COUNT && Range(q, HEAP_PAGES) <= usable;
      forall p | q <= p < q + 16
        ensures HandedOut(p, records, infoAddress, info, textStart, bssEnd)
      {
        assert p in Range(q, HEAP_PAGES);
      }
      assert SixteenFrom(q, records, infoAddress, info, textStart, bssEnd);
    }
    if q: nat :| SixteenFrom(q, records, infoAddress, info, textStart, bssEnd) {
      assert Range(q, HEAP_PAGES) <= usable;
      assert HandedOut(q, records, infoAddress, info, textStart, bssEnd);
    }
  }

  /** There are enough usable pages in a row for the boot heap. */
  predicate HasHeapRun(usable: set<nat>) {
    exists q :: 0 <= q < PAGE_COUNT && Range(q, HEAP_PAGES) <= usable
  }

  /** Taking the boot heap succeeds exactly when there is room, and leaves only the heap allocated. */
  lemma HeapTaken(a: Allocator)
    requires Valid(a) && a.usable !! a.reserved && a.ready && a.heapBase == 0
    ensures var (a', start, verdict) := Allocate(a, HEAP_PAGES);
            && (start != 0 <==> HasHeapRun(a.usable))
            && (start != 0 ==> JustInitialised(a'.(heapPtr := start, heapBase := start,
                                                   heapLimit := start + HEAP_PAGES * PAGE_SIZE)))
  {
    AllocateFacts(a, HEAP_PAGES);
    FirstFitIsLowest(a.reserved, HEAP_PAGES, FIRST_FRAME);
    RunIsFree(a);
    var (a', start, verdict) := Allocate(a, HEAP_PAGES);
    if start != 0 {
      var b := a'.(heapPtr := start, heapBase := start, heapLimit := start + HEAP_PAGES * PAGE_SIZE);
      assert HeapPages(b) == Range(start / PAGE_SIZE, HEAP_PAGES);
    }
  }

  lemma RunIsFree(a: Allocator)
    requires Valid(a) && a.usable !! a.reserved
    ensures HasHeapRun(a.usable) <==> exists q: nat :: FIRST_FRAME <= q && FreeRun(a.reserved, q, HEAP_PAGES)
  {
    if HasHeapRun(a.usable) {
      var q :| 0 <= q < PAGE_COUNT && Range(q, HEAP_PAGES) <= a.usable;
      assert q in Range(q, HEAP_PAGES) && q + HEAP_PAGES - 1 in Range(q, HEAP_PAGES);
      forall p | q <= p < q + HEAP_PAGES
        ensures p !in a.reserved
      {
        assert p in Range(q, HEAP_PAGES);
      }
      assert FreeRun(a.reserved, q, HEAP_PAGES);
    }
    if q: nat :| FIRST_FRAME <= q && FreeRun(a.reserved, q, HEAP_PAGES) {
      assert Range(q, HEAP_PAGES) <= a.usable;
    }
  }

  /** So over any calls after memory_init, no page that a caller holds, and none of the heap, has a byte of the
      loader, the kernel image, the boot stack, the boot information or the memory map, or lies outside the
      type-1 records. */
  lemma KernelIsNeverGranted(a: Allocator, calls: seq<Call>, records: seq<Record>, infoAddress: nat, info: Info,
                             textStart: nat, bssEnd: nat, p: nat)
    requires JustInitialised(a) && forall c :: c in calls ==> Sized(c)
    requires forall p :: p in a.usable <==> HandedOut(p, records, infoAddress, info, textStart, bssEnd)
    requires p in Steps(Begun(a), calls).live + HeapPages(a)
    ensures 0x10_0000 <= 0x1000 * p < 0x4000_0000
    ensures !Meets(p, 0x10_0000, 0x20_0000) && !Meets(p, textStart, bssEnd) && !Meets(p, 0x2F_0000, 0x30_0000)
    ensures !Meets(p, infoAddress, infoAddress + 52) && !Meets(p, info.mmapAddr, info.mmapAddr + info.mmapLength)
    ensures exists r :: r in records && r.kind == 1 && r.base <= 0x1000 * p && 0x1000 * p + 0x1000 <= r.base + r.length
    ensures forall r :: r in records && r.kind != 1 ==> !Meets(p, r.base, r.base + r.length)
  {
    hide Steps, JustInitialised, Sized, HeapPages;
    HeldIsUsable(a, calls, p);
    assert HandedOut(p, records, infoAddress, info, textStart, bssEnd);
  }

  lemma HeldIsUsable(a: Allocator, calls: seq<Call>, p: nat)
    requires JustInitialised(a) && forall c :: c in calls ==> Sized(c)
    requires p in Steps(Begun(a), calls).live + HeapPages(a)
    ensures p in a.usable
  {
    Conservation(a, calls);
    hide Steps, JustInitialised, Sized, HeapPages;
  }
}
