/** The page allocator and the bump heap as functions on sets of pages. */
module Allocation {
  import opened Paging

  const U64 := 0x1_0000_0000_0000_0000
  const HEAP_PAGES := 16

  datatype Verdict = Granted | InvalidRequest | OutOfPages | NotOwnedPage
                   | HeapNotReady | SizeOverflow | HeapExhausted

  /** `reserved` are the pages whose allocation bit is set, `usable` those the memory map offers. */
  datatype Allocator = Allocator(reserved: set<nat>, usable: set<nat>, usableBytes: nat, ready: bool,
                                 heapBase: nat, heapLimit: nat, heapPtr: nat)

  predicate InRange(p: nat, first: nat, n: nat) { first <= p < first + n }

  function Range(first: nat, n: nat): set<nat> {
    set p: nat | first <= p < first + n && InRange(p, first, n)
  }

  lemma RangeNext(first: nat, n: nat)
    ensures Range(first, 0) == {}
    ensures Range(first, n + 1) == Range(first, n) + {first + n}
  {
  }

  lemma {:induction false} RangeSize(first: nat, n: nat)
    ensures |Range(first, n)| == n
  {
    if n == 0 {
      assert Range(first, 0) == {};
    } else {
      RangeSize(first, n - 1);
      assert Range(first, n) == Range(first, n - 1) + {first + n - 1};
    }
  }

  // ---------------------------------------------------------------- pages

  predicate FreeRun(reserved: set<nat>, first: nat, n: nat) {
    first + n <= PAGE_COUNT && forall p :: first <= p < first + n ==> p !in reserved
  }

  /** The lowest start at or above `from` of a free run of `n` pages, 0 when there is none. */
  function FirstFit(reserved: set<nat>, n: nat, from: nat): (page: nat)
    ensures page < PAGE_COUNT
    decreases PAGE_COUNT - from
  {
    if from + n > PAGE_COUNT || from >= PAGE_COUNT then 0
    else if FreeRun(reserved, from, n) then from
    else FirstFit(reserved, n, from + 1)
  }

  /** First fit is sound, lowest and complete. */
  lemma {:induction false} FirstFitIsLowest(reserved: set<nat>, n: nat, from: nat)
    requires from > 0 && n > 0
    ensures var r := FirstFit(reserved, n, from);
            if r == 0 then forall q: nat :: from <= q ==> !FreeRun(reserved, q, n)
            else from <= r && FreeRun(reserved, r, n) && forall q :: from <= q < r ==> !FreeRun(reserved, q, n)
    decreases PAGE_COUNT - from
  {
    if from + n <= PAGE_COUNT && !FreeRun(reserved, from, n) {
      FirstFitIsLowest(reserved, n, from + 1);
    }
  }

  function Allocate(a: Allocator, n: nat): (Allocator, nat, Verdict) {
    if !a.ready || n == 0 || n > PAGE_COUNT then (a, 0, InvalidRequest)
    else
      var page := FirstFit(a.reserved, n, FIRST_FRAME);
      if page == 0 then (a, 0, OutOfPages)
      else (a.(reserved := a.reserved + Range(page, n)), page * PAGE_SIZE, Granted)
  }

  /** Whether page_free accepts this address. */
  predicate Freeable(a: Allocator, address: nat) {
    && address % PAGE_SIZE == 0
    && FIRST_FRAME * PAGE_SIZE <= address < PAGE_COUNT * PAGE_SIZE
    && !(a.heapBase <= address < a.heapLimit)
    && address / PAGE_SIZE in a.usable
  }

  function Free(a: Allocator, address: nat): (Allocator, Verdict) {
    if Freeable(a, address) then (a.(reserved := a.reserved - {address / PAGE_SIZE}), Granted)
    else (a, NotOwnedPage)
  }

  function FreePages(a: Allocator): set<nat> { a.usable - a.reserved }

  // ---------------------------------------------------------------- heap

  /** (size + 15) & ~15 in 64-bit arithmetic. */
  function RoundUp64(size: nat): nat { (size + 15) % U64 / 16 * 16 }

  predicate HeapReady(a: Allocator) {
    a.heapBase != 0 && a.heapLimit != 0 && a.heapBase <= a.heapPtr <= a.heapLimit
  }

  function Remaining(a: Allocator): nat {
    if a.heapLimit >= a.heapPtr then a.heapLimit - a.heapPtr else 0
  }

  function Capacity(a: Allocator): nat {
    if a.heapLimit == 0 then 0 else HEAP_PAGES * PAGE_SIZE
  }

  function Malloc(a: Allocator, size: nat): (Allocator, nat, Verdict) {
    if size == 0 || !HeapReady(a) then (a, 0, HeapNotReady)
    else if size > U64 - 1 - 15 then (a, 0, SizeOverflow)
    else if RoundUp64(size) > a.heapLimit - a.heapPtr then (a, 0, HeapExhausted)
    else (a.(heapPtr := a.heapPtr + RoundUp64(size)), a.heapPtr, Granted)
  }

  // ---------------------------------------------------------------- invariant

  function HeapPages(a: Allocator): set<nat> {
    if a.heapBase == 0 then {} else Range(a.heapBase / PAGE_SIZE, HEAP_PAGES)
  }

  predicate HeapOk(a: Allocator) {
    if a.heapBase == 0 then a.heapLimit == 0 && a.heapPtr == 0
    else
      && a.heapBase % PAGE_SIZE == 0
      && a.heapLimit == a.heapBase + HEAP_PAGES * PAGE_SIZE
      && a.heapBase <= a.heapPtr <= a.heapLimit
      && a.heapPtr % 16 == 0
  }

  /** What holds of the allocator from the end of memory_init on. */
  predicate Valid(a: Allocator) {
    && (forall p :: p in a.usable ==> FIRST_FRAME <= p < PAGE_COUNT)
    && (forall p: nat :: p < PAGE_COUNT && p !in a.reserved ==> p in a.usable)
    && a.usableBytes == PAGE_SIZE * |a.usable|
    && HeapOk(a)
    && HeapPages(a) <= a.usable * a.reserved
  }

  lemma AllocateFacts(a: Allocator, n: nat)
    requires Valid(a)
    ensures var (a', address, verdict) := Allocate(a, n);
            && Valid(a')
            && a'.usable == a.usable
            && (verdict == Granted <==> address != 0)
            && (verdict == Granted ==>
                  && address % PAGE_SIZE == 0
                  && FIRST_FRAME <= address / PAGE_SIZE
                  && address / PAGE_SIZE + n <= PAGE_COUNT
                  && Range(address / PAGE_SIZE, n) <= FreePages(a)
                  && a'.reserved == a.reserved + Range(address / PAGE_SIZE, n))
            && (verdict != Granted ==> a' == a)
  {
    if a.ready && 0 < n <= PAGE_COUNT {
      FirstFitIsLowest(a.reserved, n, FIRST_FRAME);
      var page := FirstFit(a.reserved, n, FIRST_FRAME);
      hide FirstFit, HeapOk;
      assert page * PAGE_SIZE / PAGE_SIZE == page;
    }
  }

  lemma FreeKeepsValid(a: Allocator, address: nat)
    requires Valid(a)
    ensures Valid(Free(a, address).0)
    ensures Freeable(a, address) ==> address / PAGE_SIZE !in HeapPages(a)
  {
  }

  lemma RoundingNeverWraps(size: nat)
    requires 0 < size <= U64 - 1 - 15
    ensures RoundUp64(size) == (size + 15) / 16 * 16
    ensures size <= RoundUp64(size) < size + 16
  {
  }

  lemma AlignedSum(p: nat, size: nat)
    requires p % 16 == 0
    ensures (p + (size + 15) / 16 * 16) % 16 == 0
  {
  }

  /** With the heap ready, a non-zero request fails exactly when its mathematically rounded size
      does not fit, and a failing request leaves the allocator as it was. */
  lemma MallocFailsExactlyWhenFull(a: Allocator, size: nat)
    requires Valid(a) && HeapReady(a)
    requires 0 < size < U64
    ensures var (a', address, verdict) := Malloc(a, size);
            var rounded := (size + 15) / 16 * 16;
            && Valid(a')
            && (verdict == Granted <==> rounded <= Remaining(a))
            && (verdict == Granted ==>
                  && address == a.heapPtr && address % 16 == 0
                  && a' == a.(heapPtr := a.heapPtr + rounded)
                  && Remaining(a') == Remaining(a) - rounded)
            && (verdict != Granted ==> a' == a && address == 0)
  {
    if size <= U64 - 1 - 15 {
      RoundingNeverWraps(size);
      AlignedSum(a.heapPtr, size);
      hide RoundUp64;
      assert HeapPages(Malloc(a, size).0) == HeapPages(a);
    }
  }

  // ---------------------------------------------------------------- runs

  datatype Call = AllocateCall(pages: nat) | FreeCall(address: nat) | MallocCall(size: nat)

  datatype Block = Block(start: nat, size: nat)

  /** An allocator together with what its callers hold: all pages handed out and not freed since, the
      same grant by grant, and the heap blocks handed out, in order. */
  datatype Run = Run(a: Allocator, live: set<nat>, held: seq<set<nat>>, blocks: seq<Block>)

  /** A page freed is struck off the grant that holds it. */
  function Strike(held: seq<set<nat>>, page: nat): (r: seq<set<nat>>)
    ensures |r| == |held| && forall i :: 0 <= i < |held| ==> r[i] == held[i] - {page}
  {
    seq(|held|, i requires 0 <= i < |held| => held[i] - {page})
  }

  function Step(r: Run, c: Call): Run {
    match c
    case AllocateCall(n) =>
      var (a', address, verdict) := Allocate(r.a, n);
      var pages := Range(address / PAGE_SIZE, n);
      if verdict == Granted then Run(a', r.live + pages, r.held + [pages], r.blocks) else r.(a := a')
    case FreeCall(address) =>
      var (a', verdict) := Free(r.a, address);
      var page := address / PAGE_SIZE;
      if verdict == Granted then Run(a', r.live - {page}, Strike(r.held, page), r.blocks) else r.(a := a')
    case MallocCall(size) =>
      var (a', address, verdict) := Malloc(r.a, size);
      r.(a := a',
         blocks := if verdict == Granted then r.blocks + [Block(address, a'.heapPtr - r.a.heapPtr)] else r.blocks)
  }

  function Steps(r: Run, calls: seq<Call>): Run
    decreases |calls|
  {
    if calls == [] then r else Steps(Step(r, calls[0]), calls[1..])
  }

  function TotalSize(blocks: seq<Block>): nat {
    if blocks == [] then 0 else TotalSize(blocks[..|blocks| - 1]) + blocks[|blocks| - 1].size
  }

  /** The blocks lie end to end from `base`, each on a 16-byte boundary. */
  predicate Stacked(base: nat, blocks: seq<Block>)
    decreases |blocks|
  {
    blocks == [] ||
    var last := blocks[|blocks| - 1];
    && last.start == base + TotalSize(blocks[..|blocks| - 1])
    && last.start % 16 == 0
    && last.size > 0
    && Stacked(base, blocks[..|blocks| - 1])
  }

  /** No page is in two grants, and the grants together hold exactly the live pages. */
  predicate Apart(held: seq<set<nat>>, live: set<nat>) {
    && (forall i, j :: 0 <= i < j < |held| ==> held[i] !! held[j])
    && (forall i :: 0 <= i < |held| ==> held[i] <= live)
    && (forall p :: p in live ==> exists i :: 0 <= i < |held| && p in held[i])
  }

  lemma GrantApart(held: seq<set<nat>>, live: set<nat>, pages: set<nat>)
    requires Apart(held, live) && pages !! live
    ensures Apart(held + [pages], live + pages)
  {
    var held' := held + [pages];
    assert held'[|held|] == pages;
    forall p | p in live + pages
      ensures exists i :: 0 <= i < |held'| && p in held'[i]
    {
      if p in live {
        var i :| 0 <= i < |held| && p in held[i];
        assert p in held'[i];
      }
    }
  }

  lemma StrikeApart(held: seq<set<nat>>, live: set<nat>, page: nat)
    requires Apart(held, live)
    ensures Apart(Strike(held, page), live - {page})
  {
    var held' := Strike(held, page);
    forall p | p in live - {page}
      ensures exists i :: 0 <= i < |held'| && p in held'[i]
    {
      var i :| 0 <= i < |held| && p in held[i];
      assert p in held'[i];
    }
  }

  predicate RunValid(r: Run) {
    && Valid(r.a)
    && r.a.heapBase != 0
    && r.live == r.a.usable * r.a.reserved - HeapPages(r.a)
    && Apart(r.held, r.live)
    && r.a.heapPtr == r.a.heapBase + TotalSize(r.blocks)
    && Stacked(r.a.heapBase, r.blocks)
  }

  /** The parts of an allocator that no call changes. */
  predicate SameMemory(a: Allocator, a': Allocator) {
    a'.usable == a.usable && a'.usableBytes == a.usableBytes && a'.heapBase == a.heapBase
  }

  lemma MallocStep(r: Run, size: nat)
    requires RunValid(r) && size < U64
    ensures RunValid(Step(r, MallocCall(size))) && SameMemory(r.a, Step(r, MallocCall(size)).a)
  {
    hide Apart;
    if size > 0 {
      MallocFailsExactlyWhenFull(r.a, size);
      var (a', address, verdict) := Malloc(r.a, size);
      if verdict == Granted {
        var blocks := r.blocks + [Block(address, a'.heapPtr - r.a.heapPtr)];
        assert blocks[..|blocks| - 1] == r.blocks;
      }
    }
  }

  /** The pages granted by one call are disjoint from every page then live and from the heap. */
  lemma AllocateStep(r: Run, n: nat)
    requires RunValid(r)
    ensures RunValid(Step(r, AllocateCall(n))) && SameMemory(r.a, Step(r, AllocateCall(n)).a)
    ensures var (_, address, verdict) := Allocate(r.a, n);
            verdict == Granted ==> Range(address / PAGE_SIZE, n) !! r.live + HeapPages(r.a)
  {
    AllocateFacts(r.a, n);
    var (a', address, verdict) := Allocate(r.a, n);
    hide Apart, Allocate, Range;
    assert HeapPages(a') == HeapPages(r.a);
    if verdict == Granted {
      GrantApart(r.held, r.live, Range(address / PAGE_SIZE, n));
    }
  }

  lemma FreeStep(r: Run, address: nat)
    requires RunValid(r)
    ensures RunValid(Step(r, FreeCall(address))) && SameMemory(r.a, Step(r, FreeCall(address)).a)
  {
    FreeKeepsValid(r.a, address);
    StrikeApart(r.held, r.live, address / PAGE_SIZE);
    hide Apart, Range;
    assert HeapPages(Free(r.a, address).0) == HeapPages(r.a);
  }

  predicate Sized(c: Call) { c.MallocCall? ==> c.size < U64 }

  /** Any interleaving of allocate, free and malloc keeps the run valid and the usable set fixed. */
  lemma {:induction false} RunsStayValid(r: Run, calls: seq<Call>)
    requires RunValid(r)
    requires forall c :: c in calls ==> Sized(c)
    ensures RunValid(Steps(r, calls))
    ensures Steps(r, calls).a.usable == r.a.usable
    ensures Steps(r, calls).a.usableBytes == r.a.usableBytes
    ensures Steps(r, calls).a.heapBase == r.a.heapBase
    decreases |calls|
  {
    hide RunValid, Step;
    if calls != [] {
      assert Sized(calls[0]);
      match calls[0] {
        case AllocateCall(n) => AllocateStep(r, n);
        case FreeCall(address) => FreeStep(r, address);
        case MallocCall(size) => MallocStep(r, size);
      }
      RunsStayValid(Step(r, calls[0]), calls[1..]);
    }
  }

  /** The state memory_init leaves behind: only the heap is allocated. */
  predicate JustInitialised(a: Allocator) {
    && Valid(a)
    && a.ready
    && a.heapBase != 0
    && a.heapPtr == a.heapBase
    && a.usable * a.reserved == HeapPages(a)
  }

  function Begun(a: Allocator): Run { Run(a, {}, [], []) }

  /** Conservation.  After any calls whatever, every usable page is exactly one of free, live
      and heap, and the three counts add up to memory_total_usable() / PAGE_SIZE. */
  lemma Conservation(a: Allocator, calls: seq<Call>)
    requires JustInitialised(a)
    requires forall c :: c in calls ==> Sized(c)
    ensures var r := Steps(Begun(a), calls);
            && r.a.usable == a.usable
            && r.a.usable == FreePages(r.a) + r.live + HeapPages(a)
            && FreePages(r.a) !! r.live !! HeapPages(a)
            && |FreePages(r.a)| + |r.live| + HEAP_PAGES == a.usableBytes / PAGE_SIZE
  {
    BegunValid(a);
    hide RunValid, JustInitialised, Steps, FreePages, HeapPages;
    RunsStayValid(Begun(a), calls);
    PagesPartition(Steps(Begun(a), calls));
  }

  lemma BegunValid(a: Allocator)
    requires JustInitialised(a)
    ensures RunValid(Begun(a))
  {
  }

  lemma PagesPartition(r: Run)
    requires RunValid(r)
    ensures r.a.usable == FreePages(r.a) + r.live + HeapPages(r.a)
    ensures FreePages(r.a) !! r.live !! HeapPages(r.a)
    ensures |FreePages(r.a)| + |r.live| + HEAP_PAGES == r.a.usableBytes / PAGE_SIZE
  {
    RangeSize(r.a.heapBase / PAGE_SIZE, HEAP_PAGES);
    hide Apart, Stacked, HeapOk, Range;
    assert r.a.usable == FreePages(r.a) + r.live + HeapPages(r.a);
    PartsAddUp(FreePages(r.a), r.live, HeapPages(r.a));
  }

  lemma PartsAddUp(a: set<nat>, b: set<nat>, c: set<nat>)
    requires a !! b !! c
    ensures |a + b + c| == |a| + |b| + |c|
  {
    assert |a + b| == |a| + |b|;
  }

  /** After any calls, no page is held by two grants, and none that is held is a heap page or free; what
      the grants hold together is what has been handed out and not freed since. */
  lemma GrantsStayDisjoint(a: Allocator, calls: seq<Call>, i: nat, j: nat)
    requires JustInitialised(a)
    requires forall c :: c in calls ==> Sized(c)
    requires i < j < |Steps(Begun(a), calls).held|
    ensures var r := Steps(Begun(a), calls);
            && r.held[i] !! r.held[j]
            && r.held[i] + r.held[j] <= r.live
            && r.live !! HeapPages(a) + FreePages(r.a)
            && (forall p :: p in r.live <==> exists k :: 0 <= k < |r.held| && p in r.held[k])
  {
    RunsStayValid(Begun(a), calls);
    var r := Steps(Begun(a), calls);
    assert HeapPages(r.a) == HeapPages(a);
    hide Steps, Valid;
  }

  lemma {:induction false} StackedBlocks(base: nat, blocks: seq<Block>, i: nat, j: nat)
    requires Stacked(base, blocks)
    requires i <= j < |blocks|
    ensures base <= blocks[i].start && blocks[i].start % 16 == 0
    ensures i < j ==> blocks[i].start + blocks[i].size <= blocks[j].start
    ensures blocks[j].start + blocks[j].size <= base + TotalSize(blocks)
    decreases |blocks|
  {
    var front := blocks[..|blocks| - 1];
    if j < |front| {
      StackedBlocks(base, front, i, j);
    } else if i < |front| {
      StackedBlocks(base, front, i, |front| - 1);
      assert front[i] == blocks[i];
    }
  }

  /** After any calls, every two heap blocks handed out are disjoint, aligned and inside the
      heap, and their rounded sizes add up to what the heap has lost. */
  lemma HeapBlocksDisjoint(a: Allocator, calls: seq<Call>, i: nat, j: nat)
    requires JustInitialised(a)
    requires forall c :: c in calls ==> Sized(c)
    requires i <= j < |Steps(Begun(a), calls).blocks|
    ensures var r := Steps(Begun(a), calls);
            && a.heapBase <= r.blocks[i].start
            && r.blocks[i].start % 16 == 0
            && (i < j ==> r.blocks[i].start + r.blocks[i].size <= r.blocks[j].start)
            && r.blocks[j].start + r.blocks[j].size <= a.heapBase + Capacity(a)
            && TotalSize(r.blocks) == Capacity(r.a) - Remaining(r.a)
  {
    RunsStayValid(Begun(a), calls);
    StackedBlocks(a.heapBase, Steps(Begun(a), calls).blocks, i, j);
  }
}
