/** Isolation over all runs: what one address space maps never depends on what is done to another. */
module Isolation {
  import opened Paging
  import opened Allocation
  import opened AddressSpaces
  import opened Supply

  /** Everything that changes physical memory or the allocator after memory_init. */
  datatype Op =
    | TakePages(n: nat)
    | ReleasePage(address: nat)
    | TakeHeap(size: nat)
    | NewSpace
    | Map(space: nat, va: nat, pa: Word, user: bool, writable: bool, executable: bool)
    | Write(frame: nat, index: nat, word: Word)

  function Do(m: Machine, op: Op): Machine {
    match op
    case TakePages(n) => m.(pages := Allocate(m.pages, n).0)
    case ReleasePage(address) => m.(pages := Free(m.pages, address).0)
    case TakeHeap(size) => m.(pages := Malloc(m.pages, size).0)
    case NewSpace => CreateSpace(m).0
    case Map(c, va, pa, user, writable, executable) => MapPage(m, c, va, pa, user, writable, executable).0
    case Write(f, i, w) => m.(ram := Put(m.ram, f, i, w))
  }

  /** The callers' discipline: tables, those of the loader included, are neither freed nor written as data,
      and only address spaces that were created are mapped into. */
  predicate Allowed(m: Machine, op: Op) {
    match op
    case ReleasePage(address) => address / PAGE_SIZE !in m.roles
    case Map(c, _, _, _, _, _) => c == 0 || IsSpace(m.roles, c)
    case Write(f, _, _) => !IsBootTable(f) && f !in m.roles
    case TakeHeap(size) => size < U64
    case _ => true
  }

  function DoAll(m: Machine, ops: seq<Op>): Machine
    decreases |ops|
  {
    if ops == [] then m else DoAll(Do(m, ops[0]), ops[1..])
  }

  predicate AllAllowed(m: Machine, ops: seq<Op>)
    decreases |ops|
  {
    ops == [] || (Allowed(m, ops[0]) && AllAllowed(Do(m, ops[0]), ops[1..]))
  }

  predicate MapsInto(op: Op, c: nat) { op.Map? && op.space == c }

  /** The words an operation must keep: those of the bootstrap tables and of every space it does not map
      into. */
  ghost predicate Keeps(m: Machine, m': Machine, op: Op) {
    forall f: nat, i: nat {:trigger Entry(m'.ram, f, i)} ::
      IsBootTable(f) || (f in m.roles && !MapsInto(op, m.roles[f].space)) ==> Entry(m'.ram, f, i) == Entry(m.ram, f, i)
  }

  ghost predicate Isolates(m: Machine, m': Machine, op: Op) {
    Inv(m') && Extends(m.roles, m'.roles) && Keeps(m, m', op)
  }

  lemma PagesOnly(m: Machine, pages: Allocator, op: Op)
    requires Inv(m) && Valid(pages)
    requires forall f :: f in m.roles ==> f in pages.reserved
    ensures Isolates(m, m.(pages := pages), op)
  {
    hide Valid, AllSpacesOk, NoUserLeaf;
  }

  lemma PagesIsolate(m: Machine, op: Op)
    requires Inv(m) && Allowed(m, op) && (op.TakePages? || op.ReleasePage? || op.TakeHeap?)
    ensures Isolates(m, Do(m, op), op)
  {
    RolesSettled(m);
    hide Inv, Isolates, Valid;
    match op
    case TakePages(n) =>
      AllocateFacts(m.pages, n);
      PagesOnly(m, Allocate(m.pages, n).0, op);
    case ReleasePage(address) =>
      FreeKeepsValid(m.pages, address);
      PagesOnly(m, Free(m.pages, address).0, op);
    case TakeHeap(size) =>
      MallocKeepsValid(m.pages, size);
      PagesOnly(m, Malloc(m.pages, size).0, op);
  }

  lemma CreateIsolates(m: Machine)
    requires Inv(m)
    ensures Isolates(m, CreateSpace(m).0, NewSpace)
  {
    RolesSettled(m);
    CreateKeepsInv(m);
    hide Inv, CreateSpace, Settled, Entry;
  }

  lemma MapIsolates(m: Machine, op: Op)
    requires Inv(m) && Allowed(m, op) && op.Map?
    ensures Isolates(m, Do(m, op), op)
  {
    RolesSettled(m);
    MapPageFacts(m, op.space, op.va, op.pa, op.user, op.writable, op.executable);
    hide Inv, MapPage, Entry;
  }

  lemma WriteIsolates(m: Machine, f: nat, i: nat, w: Word)
    requires Inv(m) && !IsBootTable(f) && f !in m.roles
    ensures Isolates(m, m.(ram := Put(m.ram, f, i, w)), Write(f, i, w))
  {
    DataWrite(m, Put(m.ram, f, i, w), f);
    hide Inv;
  }

  lemma StepIsolates(m: Machine, op: Op)
    requires Inv(m) && Allowed(m, op)
    ensures Inv(Do(m, op))
    ensures Extends(m.roles, Do(m, op).roles)
    ensures Keeps(m, Do(m, op), op)
  {
    hide Inv, Keeps, Extends, Put;
    match op {
      case Write(f, i, w) => WriteIsolates(m, f, i, w);
      case NewSpace => CreateIsolates(m);
      case Map(_, _, _, _, _, _) => MapIsolates(m, op);
      case _ => PagesIsolate(m, op);
    }
  }

  lemma MallocKeepsValid(a: Allocator, size: nat)
    requires Valid(a) && size < U64
    ensures Valid(Malloc(a, size).0) && Malloc(a, size).0.reserved == a.reserved
  {
    if size > 0 && HeapReady(a) {
      MallocFailsExactlyWhenFull(a, size);
    }
  }

  /** After any run that maps nothing into space c, c translates every address as before. */
  lemma {:induction false} SpacesAreIsolated(m: Machine, ops: seq<Op>, c: nat)
    requires Inv(m) && IsSpace(m.roles, c)
    requires AllAllowed(m, ops)
    requires forall op :: op in ops ==> !MapsInto(op, c)
    ensures Inv(DoAll(m, ops)) && IsSpace(DoAll(m, ops).roles, c)
    ensures forall v: nat :: v < 0x10_0000_0000 ==> Translate(DoAll(m, ops).ram, c, v) == Translate(m.ram, c, v)
    decreases |ops|
  {
    if ops != [] {
      var m' := Do(m, ops[0]);
      StepIsolates(m, ops[0]);
      SpaceFrames(m, c);
      assert !MapsInto(ops[0], c);
      UntouchedSpace(m.ram, m'.ram, m.roles, m'.roles, c);
      SpacesAreIsolated(m', ops[1..], c);
    }
  }

  /** After any run whatever, the bootstrap tables translate every address as before. */
  lemma {:induction false} BootstrapIsIsolated(m: Machine, ops: seq<Op>, cr3: nat, v: nat)
    requires Inv(m) && AllAllowed(m, ops)
    requires forall f :: f in Visited(m.ram, cr3, v, 4) ==> IsBootTable(f)
    ensures Inv(DoAll(m, ops))
    ensures Translate(DoAll(m, ops).ram, cr3, v) == Translate(m.ram, cr3, v)
    decreases |ops|
  {
    if ops != [] {
      var m' := Do(m, ops[0]);
      StepIsolates(m, ops[0]);
      WalkFrame(m.ram, m'.ram, cr3, v, 4, Mapped(0, true, true, true));
      BootstrapIsIsolated(m', ops[1..], cr3, v);
    }
  }

  /** In every reachable state the tables that two address spaces walk are allocated and disjoint. */
  lemma TablesAreDisjoint(m: Machine, ops: seq<Op>, c: nat, d: nat, v: nat, w: nat)
    requires Inv(m) && AllAllowed(m, ops)
    requires var m' := DoAll(m, ops); IsSpace(m'.roles, c) && IsSpace(m'.roles, d) && c != d
    requires v < 0x10_0000_0000 && w < 0x10_0000_0000
    ensures var m' := DoAll(m, ops);
            && Visited(m'.ram, c, v, 4) !! Visited(m'.ram, d, w, 4)
            && Visited(m'.ram, c, v, 4) <= m'.pages.reserved
  {
    RunsKeepInv(m, ops);
    var m' := DoAll(m, ops);
    SpaceFrames(m', c);
    SpaceFrames(m', d);
    WalkIsLook(m'.ram, m'.roles, c, v);
    WalkIsLook(m'.ram, m'.roles, d, w);
  }

  lemma {:induction false} RunsKeepInv(m: Machine, ops: seq<Op>)
    requires Inv(m) && AllAllowed(m, ops)
    ensures Inv(DoAll(m, ops))
    decreases |ops|
  {
    if ops != [] {
      StepIsolates(m, ops[0]);
      RunsKeepInv(Do(m, ops[0]), ops[1..]);
    }
  }

  /** Map exactness, as the processor sees it.  A successful map makes the walk at that page give
      the frame and rights asked for and changes no other page; a denied one changes nothing. */
  lemma MapIsExact(m: Machine, c: nat, va: nat, pa: Word, user: bool, writable: bool, executable: bool, w: nat)
    requires Inv(m) && IsSpace(m.roles, c) && w < 0x10_0000_0000
    ensures var (m', result) := MapPage(m, c, va, pa, user, writable, executable);
            && (result == MapOk && w == va / PAGE_SIZE ==>
                  Translate(m'.ram, c, w) == Requested(pa, user, writable, executable))
            && (result != MapOk || w != va / PAGE_SIZE ==> Translate(m'.ram, c, w) == Translate(m.ram, c, w))
  {
    SpaceFrames(m, c);
    MapPageFacts(m, c, va, pa, user, writable, executable);
    var m' := MapPage(m, c, va, pa, user, writable, executable).0;
    SpaceFrames(m', c);
    WalkIsLook(m.ram, m.roles, c, w);
    WalkIsLook(m'.ram, m'.roles, c, w);
  }

  /** A map succeeds exactly when its arguments are valid and there is a table for the page, or a page left
      to make one of. */
  lemma MapSucceedsExactly(m: Machine, c: nat, va: nat, pa: Word, user: bool, writable: bool, executable: bool)
    requires Inv(m) && IsSpace(m.roles, c)
    ensures MapPage(m, c, va, pa, user, writable, executable).1 == MapOk <==>
              && MapArgumentsOk(c, va, pa)
              && (Present(Entry(m.ram, PdOf(m.ram, c), va / PAGE_SIZE / 512))
                  || (m.pages.ready && FreePages(m.pages) != {}))
  {
    TakesWhenFree(m.pages);
    hide Inv, Take, FreePages, PdOf, GrantUser, SetLeaf;
  }

  /** After a successful map the walk gives the physical address asked for exactly when that address has no
      bit above 51, and the rights asked for exactly when executing is not asked for an address with bit
      63: memory_map_process_page checks neither, and a larger address loses those bits. */
  lemma MappedAddressIsRequested(m: Machine, c: nat, va: nat, pa: Word, user: bool, writable: bool, executable: bool)
    requires Inv(m) && IsSpace(m.roles, c)
    requires MapPage(m, c, va, pa, user, writable, executable).1 == MapOk
    ensures var walk := Translate(MapPage(m, c, va, pa, user, writable, executable).0.ram, c, va / PAGE_SIZE);
            && walk.Mapped?
            && walk.frame < 0x100_0000_0000
            && (Address(walk.frame) == pa <==> pa.high == 0)
            && (walk == Mapped(walk.frame, user, writable, executable) <==> !(executable && pa.high & NX != 0))
  {
    MapIsExact(m, c, va, pa, user, writable, executable, va / PAGE_SIZE);
    hide Inv, MapPage, WalkFrom;
  }

  /** An address with bit 52 set. */
  const HIGH_ADDRESS := Word(1, FIRST_FRAME, 0)

  /** An address it loses: wherever there is a table or a page left for one, bit 52 is accepted, and the page
      is mapped to another address. */
  lemma HighAddressIsLost(m: Machine, c: nat, va: nat, user: bool, writable: bool, executable: bool)
    requires Inv(m) && IsSpace(m.roles, c) && va % PAGE_SIZE == 0 && va < MAP_LIMIT
    requires TablesNeeded(m.ram, c, va / PAGE_SIZE / 512) <= Available(m.pages)
    ensures var (m', result) := MapPage(m, c, va, HIGH_ADDRESS, user, writable, executable);
            && result == MapOk
            && Translate(m'.ram, c, va / PAGE_SIZE) == Mapped(FIRST_FRAME, user, writable, executable)
            && Address(FIRST_FRAME) != HIGH_ADDRESS
  {
    SpaceIsFrame(m, c);
    MapCounts(m, c, va, HIGH_ADDRESS, user, writable, executable);
    MapIsExact(m, c, va, HIGH_ADDRESS, user, writable, executable, va / PAGE_SIZE);
    hide Inv, MapPage, WalkFrom, TablesNeeded, Available;
  }

  lemma SpaceIsFrame(m: Machine, c: nat)
    requires Inv(m) && IsSpace(m.roles, c)
    ensures c != 0
  {
  }
}
