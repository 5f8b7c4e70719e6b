/** What the pages of user processes hold, read through the page tables as the processor reads them. */
module ProcessContents {
  import opened Paging
  import opened Allocation
  import opened AddressSpaces
  import opened Loader
  import opened Supply
  import opened Processes

  // ---------------------------------------------------------------- reading memory

  /** A word as a 64-bit number. */
  function ValueOf(w: Word): nat { w.high as nat * 0x10_0000_0000_0000 + w.frame * 0x1000 + w.low as nat }

  /** Byte j of a number in memory, the least significant first. */
  function ByteOf(n: nat, j: nat): nat { if j == 0 then n % 0x100 else ByteOf(n / 0x100, j - 1) }

  /** The byte that the processor reads at a virtual address, nothing when the page is not mapped. */
  function ReadByte(ram: Ram, cr3: nat, va: nat): (b: int) {
    match Translate(ram, cr3, va / 0x1000)
    case Unmapped => -1
    case Mapped(frame, _, _, _) => ByteOf(ValueOf(Entry(ram, frame, va % 0x1000 / 8)), va % 8)
  }

  /** The 64-bit word that it reads there. */
  function ReadWord(ram: Ram, cr3: nat, va: nat): (n: int) {
    match Translate(ram, cr3, va / 0x1000)
    case Unmapped => -1
    case Mapped(frame, _, _, _) => ValueOf(Entry(ram, frame, va % 0x1000 / 8))
  }

  // ---------------------------------------------------------------- data frames keep their words

  lemma DataUntouched(m: Machine, m': Machine, c: nat, d: nat)
    requires OnlyTouches(m, m', c) && DataFrame(m, d)
    ensures m'.ram[d] == m.ram[d]
  {
    forall i | 0 <= i < TABLE_SIZE
      ensures m'.ram[d][i] == m.ram[d][i]
    {
      assert Entry(m'.ram, d, i) == Entry(m.ram, d, i);
    }
  }

  lemma MapTouches(s: System, c: nat, va: nat, frame: nat, writable: bool, executable: bool)
    requires SystemOk(s) && Live(s, c) && frame < PAGE_COUNT
    ensures OnlyTouches(s.m, MapPage(s.m, c, va, Address(frame), true, writable, executable).0, c)
  {
    hide Inv, MapPage, OnlyTouches, BootLoaded, GrantsOk, Remaps;
    MapPageFacts(s.m, c, va, Address(frame), true, writable, executable);
  }

  lemma MapKeepsData(s: System, c: nat, va: nat, frame: nat, writable: bool, executable: bool, d: nat)
    requires SystemOk(s) && Live(s, c) && Unshared(s, frame) && UserPage(va) && !(writable && executable)
    requires DataFrame(s.m, d)
    ensures var s' := MapUser(s, c, va, frame, writable, executable).0; s'.m.ram[d] == s.m.ram[d]
  {
    hide MapPage, SystemOk, OnlyTouches;
    MapTouches(s, c, va, frame, writable, executable);
    DataUntouched(s.m, MapPage(s.m, c, va, Address(frame), true, writable, executable).0, c, d);
  }

  /** After the program is loaded, page 0x400 shows its image and page 0x7FF its stack. */
  lemma MapImageContents(s: System, c: nat, code: nat, stack: nat, image: Table)
    requires SystemOk(s) && Live(s, c) && Unshared(s, code) && Unshared(s, stack) && code != stack
    requires MapImage(s, c, code, stack, image).1
    ensures var ram := MapImage(s, c, code, stack, image).0.m.ram;
            && IsSpace(s.m.roles, c)
            && Look(ram, c, 0x400) == Mapped(code, true, false, true)
            && Look(ram, c, 0x7FF) == Mapped(stack, true, true, false)
            && ram[code] == image
  {
    hide SystemOk, MapUser, Inv, SameTables, Look;
    var s0 := FillFrame(s, code, image);
    FillFacts(s, code, image);
    FilledPage(s, code, image, c);
    var s1 := MapUser(s0, c, USER_CODE_VA, code, false, true).0;
    MapUserFacts(s0, c, USER_CODE_VA, code, false, true);
    MapUserKeepsOk(s0, c, USER_CODE_VA, code, false, true);
    MapKeepsData(s0, c, USER_CODE_VA, code, false, true, code);
    MapUserFacts(s1, c, USER_STACK_TOP - PAGE_SIZE, stack, true, false);
    MapKeepsData(s1, c, USER_STACK_TOP - PAGE_SIZE, stack, true, false, code);
  }

  /** Page 0x400 of space c shows this image, for user mode to read and execute, and page 0x7FF a stack. */
  ghost predicate ShowsImage(s: System, c: nat, image: Table) {
    && IsSpace(s.m.roles, c)
    && exists code: nat, stack: nat ::
         && code < PAGE_COUNT && s.m.ram[code] == image
         && Look(s.m.ram, c, 0x400) == Mapped(code, true, false, true)
         && Look(s.m.ram, c, 0x7FF) == Mapped(stack, true, true, false)
  }

  /** Page 0x600 of space d shows these contents, for user mode to read and write. */
  ghost predicate ShowsProbe(s: System, d: nat, contents: Table) {
    && IsSpace(s.m.roles, d)
    && exists page: nat ::
         page < PAGE_COUNT && s.m.ram[page] == contents && Look(s.m.ram, d, 0x600) == Mapped(page, true, true, false)
  }

  /** The image of a program that was loaded is what page 0x400 of its address space shows. */
  lemma LoadShows(s: System, k: nat, image: Table)
    requires SystemOk(s) && k < |s.processes| && LoadExecutable(s, k, true, true, image).1
    ensures SystemOk(LoadExecutable(s, k, true, true, image).0)
    ensures ShowsImage(LoadExecutable(s, k, true, true, image).0, s.processes[k].cr3, image)
  {
    hide SystemOk, TakePage, MapImage, OthersKept, Loaded, Look;
    LoadEffect(s, k, image);
    var (s1, code) := TakePage(s);
    var (s2, stack) := TakePage(s1);
    TwoPages(s);
    LiveProcess(s2, k);
    MapImageContents(s2, s.processes[k].cr3, code, stack, image);
    SpaceStays(s, LoadExecutable(s, k, true, true, image).0, s.processes[k].cr3);
  }

  lemma SpaceStays(s: System, s': System, c: nat)
    requires OthersKept(s, s', c) && IsSpace(s.m.roles, c)
    ensures IsSpace(s'.m.roles, c)
  {
    hide SameSpace;
  }

  lemma ProbeShows(s: System, k: nat, contents: Table)
    requires SystemOk(s) && k < |s.processes| && MapPrivateProbe(s, k, contents).1
    ensures SystemOk(MapPrivateProbe(s, k, contents).0)
    ensures ShowsProbe(MapPrivateProbe(s, k, contents).0, s.processes[k].cr3, contents)
  {
    hide SystemOk, MapUser, Inv, SameTables, Look;
    var d := s.processes[k].cr3;
    var (s1, page) := TakePage(s);
    TakePageFacts(s);
    LiveProcess(s1, k);
    var s2 := FillFrame(s1, page, contents);
    FillFacts(s1, page, contents);
    FilledPage(s1, page, contents, d);
    MapUserFacts(s2, d, USER_PEER_PROBE_VA, page, true, false);
    MapUserKeepsOk(s2, d, USER_PEER_PROBE_VA, page, true, false);
    MapKeepsData(s2, d, USER_PEER_PROBE_VA, page, true, false, page);
  }
}
