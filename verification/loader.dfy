/** The bootstrap page tables that boot/multiboot_loader.asm builds at 0x1000..0x5FFF, and the
    address space they define. */
module Loader {
  import opened Paging
  import opened AddressSpaces

  const TEXT_START := 0x200           // PAYLOAD_TEXT_START as a page number
  const TEXT_PAGES := 0x80
  const RODATA_START := 0x280
  const RODATA_PAGES := 0x10
  const LOADER_PAGE := 0x100          // the loader itself executes at 1 MiB
  const BOOT_PML4_AT := 0             // indices of the five tables in the 2560 words
  const BOOT_PDPT_AT := 512
  const BOOT_PD_AT := 1024
  const BOOT_PT0_AT := 1536
  const BOOT_PT1_AT := 2048
  const BOOT_WORDS := 2560

  predicate IsText(page: nat) { TEXT_START <= page < TEXT_START + TEXT_PAGES }

  predicate IsRodata(page: nat) { RODATA_START <= page < RODATA_START + RODATA_PAGES }

  predicate IsLoader(page: nat) { LOADER_PAGE <= page < LOADER_PAGE + 2 }

  /** What the loader's address space maps each page to: the page itself, for the kernel only,
      read-execute for code, read-only for constants and read-write for everything else. */
  function BootMapping(v: nat): Mapping {
    if v >= PAGE_COUNT then Unmapped
    else Mapped(v, false, !(IsText(v) || IsRodata(v) || IsLoader(v)), IsText(v) || IsLoader(v))
  }

  /** A page-table word for page `page` with these rights. */
  function BootLeaf(page: nat): Word
    requires page < PAGE_COUNT
  {
    if IsText(page) || IsLoader(page) then Word(0, page, 0x001)
    else if IsRodata(page) then Word(NX, page, 0x001)
    else Word(NX, page, 0x003)
  }

  /** The word at index k of the five tables. */
  function BootWord(k: nat): Word
    requires k < BOOT_WORDS
  {
    if k == BOOT_PML4_AT then Word(0, 2, 0x003)
    else if k == BOOT_PDPT_AT then Word(0, 3, 0x003)
    else if k == BOOT_PD_AT then Word(0, 4, 0x003)
    else if k == BOOT_PD_AT + 1 then Word(0, 5, 0x003)
    else if BOOT_PD_AT < k < BOOT_PT0_AT then Word(NX, (k - BOOT_PD_AT) * 512, 0x083)
    else if k >= BOOT_PT0_AT then BootLeaf(k - BOOT_PT0_AT)
    else ZERO
  }

  // ---------------------------------------------------------------- the loops

  /** 2 MiB pages for 4 MiB..1 GiB: `.large` */
  method FillLarge(tables: array<Word>)
    requires tables.Length == BOOT_WORDS
    modifies tables
    ensures forall k :: BOOT_PD_AT + 2 <= k < BOOT_PT0_AT ==> tables[k] == Word(NX, (k - BOOT_PD_AT) * 512, 0x083)
    ensures forall k :: 0 <= k < BOOT_WORDS && !(BOOT_PD_AT + 2 <= k < BOOT_PT0_AT) ==> tables[k] == old(tables[k])
  {
    var ecx, edi := 2, BOOT_PD_AT + 2;
    while ecx < 512
      invariant 2 <= ecx <= 512 && edi == BOOT_PD_AT + ecx
      invariant forall k :: BOOT_PD_AT + 2 <= k < edi ==> tables[k] == Word(NX, (k - BOOT_PD_AT) * 512, 0x083)
      invariant forall k :: 0 <= k < BOOT_WORDS && !(BOOT_PD_AT + 2 <= k < edi) ==> tables[k] == old(tables[k])
    {
      tables[edi] := Word(NX, ecx * 512, 0x083);
      edi, ecx := edi + 1, ecx + 1;
    }
  }

  /** One stretch of 4 KiB page-table words with the same flags: `.low`, `.payload`, `.rx`, `.ro` */
  method FillPages(tables: array<Word>, at: nat, page: nat, count: nat, high: bv12, low: bv12)
    requires tables.Length == BOOT_WORDS && at + count <= BOOT_WORDS && page + count <= PAGE_COUNT
    modifies tables
    ensures forall k :: at <= k < at + count ==> tables[k] == Word(high, page + (k - at), low)
    ensures forall k :: 0 <= k < BOOT_WORDS && !(at <= k < at + count) ==> tables[k] == old(tables[k])
  {
    var edi, eax := at, page;
    while edi < at + count
      invariant at <= edi <= at + count && eax == page + (edi - at)
      invariant forall k :: at <= k < edi ==> tables[k] == Word(high, page + (k - at), low)
      invariant forall k :: 0 <= k < BOOT_WORDS && !(at <= k < edi) ==> tables[k] == old(tables[k])
    {
      tables[edi] := Word(high, eax, low);
      edi, eax := edi + 1, eax + 1;
    }
  }

  method BuildDirectories(tables: array<Word>)
    requires tables.Length == BOOT_WORDS
    modifies tables
    ensures forall k :: 0 <= k < BOOT_PT0_AT ==> tables[k] == BootWord(k)
  {
    for k := 0 to BOOT_WORDS
      invariant forall j :: 0 <= j < k ==> tables[j] == ZERO
    {
      tables[k] := ZERO;
    }
    tables[BOOT_PML4_AT] := Word(0, 2, 0x003);
    tables[BOOT_PDPT_AT] := Word(0, 3, 0x003);
    tables[BOOT_PD_AT] := Word(0, 4, 0x003);
    tables[BOOT_PD_AT + 1] := Word(0, 5, 0x003);
    FillLarge(tables);
  }

  /** Everything writable first, then the code and constant pages laid over it. */
  method BuildLeaves(tables: array<Word>)
    requires tables.Length == BOOT_WORDS
    modifies tables
    ensures forall k :: BOOT_PT0_AT <= k < BOOT_WORDS ==> tables[k] == BootLeaf(k - BOOT_PT0_AT)
    ensures forall k :: 0 <= k < BOOT_PT0_AT ==> tables[k] == old(tables[k])
  {
    FillPages(tables, BOOT_PT0_AT, 0, 512, NX, 0x003);
    tables[BOOT_PT0_AT + LOADER_PAGE] := Word(0, LOADER_PAGE, 0x001);
    tables[BOOT_PT0_AT + LOADER_PAGE + 1] := Word(0, LOADER_PAGE + 1, 0x001);
    FillPages(tables, BOOT_PT1_AT, 512, 512, NX, 0x003);
    FillPages(tables, BOOT_PT1_AT, TEXT_START, TEXT_PAGES, 0, 0x001);
    FillPages(tables, BOOT_PT1_AT + TEXT_PAGES, RODATA_START, RODATA_PAGES, NX, 0x001);
  }

  method BuildBootTables(tables: array<Word>)
    requires tables.Length == BOOT_WORDS
    modifies tables
    ensures forall k :: 0 <= k < BOOT_WORDS ==> tables[k] == BootWord(k)
  {
    BuildDirectories(tables);
    BuildLeaves(tables);
  }

  // ---------------------------------------------------------------- the address space

  /** The five bootstrap tables are in frames 1..5. */
  ghost predicate BootLoaded(ram: Ram) {
    forall f: nat, i: nat {:trigger Entry(ram, f, i)} ::
      1 <= f <= 5 && i < TABLE_SIZE ==> Entry(ram, f, i) == BootWord((f - 1) * 512 + i)
  }

  /** The loader identity-maps the first GiB and nothing above it, with the rights above; the
      walk never leaves the five tables. */
  lemma BootIdentityMap(ram: Ram, v: nat)
    requires BootLoaded(ram) && v < 0x10_0000_0000
    ensures Translate(ram, 1, v) == BootMapping(v)
    ensures Translate(ram, 1, v) ==
            if v >= 0x4_0000 then Unmapped
            else if 0x200 <= v < 0x280 || 0x100 <= v < 0x102 then Mapped(v, false, false, true)
            else if 0x280 <= v < 0x290 then Mapped(v, false, false, false)
            else Mapped(v, false, true, false)
    ensures forall f :: f in Visited(ram, BOOT_PML4, v, 4) ==> IsBootTable(f)
  {
    var i4, i3 := IndexAt(v, 4), IndexAt(v, 3);
    assert Entry(ram, 1, i4) == BootWord(i4);
    assert Entry(ram, 2, i3) == BootWord(512 + i3);
    if i4 == 0 && i3 == 0 {
      BootDirectory(ram, v);
    }
  }

  lemma BootDirectory(ram: Ram, v: nat)
    requires BootLoaded(ram) && v < PAGE_COUNT
    ensures WalkFrom(ram, 3, v, 2, Mapped(3, false, true, true)) == BootMapping(v)
    ensures forall f :: f in Visited(ram, 3, v, 2) ==> IsBootTable(f)
  {
    hide WalkFrom, Visited, BootLoaded, BootMapping, IsBootTable;
    if v < 1024 {
      BootSmallPage(ram, v);
    } else {
      BootLargePage(ram, v);
    }
  }

  /** From 4 MiB on it maps 2 MiB itself. */
  lemma BootLargePage(ram: Ram, v: nat)
    requires BootLoaded(ram) && 1024 <= v < PAGE_COUNT
    ensures WalkFrom(ram, 3, v, 2, Mapped(3, false, true, true)) == BootMapping(v)
    ensures forall f :: f in Visited(ram, 3, v, 2) ==> IsBootTable(f)
  {
    var i2 := v / 512;
    assert IndexAt(v, 2) == i2 && v == i2 * 512 + v % 512;
    assert Entry(ram, 3, i2) == BootWord(1024 + i2) == Word(NX, i2 * 512, 0x083);
  }

  /** Below 4 MiB the directory's entry points at a table of 4 KiB pages. */
  lemma BootSmallPage(ram: Ram, v: nat)
    requires BootLoaded(ram) && v < 1024
    ensures WalkFrom(ram, 3, v, 2, Mapped(3, false, true, true)) == BootMapping(v)
    ensures forall f :: f in Visited(ram, 3, v, 2) ==> IsBootTable(f)
  {
    var i2, i1 := v / 512, v % 512;
    assert IndexAt(v, 2) == i2 && IndexAt(v, 1) == i1;
    assert Entry(ram, 3, i2) == BootWord(1024 + i2) == Word(0, 4 + i2, 0x003);
    assert Entry(ram, 4 + i2, i1) == BootWord((3 + i2) * 512 + i1) == BootLeaf(v);
    BootLeafMeans(v);
    hide BootLoaded, BootWord, BootLeaf, IsText, IsRodata, IsLoader, IndexAt;
  }

  lemma BootLeafMeans(v: nat)
    requires v < PAGE_COUNT
    ensures var w := BootLeaf(v);
            && Present(w) && !User(w) && w.frame == v
            && (Writable(w) <==> !(IsText(v) || IsRodata(v) || IsLoader(v)))
            && (NoExecute(w) <==> !(IsText(v) || IsLoader(v)))
  {
  }

  /** Nothing the loader maps is both writable and executable, and nothing is open to user mode. */
  lemma BootWritesOrExecutes(ram: Ram, v: nat)
    requires BootLoaded(ram) && v < 0x10_0000_0000
    ensures Translate(ram, 1, v).Mapped? <==> v < PAGE_COUNT
    ensures v < PAGE_COUNT ==>
              var m := Translate(ram, 1, v);
              m.frame == v && !m.user && !(m.writable && m.executable)
  {
    BootIdentityMap(ram, v);
  }

  lemma BootLeavesAreKernelOnly(ram: Ram)
    requires BootLoaded(ram)
    ensures NoUserLeaf(ram, BOOT_PT0) && NoUserLeaf(ram, BOOT_PT1)
    ensures forall v: nat :: v < 512 ==> LeafMapping(Entry(ram, BOOT_PT0, v)) == BootMapping(v)
    ensures forall v: nat :: 512 <= v < 1024 ==> LeafMapping(Entry(ram, BOOT_PT1, v - 512)) == BootMapping(v)
  {
    forall j: nat | j < 512
      ensures Entry(ram, BOOT_PT0, j) == BootLeaf(j) && Entry(ram, BOOT_PT1, j) == BootLeaf(512 + j)
    {
    }
  }
}
