/** Page-table words, physical memory and the hardware walk over it
    (sections 4.5 and 4.6 of the Intel SDM, volume 3A). */
module Paging {

  const PAGE_SIZE := 4096
  const PAGE_COUNT := 0x4_0000        // frames below the 1 GiB identity-map limit
  const TABLE_SIZE := 512             // words in one table
  const FIRST_FRAME := 0x100          // the allocator never goes below 1 MiB

  const BOOT_PML4 := 1                // frames of the loader's page tables
  const BOOT_PT0 := 4
  const BOOT_PT1 := 5

  /** The five tables that the loader builds. */
  predicate IsBootTable(f: nat) { BOOT_PML4 <= f <= BOOT_PT1 }

  type FrameNumber = f: nat | f < 0x100_0000_0000

  /** A 64-bit word, kept as the three fields that the mask 0x000FFFFFFFFFF000 separates:
      bits 52..63, bits 12..51 and bits 0..11.  An address is a word as well;
      it is page aligned when `low` is 0. */
  datatype Word = Word(high: bv12, frame: FrameNumber, low: bv12)

  const ZERO := Word(0, 0, 0)
  const PRESENT: bv12 := 0x001
  const WRITABLE: bv12 := 0x002
  const USER: bv12 := 0x004
  const LARGE: bv12 := 0x080
  const NX: bv12 := 0x800             // bit 63 of the word

  predicate Present(w: Word) { w.low & PRESENT != 0 }
  predicate Writable(w: Word) { w.low & WRITABLE != 0 }
  predicate User(w: Word) { w.low & USER != 0 }
  predicate Large(w: Word) { w.low & LARGE != 0 }
  predicate NoExecute(w: Word) { w.high & NX != 0 }

  function SetUser(w: Word): Word { w.(low := w.low | USER) }

  /** The table entry for `address` with the given permission flags or-ed in. */
  function Pte(address: Word, user: bool, writable: bool, executable: bool): Word {
    address.(low := address.low | PRESENT | (if writable then WRITABLE else 0) | (if user then USER else 0),
             high := address.high | (if executable then 0 else NX))
  }

  function Address(frame: FrameNumber): Word { Word(0, frame, 0) }

  // ---------------------------------------------------------------- physical memory

  type Table = t: seq<Word> | |t| == TABLE_SIZE witness seq(TABLE_SIZE, _ => ZERO)

  /** Physical memory below 1 GiB: one table of 512 words for each frame. */
  type Ram = r: seq<Table> | |r| == PAGE_COUNT witness seq(PAGE_COUNT, _ => seq(TABLE_SIZE, _ => ZERO))

  /** The word at index `i` of frame `f`; frames beyond physical memory read as zero. */
  function Entry(ram: Ram, f: nat, i: nat): Word {
    if f < PAGE_COUNT && i < TABLE_SIZE then ram[f][i] else ZERO
  }

  function Put(ram: Ram, f: nat, i: nat, w: Word): Ram {
    if f < PAGE_COUNT && i < TABLE_SIZE then ram[f := ram[f][i := w]] else ram
  }

  lemma PutEntry(ram: Ram, f: nat, i: nat, w: Word)
    requires f < PAGE_COUNT && i < TABLE_SIZE
    ensures forall g: nat, j: nat {:trigger Entry(Put(ram, f, i, w), g, j)} ::
              Entry(Put(ram, f, i, w), g, j) == if g == f && j == i then w else Entry(ram, g, j)
  {
  }

  // ---------------------------------------------------------------- the hardware walk

  datatype Mapping = Unmapped | Mapped(frame: nat, user: bool, writable: bool, executable: bool)

  /** The rights of one entry laid over the rights collected on the levels above it. */
  function Restrict(m: Mapping, w: Word): Mapping
    requires m.Mapped?
  {
    Mapped(w.frame, m.user && User(w), m.writable && Writable(w), m.executable && !NoExecute(w))
  }

  function IndexAt(v: nat, level: nat): (i: nat)
    requires 1 <= level <= 4
    ensures i < TABLE_SIZE
  {
    if level == 4 then v / 0x800_0000 % 512
    else if level == 3 then v / 0x4_0000 % 512
    else if level == 2 then v / 512 % 512
    else v % 512
  }

  /** How many 4 KiB pages one entry of this level maps when it is a leaf. */
  function Span(level: nat): (n: nat)
    requires 1 <= level <= 3
    ensures n > 0
  {
    if level == 3 then 0x4_0000 else if level == 2 then 512 else 1
  }

  function WalkFrom(ram: Ram, table: nat, v: nat, level: nat, above: Mapping): Mapping
    requires 1 <= level <= 4
    requires above.Mapped?
    decreases level
  {
    var w := Entry(ram, table, IndexAt(v, level));
    if !Present(w) then Unmapped
    else
      var m := Restrict(above, w);
      if level == 4 then WalkFrom(ram, w.frame, v, 3, m)
      else if level == 1 || Large(w) then
        m.(frame := w.frame / Span(level) * Span(level) + v % Span(level))
      else WalkFrom(ram, w.frame, v, level - 1, m)
  }

  /** What virtual page `v` (a 48-bit address without its 12 offset bits) translates to
      when CR3 holds `cr3`: the frame and the rights combined over all levels. */
  function Translate(ram: Ram, cr3: nat, v: nat): Mapping {
    WalkFrom(ram, cr3, v, 4, Mapped(0, true, true, true))
  }

  /** The frames that the walk for `v` reads. */
  function Visited(ram: Ram, table: nat, v: nat, level: nat): set<nat>
    requires 1 <= level <= 4
    decreases level
  {
    var w := Entry(ram, table, IndexAt(v, level));
    if !Present(w) || level == 1 || (level != 4 && Large(w)) then {table}
    else {table} + Visited(ram, w.frame, v, level - 1)
  }

  /** A walk depends on the frames it reads and on nothing else. */
  lemma {:induction false} WalkFrame(ram: Ram, ram': Ram, table: nat, v: nat, level: nat, above: Mapping)
    requires 1 <= level <= 4
    requires above.Mapped?
    requires forall f: nat, i: nat :: f in Visited(ram, table, v, level) ==> Entry(ram', f, i) == Entry(ram, f, i)
    ensures WalkFrom(ram', table, v, level, above) == WalkFrom(ram, table, v, level, above)
    ensures Visited(ram', table, v, level) == Visited(ram, table, v, level)
    decreases level
  {
    var w := Entry(ram, table, IndexAt(v, level));
    assert table in Visited(ram, table, v, level);
    assert Entry(ram', table, IndexAt(v, level)) == w;
    if !Present(w) || level == 1 || (level != 4 && Large(w)) {
    } else {
      WalkFrame(ram, ram', w.frame, v, level - 1, Restrict(above, w));
    }
  }
}
