/** The process table of kernel/user.c and the pages it fills and maps. */
module UserMemory {
  import opened Paging
  import opened Allocation
  import opened AddressSpaces
  import opened PageTables
  import opened ProcessContents
  import opened Processes

  type Byte = b: nat | b < 256

  const NOP := 0x90

  /** Byte i of a page that clear_page filled and ramfs_read then wrote a file over. */
  function ImageByte(file: seq<Byte>, i: nat): Byte { if i < |file| then file[i] else NOP }

  /** Eight bytes in memory order as a 64-bit word: bits 52..63, 12..51 and 0..11. */
  function Pack(b0: Byte, b1: Byte, b2: Byte, b3: Byte, b4: Byte, b5: Byte, b6: Byte, b7: Byte): Word {
    Word((b7 * 16 + b6 / 16) as bv12,
         ((((b6 % 16 * 256 + b5) * 256 + b4) * 256 + b3) * 256 + b2) * 16 + b1 / 16,
         (b1 % 16 * 256 + b0) as bv12)
  }

  function ImageWord(file: seq<Byte>, i: nat): Word {
    Pack(ImageByte(file, 8 * i), ImageByte(file, 8 * i + 1), ImageByte(file, 8 * i + 2), ImageByte(file, 8 * i + 3),
         ImageByte(file, 8 * i + 4), ImageByte(file, 8 * i + 5), ImageByte(file, 8 * i + 6), ImageByte(file, 8 * i + 7))
  }

  function Image(file: seq<Byte>): Table { seq(TABLE_SIZE, i requires 0 <= i => ImageWord(file, i)) }

  /** 0xBEEFBEEF00000000 with the owner's 32-bit pid or-ed in. */
  function ProbeWord(pid: nat): Word {
    Word(0xBEE, 0xFB_EEF0_0000 + pid % 0x1_0000_0000 / 4096, (pid % 4096) as bv12)
  }

  function ProbeContents(pid: nat): Table { seq(TABLE_SIZE, _ => ProbeWord(pid)) }

  // ---------------------------------------------------------------- the bytes of these words

  lemma BackToBits(b: bv12)
    ensures (b as nat) as bv12 == b
  {
  }

  lemma NextBits(b: bv12)
    requires b < 0xFFF
    ensures (b + 1) as nat == b as nat + 1
  {
  }

  lemma LastBits(b: bv12)
    requires b >= 0xFFF
    ensures b as nat == 0xFFF
  {
  }

  /** Twelve bits hold every number below 4096. */
  lemma {:induction false} TwelveBits(x: nat)
    requires x < 4096
    ensures (x as bv12) as nat == x
  {
    if x > 0 {
      TwelveBits(x - 1);
      var b := (x - 1) as bv12;
      if b >= 0xFFF {
        LastBits(b);
        assert false;
      }
      NextBits(b);
      BackToBits(b + 1);
    }
  }

  /** The number whose bytes these are, the least significant first. */
  function NumberOf(bytes: seq<Byte>): nat {
    if bytes == [] then 0 else bytes[0] + 0x100 * NumberOf(bytes[1..])
  }

  lemma {:induction false} NumberBytes(bytes: seq<Byte>, j: nat)
    requires j < |bytes|
    ensures ByteOf(NumberOf(bytes), j) == bytes[j]
  {
    var rest := NumberOf(bytes[1..]);
    LowByte(bytes[0], rest);
    if j > 0 {
      NumberBytes(bytes[1..], j - 1);
    }
  }

  lemma LowByte(b: Byte, rest: nat)
    ensures (b + 0x100 * rest) % 0x100 == b && (b + 0x100 * rest) / 0x100 == rest
  {
  }

  /** Eight bytes as a number, written out. */
  function EightBytes(b0: nat, b1: nat, b2: nat, b3: nat, b4: nat, b5: nat, b6: nat, b7: nat): nat {
    b0 + 0x100 * (b1 + 0x100 * (b2 + 0x100 * (b3 + 0x100 * (b4 + 0x100 * (b5 + 0x100 * (b6 + 0x100 * b7))))))
  }

  lemma EightAreNumber(bytes: seq<Byte>)
    requires |bytes| == 8
    ensures NumberOf(bytes) ==
            EightBytes(bytes[0], bytes[1], bytes[2], bytes[3], bytes[4], bytes[5], bytes[6], bytes[7])
  {
    var s1 := bytes[1..];
    var s2 := s1[1..];
    var s3 := s2[1..];
    var s4 := s3[1..];
    var s5 := s4[1..];
    var s6 := s5[1..];
    var s7 := s6[1..];
    assert NumberOf(s7) == s7[0] by {
      assert s7[1..] == [];
    }
    assert NumberOf(s6) == s6[0] + 0x100 * NumberOf(s7);
    assert NumberOf(s5) == s5[0] + 0x100 * NumberOf(s6);
    assert NumberOf(s4) == s4[0] + 0x100 * NumberOf(s5);
    assert NumberOf(s3) == s3[0] + 0x100 * NumberOf(s4);
    assert NumberOf(s2) == s2[0] + 0x100 * NumberOf(s3);
    assert NumberOf(s1) == s1[0] + 0x100 * NumberOf(s2);
  }

  /** A packed word is the number whose bytes it packs. */
  lemma PackValue(b0: nat, b1: nat, b2: nat, b3: nat, b4: nat, b5: nat, b6: nat, b7: nat)
    requires b0 < 256 && b1 < 256 && b2 < 256 && b3 < 256 && b4 < 256 && b5 < 256 && b6 < 256 && b7 < 256
    ensures ValueOf(Pack(b0, b1, b2, b3, b4, b5, b6, b7)) == EightBytes(b0, b1, b2, b3, b4, b5, b6, b7)
  {
    TwelveBits(b7 * 16 + b6 / 16);
    TwelveBits(b1 % 16 * 256 + b0);
  }

  /** The bytes of word w of the image. */
  function ImageBytesAt(file: seq<Byte>, w: nat): (bytes: seq<Byte>)
    ensures |bytes| == 8 && forall j :: 0 <= j < 8 ==> bytes[j] == ImageByte(file, 8 * w + j)
  {
    [ImageByte(file, 8 * w), ImageByte(file, 8 * w + 1), ImageByte(file, 8 * w + 2), ImageByte(file, 8 * w + 3),
     ImageByte(file, 8 * w + 4), ImageByte(file, 8 * w + 5), ImageByte(file, 8 * w + 6), ImageByte(file, 8 * w + 7)]
  }

  lemma WordBytes(file: seq<Byte>, w: nat)
    ensures ValueOf(ImageWord(file, w)) == NumberOf(ImageBytesAt(file, w))
  {
    hide ValueOf, NumberOf, EightBytes, Pack, ImageByte;
    var b := ImageBytesAt(file, w);
    PackValue(b[0], b[1], b[2], b[3], b[4], b[5], b[6], b[7]);
    EightAreNumber(b);
  }

  lemma ImageIsWords(file: seq<Byte>, w: nat)
    requires w < TABLE_SIZE
    ensures Image(file)[w] == ImageWord(file, w)
  {
    hide ImageWord;
  }

  lemma ImageBytes(file: seq<Byte>, i: nat)
    requires i < PAGE_SIZE
    ensures ByteOf(ValueOf(Image(file)[i / 8]), i % 8) == if i < |file| then file[i] else 0x90
  {
    hide ValueOf, NumberOf, ByteOf, Image, ImageWord, ImageBytesAt;
    WordBytes(file, i / 8);
    ImageIsWords(file, i / 8);
    NumberBytes(ImageBytesAt(file, i / 8), i % 8);
    assert ImageBytesAt(file, i / 8)[i % 8] == ImageByte(file, i);
  }

  lemma ProbeValue(pid: nat)
    requires pid < 0x1_0000_0000
    ensures ValueOf(ProbeWord(pid)) == 0xBEEF_BEEF_0000_0000 + pid
  {
    TwelveBits(pid % 4096);
    TwelveBits(0xBEE);
  }

  /** The processor reads the file at 0x400000, and 0x90 in the rest of the page. */
  ghost predicate ReadsFile(ram: Ram, cr3: nat, file: seq<Byte>) {
    forall i: nat :: i < 0x1000 ==> ReadByte(ram, cr3, 0x40_0000 + i) == if i < |file| then file[i] else 0x90
  }

  /** It reads the owner's stamp in every word of the page at 0x600000. */
  ghost predicate ReadsStamp(ram: Ram, cr3: nat, pid: nat) {
    forall j: nat :: j < 512 ==> ReadWord(ram, cr3, 0x60_0000 + 8 * j) == 0xBEEF_BEEF_0000_0000 + pid
  }

  lemma ImageIsRead(s: System, c: nat, file: seq<Byte>)
    requires SystemOk(s) && ShowsImage(s, c, Image(file))
    ensures ReadsFile(s.m.ram, c, file)
  {
    var code: nat, stack: nat :| code < PAGE_COUNT && s.m.ram[code] == Image(file) &&
                                 Look(s.m.ram, c, 0x400) == Mapped(code, true, false, true) &&
                                 Look(s.m.ram, c, 0x7FF) == Mapped(stack, true, true, false);
    WalkInSpace(s.m, c, 0x400);
    hide SystemOk, Look, Image, Translate, ByteOf, ValueOf;
    forall i: nat | i < 0x1000
      ensures ReadByte(s.m.ram, c, 0x40_0000 + i) == if i < |file| then file[i] else 0x90
    {
      ImageBytes(file, i);
      assert (0x40_0000 + i) / 0x1000 == 0x400 && (0x40_0000 + i) % 0x1000 == i && (0x40_0000 + i) % 8 == i % 8;
    }
  }

  lemma StampIsRead(s: System, d: nat, pid: nat)
    requires SystemOk(s) && ShowsProbe(s, d, ProbeContents(pid)) && pid < 0x1_0000_0000
    ensures ReadsStamp(s.m.ram, d, pid)
  {
    var page: nat :| page < PAGE_COUNT && s.m.ram[page] == ProbeContents(pid) &&
                     Look(s.m.ram, d, 0x600) == Mapped(page, true, true, false);
    WalkInSpace(s.m, d, 0x600);
    ProbeValue(pid);
    hide SystemOk, Look, Translate, ProbeWord, ValueOf;
    forall j: nat | j < 512
      ensures ReadWord(s.m.ram, d, 0x60_0000 + 8 * j) == 0xBEEF_BEEF_0000_0000 + pid
    {
      assert (0x60_0000 + 8 * j) / 0x1000 == 0x600 && (0x60_0000 + 8 * j) % 0x1000 / 8 == j;
    }
  }

  /** A program that was loaded is in its process's memory, byte by byte. */
  lemma LoadedProgramIsRead(s: System, k: nat, file: seq<Byte>)
    requires SystemOk(s) && k < |s.processes| && LoadExecutable(s, k, true, true, Image(file)).1
    ensures ReadsFile(LoadExecutable(s, k, true, true, Image(file)).0.m.ram, s.processes[k].cr3, file)
  {
    hide SystemOk, LoadExecutable, Image, ShowsImage;
    LoadShows(s, k, Image(file));
    ImageIsRead(LoadExecutable(s, k, true, true, Image(file)).0, s.processes[k].cr3, file);
  }

  lemma StampedPageIsRead(s: System, k: nat, pid: nat)
    requires SystemOk(s) && k < |s.processes| && MapPrivateProbe(s, k, ProbeContents(pid)).1 && pid < 0x1_0000_0000
    ensures ReadsStamp(MapPrivateProbe(s, k, ProbeContents(pid)).0.m.ram, s.processes[k].cr3, pid)
  {
    hide SystemOk, MapPrivateProbe, ProbeContents, ShowsProbe;
    ProbeShows(s, k, ProbeContents(pid));
    StampIsRead(MapPrivateProbe(s, k, ProbeContents(pid)).0, s.processes[k].cr3, pid);
  }

  class ProcessTable {
    const memory: PagedMemory
    var processes: seq<Process>
    ghost var grants: map<(nat, nat), nat>

    ghost predicate Shape()
      reads this, memory, memory.pages
    {
      memory.Shape()
    }

    ghost function State(): System
      reads this, memory, memory.pages, memory.pages.pageBitmap, memory.pages.usableBitmap
    {
      System(memory.State(), processes, grants)
    }

    constructor (memory: PagedMemory)
      requires memory.Shape()
      ensures Shape() && this.memory == memory
      ensures State() == System(memory.State(), [], map[])
    {
      this.memory := memory;
      processes, grants := [], map[];
    }

    method Create() returns (ok: bool)
      requires Shape() && Inv(memory.State())
      modifies this`processes, memory`ram, memory`roles, memory.pages.pageBitmap
      ensures Shape()
      ensures (State(), ok) == CreateProcess(old(State()))
    {
      hide Inv, CreateSpace;
      if |processes| >= CAPACITY {
        return false;
      }
      var c := memory.CreateAddressSpace();
      processes := processes + [Process(|processes| + 1, c)];
      return c != 0;
    }

    /** clear_page and ramfs_read, a word at a time. */
    method FillCode(frame: nat, file: seq<Byte>)
      requires frame < PAGE_COUNT
      modifies memory`ram
      ensures memory.ram == old(memory.ram)[frame := Image(file)]
    {
      hide ImageWord;
      for i := 0 to TABLE_SIZE
        invariant memory.ram == old(memory.ram)[frame := memory.ram[frame]]
        invariant forall j :: 0 <= j < i ==> memory.ram[frame][j] == ImageWord(file, j)
      {
        memory.ram := memory.ram[frame := memory.ram[frame][i := ImageWord(file, i)]];
      }
      assert memory.ram[frame] == Image(file);
    }

    /** The loop that stamps the probe page with its owner. */
    method StampPage(frame: nat, pid: nat)
      requires frame < PAGE_COUNT
      modifies memory`ram
      ensures memory.ram == old(memory.ram)[frame := ProbeContents(pid)]
    {
      hide ProbeWord;
      for i := 0 to TABLE_SIZE
        invariant memory.ram == old(memory.ram)[frame := memory.ram[frame]]
        invariant forall j :: 0 <= j < i ==> memory.ram[frame][j] == ProbeWord(pid)
      {
        memory.ram := memory.ram[frame := memory.ram[frame][i := ProbeWord(pid)]];
      }
      assert memory.ram[frame] == ProbeContents(pid);
    }

    method MapForUser(c: nat, va: nat, frame: nat, writable: bool, executable: bool) returns (ok: bool)
      requires Shape() && frame < PAGE_COUNT
      modifies this`grants, memory`ram, memory`roles, memory.pages.pageBitmap
      ensures Shape()
      ensures (State(), ok) == MapUser(old(State()), c, va, frame, writable, executable)
    {
      hide MapPage;
      var result := memory.MapProcessPage(c, va, Address(frame), true, writable, executable);
      if result == MapOk {
        grants := grants[(c, va / PAGE_SIZE) := frame];
      }
      return result == MapOk;
    }

    method MapCodeAndStack(c: nat, code: nat, stack: nat, file: seq<Byte>) returns (ok: bool)
      requires Shape() && code < PAGE_COUNT && stack < PAGE_COUNT
      modifies this`grants, memory`ram, memory`roles, memory.pages.pageBitmap
      ensures Shape()
      ensures (State(), ok) == MapImage(old(State()), c, code, stack, Image(file))
    {
      hide MapUser, Image;
      FillCode(code, file);
      ok := MapForUser(c, USER_CODE_VA, code, false, true);
      if ok {
        ok := MapForUser(c, USER_STACK_TOP - PAGE_SIZE, stack, true, false);
      }
    }

    /** load_executable for a file that was looked up; one of more than a page is refused as well. */
    method Load(k: nat, allowed: bool, executable: bool, file: seq<Byte>) returns (ok: bool)
      requires Shape() && k < |processes|
      modifies this`grants, memory`ram, memory`roles, memory.pages.pageBitmap
      ensures Shape()
      ensures (State(), ok) ==
              LoadExecutable(old(State()), k, allowed, executable && |file| <= PAGE_SIZE, Image(file))
      ensures SystemOk(old(State())) && ok ==> ReadsFile(memory.ram, processes[k].cr3, file)
    {
      hide MapImage, Allocate, Image, SystemOk, ReadsFile;
      if SystemOk(State()) && LoadExecutable(State(), k, true, true, Image(file)).1 {
        LoadedProgramIsRead(State(), k, file);
      }
      if !allowed || !executable || |file| > PAGE_SIZE {
        return false;
      }
      var code := memory.PageAlloc();
      var stack := memory.PageAlloc();
      if code == 0 || stack == 0 {
        return false;
      }
      ok := MapCodeAndStack(processes[k].cr3, code, stack, file);
    }

    method Probe(k: nat) returns (ok: bool)
      requires Shape() && k < |processes|
      modifies this`grants, memory`ram, memory`roles, memory.pages.pageBitmap
      ensures Shape()
      ensures (State(), ok) == MapPrivateProbe(old(State()), k, ProbeContents(old(processes[k].pid)))
      ensures SystemOk(old(State())) && ok && processes[k].pid < 0x1_0000_0000 ==>
                ReadsStamp(memory.ram, processes[k].cr3, processes[k].pid)
    {
      hide MapUser, Allocate, ProbeContents, SystemOk, ReadsStamp;
      if SystemOk(State()) && processes[k].pid < 0x1_0000_0000 &&
         MapPrivateProbe(State(), k, ProbeContents(processes[k].pid)).1
      {
        StampedPageIsRead(State(), k, processes[k].pid);
      }
      var page := memory.PageAlloc();
      if page == 0 {
        return false;
      }
      StampPage(page, processes[k].pid);
      ok := MapForUser(processes[k].cr3, USER_PEER_PROBE_VA, page, true, false);
    }
  }
}
