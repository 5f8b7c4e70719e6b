/** Runs of the process operations, among other uses of memory, and the set-up of the demo. */
module ProcessRuns {
  import opened Paging
  import opened Allocation
  import opened AddressSpaces
  import opened Loader
  import opened Supply
  import opened Processes
  import I = Isolation

  // ---------------------------------------------------------------- runs

  datatype Action =
    | NewProcess
    | Load(k: nat, allowed: bool, found: bool, image: Table)
    | Probe(k: nat, contents: Table)
    | Memory(op: I.Op)

  /** The callers' discipline for what else happens to memory: that of isolation, and no page that is open to
      user mode is freed, and nothing but the process operations maps pages. */
  predicate Proper(s: System, a: Action) {
    a.Memory? ==>
      && I.Allowed(s.m, a.op) && !a.op.Map?
      && (a.op.ReleasePage? ==> forall k :: k in s.grants ==> s.grants[k] != a.op.address / PAGE_SIZE)
  }

  function Act(s: System, a: Action): System {
    match a
    case Memory(op) => s.(m := I.Do(s.m, op))
    case NewProcess => CreateProcess(s).0
    case Load(k, allowed, found, image) =>
      if k < |s.processes| then LoadExecutable(s, k, allowed, found, image).0 else s
    case Probe(k, contents) => if k < |s.processes| then MapPrivateProbe(s, k, contents).0 else s
  }

  function ActAll(s: System, actions: seq<Action>): System
    decreases |actions|
  {
    if actions == [] then s else ActAll(Act(s, actions[0]), actions[1..])
  }

  predicate AllProper(s: System, actions: seq<Action>)
    decreases |actions|
  {
    actions == [] || (Proper(s, actions[0]) && AllProper(Act(s, actions[0]), actions[1..]))
  }

  /** The state the kernel starts processes from: the loader's tables, and no space yet. */
  lemma BootSystem(pages: Allocator, ram: Ram)
    requires Valid(pages) && BootLoaded(ram)
    ensures SystemOk(System(Machine(pages, ram, map[]), [], map[]))
  {
    BootLeavesAreKernelOnly(ram);
  }

  // ---------------------------------------------------------------- other uses of memory

  /** A change that makes no table and keeps the words of all there are, and every page open to user mode. */
  lemma SameTablesStayOk(s: System, m': Machine)
    requires SystemOk(s) && Inv(m') && m'.roles == s.m.roles
    requires forall f: nat, i: nat {:trigger Entry(m'.ram, f, i)} ::
               IsBootTable(f) || f in s.m.roles ==> Entry(m'.ram, f, i) == Entry(s.m.ram, f, i)
    requires forall k :: k in s.grants ==> s.grants[k] in m'.pages.reserved
    ensures SystemOk(s.(m := m'))
  {
    forall c: nat, v: nat | IsSpace(m'.roles, c)
      ensures PageOk(m'.ram, s.grants, c, v)
    {
      SpaceFrames(s.m, c);
      UntouchedLook(s.m.ram, m'.ram, s.m.roles, c);
      assert PageOk(s.m.ram, s.grants, c, v);
    }
  }

  lemma GrantedFrames(s: System)
    requires SystemOk(s)
    ensures forall k :: k in s.grants ==> DataFrame(s.m, s.grants[k])
  {
  }

  /** No page in use is given up, but the freed one. */
  lemma PagesKept(m: Machine, op: I.Op)
    requires Inv(m) && I.Allowed(m, op) && !op.NewSpace? && !op.Map?
    ensures var m' := I.Do(m, op);
            && m'.roles == m.roles
            && forall f :: f in m.pages.reserved && (op.ReleasePage? ==> f != op.address / PAGE_SIZE) ==>
                 f in m'.pages.reserved
  {
    RolesSettled(m);
    hide Inv, Valid;
    match op
    case TakePages(n) => AllocateFacts(m.pages, n);
    case TakeHeap(size) => I.MallocKeepsValid(m.pages, size);
    case _ =>
  }

  lemma MemoryStaysOk(s: System, op: I.Op)
    requires SystemOk(s) && Proper(s, Memory(op))
    ensures SystemOk(Act(s, Memory(op)))
  {
    if op.NewSpace? {
      SpaceStaysOk(s);
    } else {
      I.StepIsolates(s.m, op);
      PagesKept(s.m, op);
      GrantedFrames(s);
      hide SystemOk, Inv;
      assert Inv(s.m) by { SystemHasInv(s); }
      SameTablesStayOk(s, I.Do(s.m, op));
    }
  }

  lemma SystemHasInv(s: System)
    requires SystemOk(s)
    ensures Inv(s.m)
  {
  }

  lemma SpaceStaysOk(s: System)
    requires SystemOk(s)
    ensures SystemOk(s.(m := CreateSpace(s.m).0))
  {
    hide Inv, GrantsOk, BootLoaded, CreateSpace;
    CreateKeepsInv(s.m);
    CreatedGrants(s.m, s.grants);
    LowMemoryKept(s.m, CreateSpace(s.m).0);
  }

  lemma {:induction false} RunsStayOk(s: System, actions: seq<Action>)
    requires SystemOk(s) && AllProper(s, actions)
    ensures SystemOk(ActAll(s, actions))
    decreases |actions|
  {
    hide SystemOk, Proper;
    if actions != [] {
      match actions[0] {
        case NewProcess => CreateProcessFacts(s);
        case Load(k, allowed, found, image) =>
          if k < |s.processes| {
            LoadFacts(s, k, allowed, found, image);
          }
        case Probe(k, contents) =>
          if k < |s.processes| {
            ProbeFacts(s, k, contents);
          }
        case Memory(op) => MemoryStaysOk(s, op);
      }
      RunsStayOk(Act(s, actions[0]), actions[1..]);
    }
  }

  lemma TranslateInSystem(s: System, c: nat, v: nat)
    requires SystemOk(s) && IsSpace(s.m.roles, c) && v < 0x10_0000_0000
    ensures Translate(s.m.ram, c, v) == Look(s.m.ram, c, v)
    ensures PageOk(s.m.ram, s.grants, c, v)
  {
    WalkInSpace(s.m, c, v);
  }

  /** After any run of process operations and other uses of memory from boot, as the processor translates: no
      page of any address space is both writable and executable, and a frame open to user mode is open at one page
      of one address space only, never being a page table. */
  lemma UserPagesArePrivate(pages: Allocator, ram: Ram, actions: seq<Action>, c: nat, v: nat, d: nat, w: nat)
    requires Valid(pages) && BootLoaded(ram) && AllProper(System(Machine(pages, ram, map[]), [], map[]), actions)
    requires var s := ActAll(System(Machine(pages, ram, map[]), [], map[]), actions);
             IsSpace(s.m.roles, c) && IsSpace(s.m.roles, d)
    requires v < 0x10_0000_0000 && w < 0x10_0000_0000
    ensures var s := ActAll(System(Machine(pages, ram, map[]), [], map[]), actions);
            var mine, theirs := Translate(s.m.ram, c, v), Translate(s.m.ram, d, w);
            && (mine.Mapped? ==> !(mine.writable && mine.executable))
            && (mine.Mapped? && mine.user ==> DataFrame(s.m, mine.frame))
            && (mine.Mapped? && theirs.Mapped? && mine.user && theirs.user && mine.frame == theirs.frame ==>
                  c == d && v == w)
  {
    BootSystem(pages, ram);
    RunsStayOk(System(Machine(pages, ram, map[]), [], map[]), actions);
    var s := ActAll(System(Machine(pages, ram, map[]), [], map[]), actions);
    TranslateInSystem(s, c, v);
    TranslateInSystem(s, d, w);
    assert (c, v) in s.grants && (d, w) in s.grants && s.grants[(c, v)] == s.grants[(d, w)] ==> (c, v) == (d, w);
  }

  // ---------------------------------------------------------------- user_run_demo

  /** The two processes of the demo, the n-th and the one after it, loaded and probed. */
  function DemoPages(s: System, n: nat, allowed: bool, found: bool, image: Table, contents: Table): (System, bool)
    requires n + 1 < |s.processes|
  {
    var (s3, ok3) := LoadExecutable(s, n, allowed, found, image);
    if !ok3 || n + 1 >= |s3.processes| then (s3, false) else MapPrivateProbe(s3, n + 1, contents)
  }

  /** The set-up of user_run_demo, up to entering user mode. */
  function DemoSetUp(s: System, allowed: bool, found: bool, image: Table, contents: Table): (System, bool) {
    var (s1, ok1) := CreateProcess(s);
    if !ok1 then (s1, false)
    else
      var (s2, ok2) := CreateProcess(s1);
      if !ok2 then (s2, false) else DemoPages(s2, |s.processes|, allowed, found, image, contents)
  }

  // ---------------------------------------------------------------- when the set-up succeeds

  lemma CreateCounts(s: System)
    requires SystemOk(s)
    ensures var (s', ok) := CreateProcess(s);
            && (ok <==> |s.processes| < CAPACITY && Available(s.m.pages) >= 5)
            && (ok ==> Available(s'.m.pages) == Available(s.m.pages) - 5 && |s'.processes| == |s.processes| + 1)
  {
    CreateSucceedsExactly(s.m);
    hide Inv, CreateSpace, FreePages;
  }

  /** A process just created: its address space has no table above 4 MiB, the others keep theirs. */
  lemma CreatedTables(s: System)
    requires SystemOk(s) && CreateProcess(s).1
    ensures var s' := CreateProcess(s).0;
            var c := s'.processes[|s.processes|].cr3;
            c != 0 && LoadNeeds(s'.m.ram, c) == 4 && ProbeNeeds(s'.m.ram, c) == 2
  {
    CreateKeepsInv(s.m);
    NewSpaceTables(s.m);
    hide Inv, CreateSpace, HasTable;
  }

  lemma SameNeeds(s: System, s': System, c: nat)
    requires SameSpace(s.m.ram, s'.m.ram, c)
    ensures LoadNeeds(s'.m.ram, c) == LoadNeeds(s.m.ram, c) && ProbeNeeds(s'.m.ram, c) == ProbeNeeds(s.m.ram, c)
  {
    hide SameLook, HasTable;
  }

  lemma DemoPagesCount(s: System, n: nat, allowed: bool, found: bool, image: Table, contents: Table)
    requires SystemOk(s) && n + 1 < |s.processes|
    requires var c, d := s.processes[n].cr3, s.processes[n + 1].cr3;
             && c != 0 && d != 0 && c != d && IsSpace(s.m.roles, d)
             && LoadNeeds(s.m.ram, c) == 4 && ProbeNeeds(s.m.ram, d) == 2
    ensures DemoPages(s, n, allowed, found, image, contents).1 <==> allowed && found && Available(s.m.pages) >= 6
  {
    hide SystemOk, LoadExecutable, MapPrivateProbe, LoadNeeds, ProbeNeeds, Available, Loaded, Probed, SameSpace;
    LoadFacts(s, n, allowed, found, image);
    LoadCounts(s, n, allowed, found, image);
    var (s1, ok) := LoadExecutable(s, n, allowed, found, image);
    if ok {
      SameNeeds(s, s1, s.processes[n + 1].cr3);
      ProbeFacts(s1, n + 1, contents);
    }
  }

  /** The set-up of the demo succeeds exactly when the program may be loaded and is found, there is room for
      two processes, and sixteen pages are free: ten for the tables of the two address spaces, three for code,
      stack and probe, and three for the tables over them. */
  lemma DemoSucceedsExactly(s: System, allowed: bool, found: bool, image: Table, contents: Table)
    requires SystemOk(s)
    ensures DemoSetUp(s, allowed, found, image, contents).1 <==>
              allowed && found && |s.processes| + 2 <= CAPACITY && s.m.pages.ready && |FreePages(s.m.pages)| >= 16
  {
    hide SystemOk, CreateProcess, DemoPages, LoadNeeds, ProbeNeeds, SameSpace, FreePages, IsFresh;
    CreateCounts(s);
    var (s1, ok1) := CreateProcess(s);
    if ok1 {
      CreateProcessFacts(s);
      CreatedProcess(s);
      CreatedTables(s);
      CreateCounts(s1);
      var (s2, ok2) := CreateProcess(s1);
      if ok2 {
        CreateProcessFacts(s1);
        CreatedProcess(s1);
        CreatedTables(s1);
        SameNeeds(s1, s2, s1.processes[|s.processes|].cr3);
        DemoPagesCount(s2, |s.processes|, allowed, found, image, contents);
      }
    }
  }

  // ---------------------------------------------------------------- what the two processes see

  ghost predicate LooksLoaded(ram: Ram, c: nat, code: nat, stack: nat) {
    forall v: nat {:trigger Look(ram, c, v)} :: Look(ram, c, v) == LoadedMapping(FreshMapping(v), v, code, stack)
  }

  ghost predicate LooksProbed(ram: Ram, d: nat, page: nat) {
    forall v: nat {:trigger Look(ram, d, v)} :: Look(ram, d, v) == ProbedMapping(FreshMapping(v), v, page)
  }

  lemma LoadedLooks(s: System, s': System, c: nat, d: nat)
    requires IsFresh(s.m.ram, c) && IsFresh(s.m.ram, d) && c != d && IsSpace(s.m.roles, d)
    requires Loaded(s, s', c) && OthersKept(s, s', c)
    ensures LooksLoaded(s'.m.ram, c, s'.grants[(c, CODE_PAGE)], s'.grants[(c, STACK_PAGE)])
    ensures IsFresh(s'.m.ram, d) && IsSpace(s'.m.roles, c) && IsSpace(s'.m.roles, d)
  {
    hide SameTables, FreshMapping;
  }

  lemma ProbedLooks(s: System, s': System, c: nat, d: nat, code: nat, stack: nat)
    requires LooksLoaded(s.m.ram, c, code, stack) && IsFresh(s.m.ram, d) && c != d && IsSpace(s.m.roles, c)
    requires Probed(s, s', d) && OthersKept(s, s', d)
    ensures LooksLoaded(s'.m.ram, c, code, stack) && LooksProbed(s'.m.ram, d, s'.grants[(d, PROBE_PAGE)])
    ensures IsSpace(s'.m.roles, c) && IsSpace(s'.m.roles, d)
  {
    hide SameTables, FreshMapping;
  }

  lemma PeerStaysFresh(s: System, s': System, c: nat)
    requires SpacesKept(s, s') && IsSpace(s.m.roles, c) && IsFresh(s.m.ram, c)
    ensures IsFresh(s'.m.ram, c) && IsSpace(s'.m.roles, c)
  {
    hide SameTables, FreshMapping;
  }

  /** The two processes before the program is loaded. */
  lemma DemoStarts(s: System)
    requires SystemOk(s) && CreateProcess(s).1 && CreateProcess(CreateProcess(s).0).1
    ensures var s2 := CreateProcess(CreateProcess(s).0).0;
            && SystemOk(s2) && |s2.processes| == |s.processes| + 2
            && var c, d := s2.processes[|s.processes|].cr3, s2.processes[|s.processes| + 1].cr3;
               && c != d && IsSpace(s2.m.roles, d) && IsFresh(s2.m.ram, c) && IsFresh(s2.m.ram, d)
  {
    hide SystemOk, CreateProcess, IsFresh, SpacesKept;
    var s1 := CreateProcess(s).0;
    CreateProcessFacts(s);
    CreatedProcess(s);
    CreateProcessFacts(s1);
    CreatedProcess(s1);
    PeerStaysFresh(s1, CreateProcess(s1).0, s1.processes[|s.processes|].cr3);
  }

  lemma DemoLooks(s: System, n: nat, allowed: bool, found: bool, image: Table, contents: Table, c: nat, d: nat)
    requires SystemOk(s) && n + 1 < |s.processes| && c == s.processes[n].cr3 && d == s.processes[n + 1].cr3
    requires c != d && IsSpace(s.m.roles, d) && IsFresh(s.m.ram, c) && IsFresh(s.m.ram, d)
    requires DemoPages(s, n, allowed, found, image, contents).1
    ensures var s' := DemoPages(s, n, allowed, found, image, contents).0;
            && SystemOk(s') && s'.processes == s.processes && IsSpace(s'.m.roles, c) && IsSpace(s'.m.roles, d)
            && (d, PROBE_PAGE) in s'.grants && LooksProbed(s'.m.ram, d, s'.grants[(d, PROBE_PAGE)])
            && exists code, stack :: LooksLoaded(s'.m.ram, c, code, stack)
  {
    hide SystemOk, LoadExecutable, MapPrivateProbe, IsFresh, LooksLoaded, LooksProbed, LoadNeeds, ProbeNeeds, Available,
         SameSpace;
    LoadFacts(s, n, allowed, found, image);
    var s1 := LoadExecutable(s, n, allowed, found, image).0;
    LoadedLooks(s, s1, c, d);
    ProbeFacts(s1, n + 1, contents);
    ProbedLooks(s1, MapPrivateProbe(s1, n + 1, contents).0, c, d, s1.grants[(c, CODE_PAGE)],
                s1.grants[(c, STACK_PAGE)]);
  }

  /** A loaded process's code and stack are the ones granted. */
  lemma LoadedGrants(s: System, c: nat, code: nat, stack: nat)
    requires SystemOk(s) && IsSpace(s.m.roles, c) && LooksLoaded(s.m.ram, c, code, stack)
    ensures (c, CODE_PAGE) in s.grants && (c, STACK_PAGE) in s.grants
    ensures s.grants[(c, CODE_PAGE)] == code && s.grants[(c, STACK_PAGE)] == stack
  {
    TranslateInSystem(s, c, CODE_PAGE);
    TranslateInSystem(s, c, STACK_PAGE);
    hide SystemOk;
  }

  /** When the demo enters user mode, the process sees the kernel's pages below 4 MiB, its code and its
      stack and nothing else; the peer sees its private page and not the others; in particular the
      process cannot translate the peer's probe address. */
  lemma DemoIsolatesPeer(s: System, allowed: bool, found: bool, image: Table, contents: Table, v: nat)
    requires SystemOk(s) && v < 0x10_0000_0000
    requires DemoSetUp(s, allowed, found, image, contents).1
    ensures var s' := DemoSetUp(s, allowed, found, image, contents).0;
            && SystemOk(s')
            && |s'.processes| == |s.processes| + 2
            && var c, d := s'.processes[|s.processes|].cr3, s'.processes[|s.processes| + 1].cr3;
               && c != d
               && (c, CODE_PAGE) in s'.grants && (c, STACK_PAGE) in s'.grants && (d, PROBE_PAGE) in s'.grants
               && Translate(s'.m.ram, c, v) ==
                  LoadedMapping(FreshMapping(v), v, s'.grants[(c, CODE_PAGE)], s'.grants[(c, STACK_PAGE)])
               && Translate(s'.m.ram, d, v) == ProbedMapping(FreshMapping(v), v, s'.grants[(d, PROBE_PAGE)])
               && Translate(s'.m.ram, c, PROBE_PAGE) == Unmapped
  {
    hide SystemOk, CreateProcess, DemoPages, LooksLoaded, LooksProbed, Look, IsFresh, FreshMapping;
    DemoStarts(s);
    var n := |s.processes|;
    var s2 := CreateProcess(CreateProcess(s).0).0;
    var c, d := s2.processes[n].cr3, s2.processes[n + 1].cr3;
    DemoLooks(s2, n, allowed, found, image, contents, c, d);
    var s' := DemoPages(s2, n, allowed, found, image, contents).0;
    var code, stack :| LooksLoaded(s'.m.ram, c, code, stack);
    LoadedGrants(s', c, code, stack);
    LoadedTranslates(s', c, code, stack, v);
    LoadedTranslates(s', c, code, stack, PROBE_PAGE);
    ProbeIsUnmapped(code, stack);
    ProbedTranslates(s', d, v);
  }

  /** The same, by addresses. */
  lemma DemoByAddress(s: System, allowed: bool, found: bool, image: Table, contents: Table, v: nat)
    requires SystemOk(s) && v < 0x10_0000_0000
    requires DemoSetUp(s, allowed, found, image, contents).1
    ensures var s' := DemoSetUp(s, allowed, found, image, contents).0;
            && |s'.processes| == |s.processes| + 2
            && var c, d := s'.processes[|s.processes|].cr3, s'.processes[|s.processes| + 1].cr3;
               && (c, 0x400) in s'.grants && (c, 0x7FF) in s'.grants && (d, 0x600) in s'.grants
               && Translate(s'.m.ram, c, v) ==
                  (if v == 0x400 then Mapped(s'.grants[(c, 0x400)], true, false, true)
                   else if v == 0x7FF then Mapped(s'.grants[(c, 0x7FF)], true, true, false)
                   else KernelPage(v))
               && Translate(s'.m.ram, d, v) ==
                  (if v == 0x600 then Mapped(s'.grants[(d, 0x600)], true, true, false) else KernelPage(v))
  {
    hide SystemOk, DemoSetUp, Translate;
    DemoIsolatesPeer(s, allowed, found, image, contents, v);
  }

  /** The kernel's own pages below 4 MiB as every process sees them, and nothing above. */
  function KernelPage(v: nat): Mapping {
    if v >= 0x400 then Unmapped
    else if 0x200 <= v < 0x280 || 0x100 <= v < 0x102 then Mapped(v, false, false, true)
    else if 0x280 <= v < 0x290 then Mapped(v, false, false, false)
    else Mapped(v, false, true, false)
  }

  lemma LoadedTranslates(s: System, c: nat, code: nat, stack: nat, v: nat)
    requires SystemOk(s) && IsSpace(s.m.roles, c) && v < 0x10_0000_0000 && LooksLoaded(s.m.ram, c, code, stack)
    ensures Translate(s.m.ram, c, v) == LoadedMapping(FreshMapping(v), v, code, stack)
  {
    TranslateInSystem(s, c, v);
    hide SystemOk, Translate, FreshMapping;
  }

  lemma ProbeIsUnmapped(code: nat, stack: nat)
    ensures LoadedMapping(FreshMapping(PROBE_PAGE), PROBE_PAGE, code, stack) == Unmapped
  {
  }

  lemma ProbedTranslates(s: System, d: nat, v: nat)
    requires SystemOk(s) && IsSpace(s.m.roles, d) && v < 0x10_0000_0000
    requires (d, PROBE_PAGE) in s.grants && LooksProbed(s.m.ram, d, s.grants[(d, PROBE_PAGE)])
    ensures Translate(s.m.ram, d, v) == ProbedMapping(FreshMapping(v), v, s.grants[(d, PROBE_PAGE)])
  {
    TranslateInSystem(s, d, v);
    hide SystemOk, Translate, FreshMapping;
  }
}
