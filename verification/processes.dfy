/** User processes: their address spaces, their code, stack and private pages. */
module Processes {
  import opened Paging
  import opened Allocation
  import opened AddressSpaces
  import opened Loader
  import opened Supply

  const CAPACITY := 4
  const USER_CODE_VA := 0x40_0000
  const USER_STACK_TOP := 0x80_0000
  const USER_PEER_PROBE_VA := 0x60_0000

  /** `cr3` is 0 when the address space could not be made. */
  datatype Process = Process(pid: nat, cr3: nat)

  /** `grants` is bookkeeping for the proofs: the frame behind each (address space, page) that has
      been opened to user mode. */
  datatype System = System(m: Machine, processes: seq<Process>, grants: map<(nat, nat), nat>)

  function CreateProcess(s: System): (System, bool) {
    if |s.processes| >= CAPACITY then (s, false)
    else
      var (m', c) := CreateSpace(s.m);
      (s.(m := m', processes := s.processes + [Process(|s.processes| + 1, c)]), c != 0)
  }

  /** memory_map_process_page on behalf of user mode. */
  function MapUser(s: System, c: nat, va: nat, frame: nat, writable: bool, executable: bool): (System, bool)
    requires frame < PAGE_COUNT
  {
    var (m', result) := MapPage(s.m, c, va, Address(frame), true, writable, executable);
    (s.(m := m', grants := if result == MapOk then s.grants[(c, va / PAGE_SIZE) := frame] else s.grants),
     result == MapOk)
  }

  /** Allocated frame `frame` filled by the kernel. */
  function FillFrame(s: System, frame: nat, contents: Table): System
    requires frame < PAGE_COUNT
  {
    s.(m := s.m.(ram := s.m.ram[frame := contents]))
  }

  function TakePage(s: System): (r: (System, nat))
    ensures r.1 < PAGE_COUNT
  {
    var (pages, frame) := Take(s.m.pages);
    (s.(m := s.m.(pages := pages)), frame)
  }

  /** The second half of load_executable, once both pages are there. */
  function MapImage(s: System, c: nat, code: nat, stack: nat, image: Table): (System, bool)
    requires code < PAGE_COUNT && stack < PAGE_COUNT
  {
    var (s1, ok) := MapUser(FillFrame(s, code, image), c, USER_CODE_VA, code, false, true);
    if !ok then (s1, false) else MapUser(s1, c, USER_STACK_TOP - PAGE_SIZE, stack, true, false)
  }

  /** load_executable for process k: `allowed` is the policy's verdict, `found` whether the path names
      an executable of at most one page, `image` the page the program fills. */
  function LoadExecutable(s: System, k: nat, allowed: bool, found: bool, image: Table): (System, bool)
    requires k < |s.processes|
  {
    if !allowed || !found then (s, false)
    else
      var (s1, code) := TakePage(s);
      var (s2, stack) := TakePage(s1);
      if code == 0 || stack == 0 then (s2, false)
      else
        MapImage(s2, s.processes[k].cr3, code, stack, image)
  }

  function MapPrivateProbe(s: System, k: nat, contents: Table): (System, bool)
    requires k < |s.processes|
  {
    var (s1, page) := TakePage(s);
    if page == 0 then (s1, false)
    else MapUser(FillFrame(s1, page, contents), s.processes[k].cr3, USER_PEER_PROBE_VA, page, true, false)
  }

  // ---------------------------------------------------------------- invariant

  predicate Private(grants: map<(nat, nat), nat>) {
    forall k, l :: k in grants && l in grants && grants[k] == grants[l] ==> k == l
  }

  /** Page v of space c: never both writable and executable, and open to user mode exactly when it was
      granted, to the granted frame. */
  ghost predicate PageOk(ram: Ram, grants: map<(nat, nat), nat>, c: nat, v: nat) {
    var look := Look(ram, c, v);
    && (look.Mapped? ==> !(look.writable && look.executable))
    && (look.Mapped? && look.user <==> (c, v) in grants)
    && ((c, v) in grants ==> look.frame == grants[(c, v)])
  }

  ghost predicate AllPagesOk(m: Machine, grants: map<(nat, nat), nat>) {
    forall c: nat, v: nat {:trigger PageOk(m.ram, grants, c, v)} :: IsSpace(m.roles, c) ==> PageOk(m.ram, grants, c, v)
  }

  predicate GrantFramesOk(m: Machine, grants: map<(nat, nat), nat>) {
    forall k :: k in grants ==> IsSpace(m.roles, k.0) && DataFrame(m, grants[k])
  }

  ghost predicate GrantsOk(m: Machine, grants: map<(nat, nat), nat>) {
    Private(grants) && GrantFramesOk(m, grants) && AllPagesOk(m, grants)
  }

  /** An allocated frame that is no page table. */
  predicate DataFrame(m: Machine, f: nat) {
    FIRST_FRAME <= f < PAGE_COUNT && f in m.pages.reserved && f !in m.roles
  }

  ghost predicate SystemOk(s: System) {
    && Inv(s.m)
    && BootLoaded(s.m.ram)
    && |s.processes| <= CAPACITY
    && (forall p :: p in s.processes ==> p.cr3 == 0 || IsSpace(s.m.roles, p.cr3))
    && GrantsOk(s.m, s.grants)
  }

  /** Space c translates every page as before, and has the tables it had. */
  ghost predicate SameSpace(ram: Ram, ram': Ram, c: nat) { SameLook(ram, ram', c) && SameTables(ram, ram', c) }

  /** Every live space of s is in s' as it is in s. */
  ghost predicate SpacesKept(s: System, s': System) {
    && Extends(s.m.roles, s'.m.roles)
    && forall c: nat :: IsSpace(s.m.roles, c) ==> SameSpace(s.m.ram, s'.m.ram, c)
  }

  lemma LowMemoryKept(m: Machine, m': Machine)
    requires BootLoaded(m.ram)
    requires forall f: nat, i: nat {:trigger Entry(m'.ram, f, i)} ::
               f < FIRST_FRAME ==> Entry(m'.ram, f, i) == Entry(m.ram, f, i)
    ensures BootLoaded(m'.ram)
  {
  }

  // ---------------------------------------------------------------- creating a process

  /** A fresh space is the loader's below 4 MiB and empty above. */
  function FreshMapping(v: nat): Mapping { if v < 1024 then BootMapping(v) else Unmapped }

  ghost predicate IsFresh(ram: Ram, c: nat) {
    forall v: nat {:trigger Look(ram, c, v)} :: Look(ram, c, v) == FreshMapping(v)
  }

  lemma CreatedIsFresh(m: Machine)
    requires Inv(m) && BootLoaded(m.ram) && CreateSpace(m).1 != 0
    ensures IsFresh(CreateSpace(m).0.ram, CreateSpace(m).1)
  {
    TakeFiveFacts(m.pages);
    var (pages, f1, f2, f3, f4, f5) := TakeFive(m.pages);
    AddRolesFacts(m.roles, f1, f2, f3, f4, f5);
    NewSpace(m.ram, AddRoles(m.roles, f1, f2, f3, f4, f5), f1, f2, f3, f4, f5);
    BootLeavesAreKernelOnly(m.ram);
  }

  /** A new address space translates the first 4 MiB as the loader's tables do, and nothing else. */
  lemma NewSpaceIsBootSpace(m: Machine, v: nat)
    requires Inv(m) && BootLoaded(m.ram) && CreateSpace(m).1 != 0 && v < 0x10_0000_0000
    ensures var (m', c) := CreateSpace(m);
            Translate(m'.ram, c, v) == if v < 1024 then Translate(m.ram, 1, v) else Unmapped
  {
    var (m', c) := CreateSpace(m);
    CreateKeepsInv(m);
    CreatedIsFresh(m);
    hide CreateSpace, Inv;
    WalkInSpace(m', c, v);
    BootIdentityMap(m.ram, v);
  }

  lemma WalkInSpace(m: Machine, c: nat, v: nat)
    requires Inv(m) && IsSpace(m.roles, c) && v < 0x10_0000_0000
    ensures Translate(m.ram, c, v) == Look(m.ram, c, v)
  {
    SpaceFrames(m, c);
    WalkIsLook(m.ram, m.roles, c, v);
  }

  lemma SettledSpaces(m: Machine, m': Machine)
    requires Inv(m) && SettledKept(m, m'.ram)
    ensures forall c: nat :: IsSpace(m.roles, c) ==> SameSpace(m.ram, m'.ram, c)
  {
    forall c: nat | IsSpace(m.roles, c)
      ensures SameSpace(m.ram, m'.ram, c)
    {
      SpaceFrames(m, c);
      assert forall f :: f in m.roles ==> Settled(m, f);
      UntouchedLook(m.ram, m'.ram, m.roles, c);
      UntouchedTables(m.ram, m'.ram, m.roles, c);
    }
  }

  lemma OnlyOneNewSpace(m: Machine, d: nat)
    requires Inv(m)
    requires IsSpace(CreateSpace(m).0.roles, d) && !IsSpace(m.roles, d)
    ensures d == CreateSpace(m).1 != 0
  {
    TakeFiveFacts(m.pages);
    RolesSettled(m);
    var (pages, f1, f2, f3, f4, f5) := TakeFive(m.pages);
    if f1 != 0 && f2 != 0 && f3 != 0 && f4 != 0 && f5 != 0 {
      AddRolesFacts(m.roles, f1, f2, f3, f4, f5);
      hide AddRoles, BuildTables, TakeFive, Inv, Valid;
    }
  }

  lemma CreatedPage(m: Machine, grants: map<(nat, nat), nat>, d: nat, v: nat)
    requires Inv(m) && BootLoaded(m.ram) && GrantsOk(m, grants)
    requires SettledKept(m, CreateSpace(m).0.ram)
    requires IsSpace(CreateSpace(m).0.roles, d)
    ensures PageOk(CreateSpace(m).0.ram, grants, d, v)
  {
    if IsSpace(m.roles, d) {
      SettledSpaces(m, CreateSpace(m).0);
      assert PageOk(m.ram, grants, d, v);
    } else {
      OnlyOneNewSpace(m, d);
      CreatedIsFresh(m);
      assert (d, v).0 == d;
    }
  }

  lemma CreatedGrants(m: Machine, grants: map<(nat, nat), nat>)
    requires Inv(m) && BootLoaded(m.ram) && GrantsOk(m, grants)
    ensures GrantsOk(CreateSpace(m).0, grants)
  {
    var m' := CreateSpace(m).0;
    CreateKeepsInv(m);
    forall d: nat, v: nat | IsSpace(m'.roles, d)
      ensures PageOk(m'.ram, grants, d, v)
    {
      CreatedPage(m, grants, d, v);
    }
    forall k | k in grants
      ensures IsSpace(m'.roles, k.0) && DataFrame(m', grants[k])
    {
      CreatedRoles(m, grants[k]);
    }
  }

  lemma CreatedRoles(m: Machine, f: nat)
    requires Inv(m) && f in m.pages.reserved && f !in m.roles
    ensures f !in CreateSpace(m).0.roles
  {
    TakeFiveFacts(m.pages);
  }

  lemma CreateProcessFacts(s: System)
    requires SystemOk(s)
    ensures var (s', ok) := CreateProcess(s);
            && SystemOk(s')
            && SpacesKept(s, s')
            && s'.grants == s.grants
            && s.processes <= s'.processes
  {
    hide Inv, GrantsOk, BootLoaded, CreateSpace;
    if |s.processes| < CAPACITY {
      CreateKeepsInv(s.m);
      SettledSpaces(s.m, CreateSpace(s.m).0);
      CreatedGrants(s.m, s.grants);
      LowMemoryKept(s.m, CreateSpace(s.m).0);
    }
  }

  /** The address space of a process just created belongs to it alone: the loader's pages below
      4 MiB, nothing above. */
  lemma CreatedProcess(s: System)
    requires SystemOk(s) && CreateProcess(s).1
    ensures var s' := CreateProcess(s).0;
            && |s'.processes| == |s.processes| + 1 <= 4
            && s'.processes[..|s.processes|] == s.processes && s'.processes[|s.processes|].pid == |s.processes| + 1
            && var c := s'.processes[|s.processes|].cr3;
               c != 0 && !IsSpace(s.m.roles, c) && IsSpace(s'.m.roles, c) && IsFresh(s'.m.ram, c)
  {
    CreateKeepsInv(s.m);
    CreatedIsFresh(s.m);
  }

  // ---------------------------------------------------------------- opening a page to user mode

  /** A data frame that no address space maps for user mode yet. */
  ghost predicate Unshared(s: System, f: nat) {
    DataFrame(s.m, f) && forall k :: k in s.grants ==> s.grants[k] != f
  }

  predicate Live(s: System, c: nat) { c == 0 || IsSpace(s.m.roles, c) }

  predicate UserPage(va: nat) { va % PAGE_SIZE == 0 && va < MAP_LIMIT }

  lemma OtherLook(m: Machine, m': Machine, c: nat, d: nat)
    requires Inv(m) && IsSpace(m.roles, d) && d != c && OnlyTouches(m, m', c)
    ensures SameSpace(m.ram, m'.ram, d)
  {
    SpaceFrames(m, d);
    UntouchedLook(m.ram, m'.ram, m.roles, d);
    UntouchedTables(m.ram, m'.ram, m.roles, d);
  }

  lemma GrantedPage(ram: Ram, ram': Ram, grants: map<(nat, nat), nat>, c: nat, v: nat, mapping: Mapping, d: nat, u: nat)
    requires mapping.Mapped? && mapping.user && !(mapping.writable && mapping.executable)
    requires if d == c then Remaps(ram, ram', c, v, mapping) else SameLook(ram, ram', d)
    requires PageOk(ram, grants, d, u)
    ensures PageOk(ram', grants[(c, v) := mapping.frame], d, u)
  {
  }

  lemma PrivateAdd(grants: map<(nat, nat), nat>, k: (nat, nat), frame: nat)
    requires Private(grants) && forall l :: l in grants ==> grants[l] != frame
    ensures Private(grants[k := frame])
  {
  }

  lemma DataFrameKept(m: Machine, m': Machine, c: nat, f: nat)
    requires DataFrame(m, f) && MapEffect(m, m', c)
    ensures DataFrame(m', f)
  {
  }

  lemma GrantPages(m: Machine, m': Machine, grants: map<(nat, nat), nat>, c: nat, v: nat, mapping: Mapping)
    requires Inv(m) && AllPagesOk(m, grants) && MapEffect(m, m', c)
    requires mapping.Mapped? && mapping.user && !(mapping.writable && mapping.executable)
    requires Remaps(m.ram, m'.ram, c, v, mapping)
    ensures AllPagesOk(m', grants[(c, v) := mapping.frame])
  {
    var grants' := grants[(c, v) := mapping.frame];
    forall d: nat, u: nat | IsSpace(m'.roles, d)
      ensures PageOk(m'.ram, grants', d, u)
    {
      assert IsSpace(m.roles, d);
      if d != c {
        OtherLook(m, m', c, d);
      }
      GrantedPage(m.ram, m'.ram, grants, c, v, mapping, d, u);
    }
  }

  lemma GrantFrames(m: Machine, m': Machine, grants: map<(nat, nat), nat>, c: nat, v: nat, frame: nat)
    requires GrantFramesOk(m, grants) && MapEffect(m, m', c) && IsSpace(m.roles, c) && DataFrame(m, frame)
    ensures GrantFramesOk(m', grants[(c, v) := frame])
  {
    var grants' := grants[(c, v) := frame];
    hide Inv, DataFrame;
    forall k | k in grants'
      ensures IsSpace(m'.roles, k.0) && DataFrame(m', grants'[k])
    {
      DataFrameKept(m, m', c, grants'[k]);
    }
  }

  /** What an operation on behalf of space c leaves alone. */
  ghost predicate OthersKept(s: System, s': System, c: nat) {
    && s'.processes == s.processes
    && Extends(s.m.roles, s'.m.roles)
    && forall d: nat :: IsSpace(s.m.roles, d) && d != c ==> SameSpace(s.m.ram, s'.m.ram, d)
  }

  /** One page of space c opened to user mode, or nothing done when the map was denied. */
  ghost predicate Granted(s: System, s': System, ok: bool, c: nat, v: nat, mapping: Mapping) {
    && OthersKept(s, s', c)
    && (!ok ==> s' == s)
    && mapping.Mapped?
    && (ok ==> IsSpace(s.m.roles, c) && Remaps(s.m.ram, s'.m.ram, c, v, mapping))
    && (ok ==> s'.grants == s.grants[(c, v) := mapping.frame])
    && (forall f: nat :: DataFrame(s.m, f) ==> DataFrame(s'.m, f))
  }

  lemma OtherLooks(m: Machine, m': Machine, c: nat)
    requires Inv(m) && OnlyTouches(m, m', c)
    ensures forall d: nat :: IsSpace(m.roles, d) && d != c ==> SameSpace(m.ram, m'.ram, d)
  {
    forall d: nat | IsSpace(m.roles, d) && d != c
      ensures SameSpace(m.ram, m'.ram, d)
    {
      OtherLook(m, m', c, d);
    }
  }

  lemma DataFramesKept(m: Machine, m': Machine, c: nat)
    requires MapEffect(m, m', c)
    ensures forall f: nat :: DataFrame(m, f) ==> DataFrame(m', f)
  {
  }

  lemma GrantedSystem(s: System, m': Machine, c: nat, v: nat, mapping: Mapping)
    requires SystemOk(s) && IsSpace(s.m.roles, c) && MapEffect(s.m, m', c)
    requires mapping.Mapped? && mapping.user && !(mapping.writable && mapping.executable)
    requires Remaps(s.m.ram, m'.ram, c, v, mapping)
    requires Unshared(s, mapping.frame)
    ensures SystemOk(s.(m := m', grants := s.grants[(c, v) := mapping.frame]))
  {
    RolesSettled(s.m);
    assert BootLoaded(m'.ram) by { LowMemoryKept(s.m, m'); }
    hide Inv, BootLoaded, Private, GrantFramesOk, AllPagesOk, Remaps, Entry, MapEffect;
    PrivateAdd(s.grants, (c, v), mapping.frame);
    GrantFrames(s.m, m', s.grants, c, v, mapping.frame);
    GrantPages(s.m, m', s.grants, c, v, mapping);
  }

  lemma MapUserFacts(s: System, c: nat, va: nat, frame: nat, writable: bool, executable: bool)
    requires SystemOk(s) && Live(s, c) && Unshared(s, frame) && UserPage(va)
    requires !(writable && executable)
    ensures var (s', ok) := MapUser(s, c, va, frame, writable, executable);
            Granted(s, s', ok, c, va / PAGE_SIZE, Mapped(frame, true, writable, executable))
  {
    MapPageFacts(s.m, c, va, Address(frame), true, writable, executable);
    var (m', result) := MapPage(s.m, c, va, Address(frame), true, writable, executable);
    if result == MapOk {
      OtherLooks(s.m, m', c);
      DataFramesKept(s.m, m', c);
    }
  }

  lemma MapUserKeepsOk(s: System, c: nat, va: nat, frame: nat, writable: bool, executable: bool)
    requires SystemOk(s) && Live(s, c) && Unshared(s, frame) && UserPage(va)
    requires !(writable && executable)
    ensures SystemOk(MapUser(s, c, va, frame, writable, executable).0)
  {
    MapPageFacts(s.m, c, va, Address(frame), true, writable, executable);
    var (m', result) := MapPage(s.m, c, va, Address(frame), true, writable, executable);
    if result == MapOk {
      GrantedSystem(s, m', c, va / PAGE_SIZE, Mapped(frame, true, writable, executable));
    }
  }

  /** Taking a page and filling it: no space sees it, and it is nobody's yet. */
  lemma TakePageFacts(s: System)
    requires SystemOk(s)
    ensures var (s', frame) := TakePage(s);
            && SystemOk(s')
            && s'.processes == s.processes && s'.m.ram == s.m.ram && s'.m.roles == s.m.roles && s'.grants == s.grants
            && s.m.pages.reserved <= s'.m.pages.reserved
            && (frame != 0 ==> Unshared(s', frame) && frame !in s.m.pages.reserved)
            && (frame == 0 ==> s' == s)
  {
    TakeFacts(s.m.pages);
  }

  lemma OtherTables(m: Machine, m': Machine, frame: nat)
    requires Inv(m) && frame !in m.roles
    requires forall g: nat, j: nat {:trigger Entry(m'.ram, g, j)} ::
               g != frame ==> Entry(m'.ram, g, j) == Entry(m.ram, g, j)
    ensures forall c: nat :: IsSpace(m.roles, c) ==> SameTables(m.ram, m'.ram, c)
  {
    forall c: nat | IsSpace(m.roles, c)
      ensures SameTables(m.ram, m'.ram, c)
    {
      SpaceFrames(m, c);
      UntouchedTables(m.ram, m'.ram, m.roles, c);
    }
  }

  lemma FillFacts(s: System, frame: nat, contents: Table)
    requires SystemOk(s) && Unshared(s, frame)
    ensures var s' := FillFrame(s, frame, contents);
            && SystemOk(s')
            && SpacesKept(s, s')
  {
    var m' := FillFrame(s, frame, contents).m;
    DataWrite(s.m, m'.ram, frame);
    LowMemoryKept(s.m, m');
    OtherTables(s.m, m', frame);
    forall c: nat, v: nat | IsSpace(m'.roles, c)
      ensures PageOk(m'.ram, s.grants, c, v)
    {
      assert PageOk(s.m.ram, s.grants, c, v);
    }
  }

  // ---------------------------------------------------------------- loading and probing

  const CODE_PAGE := USER_CODE_VA / PAGE_SIZE
  const STACK_PAGE := (USER_STACK_TOP - PAGE_SIZE) / PAGE_SIZE
  const PROBE_PAGE := USER_PEER_PROBE_VA / PAGE_SIZE

  /** The pages load_executable and map_private_probe_page open, over what was mapped before. */
  function LoadedMapping(before: Mapping, v: nat, code: nat, stack: nat): Mapping {
    if v == CODE_PAGE then Mapped(code, true, false, true)
    else if v == STACK_PAGE then Mapped(stack, true, true, false)
    else before
  }

  function ProbedMapping(before: Mapping, v: nat, page: nat): Mapping {
    if v == PROBE_PAGE then Mapped(page, true, true, false) else before
  }

  ghost predicate Loaded(s: System, s': System, c: nat) {
    && IsSpace(s.m.roles, c)
    && (c, CODE_PAGE) in s'.grants && (c, STACK_PAGE) in s'.grants
    && forall v: nat {:trigger Look(s'.m.ram, c, v)} ::
         Look(s'.m.ram, c, v) ==
         LoadedMapping(Look(s.m.ram, c, v), v, s'.grants[(c, CODE_PAGE)], s'.grants[(c, STACK_PAGE)])
  }

  ghost predicate Probed(s: System, s': System, c: nat) {
    && IsSpace(s.m.roles, c)
    && (c, PROBE_PAGE) in s'.grants
    && forall v: nat {:trigger Look(s'.m.ram, c, v)} ::
         Look(s'.m.ram, c, v) == ProbedMapping(Look(s.m.ram, c, v), v, s'.grants[(c, PROBE_PAGE)])
  }

  lemma OthersKeptTransitive(s: System, s1: System, s2: System, c: nat)
    requires OthersKept(s, s1, c) && OthersKept(s1, s2, c)
    ensures OthersKept(s, s2, c)
  {
    forall d: nat | IsSpace(s.m.roles, d) && d != c
      ensures SameSpace(s.m.ram, s2.m.ram, d)
    {
      assert IsSpace(s1.m.roles, d) && SameSpace(s.m.ram, s1.m.ram, d) && SameSpace(s1.m.ram, s2.m.ram, d);
    }
  }

  lemma TwoGrants(s: System, s1: System, s2: System, ok2: bool, c: nat, code: nat, stack: nat)
    requires Granted(s, s1, true, c, CODE_PAGE, Mapped(code, true, false, true))
    requires Granted(s1, s2, ok2, c, STACK_PAGE, Mapped(stack, true, true, false))
    ensures OthersKept(s, s2, c)
    ensures ok2 ==> Loaded(s, s2, c)
  {
    OthersKeptTransitive(s, s1, s2, c);
  }

  lemma FilledPage(s: System, frame: nat, contents: Table, c: nat)
    requires SystemOk(s) && Unshared(s, frame) && Live(s, c)
    ensures var s' := FillFrame(s, frame, contents);
            && OthersKept(s, s', c) && s'.m.roles == s.m.roles && s'.grants == s.grants
            && s'.m.pages == s.m.pages && Live(s', c)
            && (IsSpace(s.m.roles, c) ==> SameSpace(s.m.ram, s'.m.ram, c))
  {
    FillFacts(s, frame, contents);
  }

  lemma MapImageFacts(s: System, c: nat, code: nat, stack: nat, image: Table)
    requires SystemOk(s) && Live(s, c) && Unshared(s, code) && Unshared(s, stack) && code != stack
    ensures var (s', ok) := MapImage(s, c, code, stack, image);
            OthersKept(s, s', c) && (ok ==> Loaded(s, s', c))
  {
    hide SystemOk, MapUser, Inv;
    var s0 := FillFrame(s, code, image);
    FillFacts(s, code, image);
    FilledPage(s, code, image, c);
    var (s1, ok1) := MapUser(s0, c, USER_CODE_VA, code, false, true);
    MapUserFacts(s0, c, USER_CODE_VA, code, false, true);
    MapUserKeepsOk(s0, c, USER_CODE_VA, code, false, true);
    OthersKeptTransitive(s, s0, s1, c);
    if ok1 {
      MapStack(s, s0, s1, c, code, stack);
    }
  }

  lemma MapStack(s: System, s0: System, s1: System, c: nat, code: nat, stack: nat)
    requires SystemOk(s1) && Live(s0, c) && Unshared(s0, stack) && code != stack
    requires OthersKept(s, s0, c) && s0.m.roles == s.m.roles
    requires (IsSpace(s.m.roles, c) ==> SameLook(s.m.ram, s0.m.ram, c))
    requires Granted(s0, s1, true, c, CODE_PAGE, Mapped(code, true, false, true))
    ensures var (s2, ok2) := MapUser(s1, c, USER_STACK_TOP - PAGE_SIZE, stack, true, false);
            OthersKept(s, s2, c) && (ok2 ==> Loaded(s, s2, c))
  {
    hide SystemOk, MapUser;
    var (s2, ok2) := MapUser(s1, c, USER_STACK_TOP - PAGE_SIZE, stack, true, false);
    MapUserFacts(s1, c, USER_STACK_TOP - PAGE_SIZE, stack, true, false);
    TwoGrants(s0, s1, s2, ok2, c, code, stack);
    OthersKeptTransitive(s, s0, s2, c);
  }

  lemma MapImageKeepsOk(s: System, c: nat, code: nat, stack: nat, image: Table)
    requires SystemOk(s) && Live(s, c) && Unshared(s, code) && Unshared(s, stack) && code != stack
    ensures SystemOk(MapImage(s, c, code, stack, image).0)
  {
    hide SystemOk, MapPage;
    var s0 := FillFrame(s, code, image);
    FillFacts(s, code, image);
    FilledPage(s, code, image, c);
    var (s1, ok1) := MapUser(s0, c, USER_CODE_VA, code, false, true);
    MapUserFacts(s0, c, USER_CODE_VA, code, false, true);
    MapUserKeepsOk(s0, c, USER_CODE_VA, code, false, true);
    if ok1 {
      MapUserKeepsOk(s1, c, USER_STACK_TOP - PAGE_SIZE, stack, true, false);
    }
  }

  // ---------------------------------------------------------------- when they succeed

  const CODE_SLOT := CODE_PAGE / 512
  const STACK_SLOT := STACK_PAGE / 512
  const PROBE_SLOT := PROBE_PAGE / 512

  /** The pages that load_executable and map_private_probe_page use up. */
  function LoadNeeds(ram: Ram, c: nat): nat {
    2 + TablesNeeded(ram, c, CODE_SLOT) + TablesNeeded(ram, c, STACK_SLOT)
  }

  function ProbeNeeds(ram: Ram, c: nat): nat { 1 + TablesNeeded(ram, c, PROBE_SLOT) }

  lemma TakePageCounts(s: System)
    requires SystemOk(s)
    ensures var (s', frame) := TakePage(s);
            && (frame != 0 <==> Available(s.m.pages) > 0)
            && Available(s'.m.pages) == Left(Available(s.m.pages), 1)
  {
    TakeCounts(s.m.pages);
    hide Take;
  }

  lemma MapUserCounts(s: System, c: nat, va: nat, frame: nat, writable: bool, executable: bool)
    requires SystemOk(s) && Live(s, c) && UserPage(va) && frame < PAGE_COUNT
    ensures var (s', ok) := MapUser(s, c, va, frame, writable, executable);
            var i := va / PAGE_SIZE / 512;
            && (ok <==> c != 0 && TablesNeeded(s.m.ram, c, i) <= Available(s.m.pages))
            && (ok ==> Available(s'.m.pages) == Left(Available(s.m.pages), TablesNeeded(s.m.ram, c, i)))
            && (ok ==> OneTable(s.m.ram, s'.m.ram, c, i))
  {
    if c != 0 {
      MapCounts(s.m, c, va, Address(frame), true, writable, executable);
    }
    hide MapPage, Inv, Available, TablesNeeded, OneTable;
  }

  lemma MapImageCounts(s: System, c: nat, code: nat, stack: nat, image: Table)
    requires SystemOk(s) && Live(s, c) && Unshared(s, code) && Unshared(s, stack) && code != stack
    ensures var (s', ok) := MapImage(s, c, code, stack, image);
            && (ok <==> c != 0 && LoadNeeds(s.m.ram, c) <= Available(s.m.pages) + 2)
            && (ok ==> Available(s'.m.pages) + LoadNeeds(s.m.ram, c) == Available(s.m.pages) + 2)
  {
    hide SystemOk, MapUser, Inv, Available, HasTable;
    var s0 := FillFrame(s, code, image);
    FillFacts(s, code, image);
    FilledPage(s, code, image, c);
    var (s1, ok1) := MapUser(s0, c, USER_CODE_VA, code, false, true);
    MapUserFacts(s0, c, USER_CODE_VA, code, false, true);
    MapUserKeepsOk(s0, c, USER_CODE_VA, code, false, true);
    MapUserCounts(s0, c, USER_CODE_VA, code, false, true);
    if ok1 {
      MapUserCounts(s1, c, USER_STACK_TOP - PAGE_SIZE, stack, true, false);
    }
  }

  /** Loading succeeds exactly when it is allowed, the program is found, the process has an address space, and
      there are pages for code, stack and the tables that are missing; it uses up just those. */
  lemma LoadCounts(s: System, k: nat, allowed: bool, found: bool, image: Table)
    requires SystemOk(s) && k < |s.processes|
    ensures var (s', ok) := LoadExecutable(s, k, allowed, found, image);
            var c := s.processes[k].cr3;
            && (ok <==> allowed && found && c != 0 && LoadNeeds(s.m.ram, c) <= Available(s.m.pages))
            && (ok ==> Available(s'.m.pages) + LoadNeeds(s.m.ram, c) == Available(s.m.pages))
  {
    if allowed && found {
      var (s1, code) := TakePage(s);
      TakePageFacts(s);
      TakePageCounts(s);
      var (s2, stack) := TakePage(s1);
      TakePageFacts(s1);
      TakePageCounts(s1);
      if code != 0 && stack != 0 {
        assert Unshared(s2, code);
        hide SystemOk, TakePage, MapImage, Available, TablesNeeded, Unshared;
        MapImageCounts(s2, s.processes[k].cr3, code, stack, image);
      }
    }
  }

  lemma ProbeCounts(s: System, k: nat, contents: Table)
    requires SystemOk(s) && k < |s.processes|
    ensures var ok := MapPrivateProbe(s, k, contents).1;
            var c := s.processes[k].cr3;
            ok <==> c != 0 && ProbeNeeds(s.m.ram, c) <= Available(s.m.pages)
  {
    hide SystemOk, MapUser, Inv, Available, HasTable;
    var c := s.processes[k].cr3;
    var (s1, page) := TakePage(s);
    TakePageFacts(s);
    TakePageCounts(s);
    assert Live(s1, c) by { LiveProcess(s, k); }
    if page != 0 {
      FillFacts(s1, page, contents);
      FilledPage(s1, page, contents, c);
      MapUserCounts(FillFrame(s1, page, contents), c, USER_PEER_PROBE_VA, page, true, false);
    }
  }

  lemma LiveProcess(s: System, k: nat)
    requires SystemOk(s) && k < |s.processes|
    ensures Live(s, s.processes[k].cr3)
  {
  }

  /** The two pages of a load: distinct, and nobody's yet. */
  lemma TwoPages(s: System)
    requires SystemOk(s)
    ensures var (s1, code) := TakePage(s);
            var (s2, stack) := TakePage(s1);
            && SystemOk(s2) && s2.processes == s.processes && s2.m.ram == s.m.ram && s2.m.roles == s.m.roles
            && (code != 0 && stack != 0 ==> Unshared(s2, code) && Unshared(s2, stack) && code != stack)
  {
    hide SystemOk, TakePage;
    var (s1, code) := TakePage(s);
    TakePageFacts(s);
    TakePageFacts(s1);
  }

  lemma SameStartLoaded(s: System, s1: System, s2: System, c: nat)
    requires s1.m.ram == s.m.ram && s1.m.roles == s.m.roles && Loaded(s1, s2, c)
    ensures Loaded(s, s2, c)
  {
  }

  lemma LoadEffect(s: System, k: nat, image: Table)
    requires SystemOk(s) && k < |s.processes|
    ensures var (s', ok) := LoadExecutable(s, k, true, true, image);
            && SystemOk(s')
            && OthersKept(s, s', s.processes[k].cr3)
            && (ok ==> Loaded(s, s', s.processes[k].cr3))
  {
    hide SystemOk, TakePage, MapImage, OthersKept, Loaded, Unshared;
    var c := s.processes[k].cr3;
    var (s1, code) := TakePage(s);
    var (s2, stack) := TakePage(s1);
    TwoPages(s);
    LiveProcess(s2, k);
    NothingTouched(s2, c);
    SameStartKept(s, s2, s2, c);
    if code != 0 && stack != 0 {
      var s3 := MapImage(s2, c, code, stack, image).0;
      MapImageFacts(s2, c, code, stack, image);
      MapImageKeepsOk(s2, c, code, stack, image);
      SameStartKept(s, s2, s3, c);
      if MapImage(s2, c, code, stack, image).1 {
        SameStartLoaded(s, s2, s3, c);
      }
    }
  }

  lemma LoadFacts(s: System, k: nat, allowed: bool, found: bool, image: Table)
    requires SystemOk(s) && k < |s.processes|
    ensures var (s', ok) := LoadExecutable(s, k, allowed, found, image);
            && SystemOk(s')
            && OthersKept(s, s', s.processes[k].cr3)
            && (ok <==> allowed && found && s.processes[k].cr3 != 0
                        && LoadNeeds(s.m.ram, s.processes[k].cr3) <= Available(s.m.pages))
            && (ok ==> Loaded(s, s', s.processes[k].cr3))
  {
    LoadCounts(s, k, allowed, found, image);
    LoadEffect(s, k, image);
    NothingTouched(s, s.processes[k].cr3);
    hide Available, LoadNeeds, SystemOk, TakePage, MapImage, OthersKept, Loaded;
  }

  lemma ProbeEffect(s: System, k: nat, contents: Table)
    requires SystemOk(s) && k < |s.processes|
    ensures var (s', ok) := MapPrivateProbe(s, k, contents);
            && SystemOk(s')
            && OthersKept(s, s', s.processes[k].cr3)
            && (ok ==> Probed(s, s', s.processes[k].cr3))
  {
    hide SystemOk, MapUser, Inv, SameTables;
    var c := s.processes[k].cr3;
    var (s1, page) := TakePage(s);
    TakePageFacts(s);
    assert Live(s1, c) by { LiveProcess(s, k); }
    if page != 0 {
      var s2 := FillFrame(s1, page, contents);
      FillFacts(s1, page, contents);
      FilledPage(s1, page, contents, c);
      MapUserFacts(s2, c, USER_PEER_PROBE_VA, page, true, false);
      MapUserKeepsOk(s2, c, USER_PEER_PROBE_VA, page, true, false);
      var s3 := MapUser(s2, c, USER_PEER_PROBE_VA, page, true, false).0;
      OthersKeptTransitive(s1, s2, s3, c);
      SameStartKept(s, s1, s3, c);
    } else {
      NothingTouched(s, c);
    }
  }

  lemma SameStartKept(s: System, s1: System, s2: System, c: nat)
    requires s1.processes == s.processes && s1.m.ram == s.m.ram && s1.m.roles == s.m.roles && OthersKept(s1, s2, c)
    ensures OthersKept(s, s2, c)
  {
    hide SameSpace;
  }

  lemma NothingTouched(s: System, c: nat)
    ensures OthersKept(s, s, c)
  {
  }

  lemma ProbeFacts(s: System, k: nat, contents: Table)
    requires SystemOk(s) && k < |s.processes|
    ensures var (s', ok) := MapPrivateProbe(s, k, contents);
            && SystemOk(s')
            && OthersKept(s, s', s.processes[k].cr3)
            && (ok <==> s.processes[k].cr3 != 0 && ProbeNeeds(s.m.ram, s.processes[k].cr3) <= Available(s.m.pages))
            && (ok ==> Probed(s, s', s.processes[k].cr3))
  {
    ProbeCounts(s, k, contents);
    ProbeEffect(s, k, contents);
    hide Available, ProbeNeeds, SystemOk, MapPrivateProbe, OthersKept, Probed;
  }
}
