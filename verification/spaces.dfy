/** Process address spaces: four-level page tables built out of allocated frames. */
module AddressSpaces {
  import opened Paging
  import opened Allocation

  const MAP_LIMIT := 0x4000_0000      // memory_map_process_page maps below 1 GiB only

  /** What a table frame is for.  An address space is named by the frame its CR3 points at;
      `Pt(c, i)` is the table under entry i of the page directory of c. */
  datatype Role = Pml4(space: nat) | Pdpt(space: nat) | Pd(space: nat) | Pt(space: nat, index: nat)

  type Roles = map<nat, Role>

  /** Memory as memory.c sees it.  `roles` is bookkeeping for the proofs: the frames that
      memory_create_address_space and memory_map_process_page have made into tables. */
  datatype Machine = Machine(pages: Allocator, ram: Ram, roles: Roles)

  predicate IsSpace(roles: Roles, c: nat) { c in roles && roles[c] == Pml4(c) }

  // ---------------------------------------------------------------- shape of one space

  predicate HasRole(roles: Roles, f: nat, role: Role) { f in roles && roles[f] == role }

  /** A directory entry takes no right away from the leaves below it, except perhaps user access. */
  predicate Directory(w: Word) {
    Present(w) && Writable(w) && !Large(w) && !NoExecute(w)
  }

  function PdptOf(ram: Ram, c: nat): nat { Entry(ram, c, 0).frame }

  function PdOf(ram: Ram, c: nat): nat { Entry(ram, PdptOf(ram, c), 0).frame }

  function PtOf(ram: Ram, c: nat, i: nat): nat { Entry(ram, PdOf(ram, c), i).frame }

  ghost predicate OnlyFirst(ram: Ram, f: nat) {
    forall i: nat :: i != 0 ==> !Present(Entry(ram, f, i))
  }

  ghost predicate RootOk(ram: Ram, roles: Roles, c: nat) {
    && IsSpace(roles, c)
    && Directory(Entry(ram, c, 0)) && User(Entry(ram, c, 0))
    && HasRole(roles, PdptOf(ram, c), Pdpt(c))
    && OnlyFirst(ram, c)
    && Directory(Entry(ram, PdptOf(ram, c), 0)) && User(Entry(ram, PdptOf(ram, c), 0))
    && HasRole(roles, PdOf(ram, c), Pd(c))
    && OnlyFirst(ram, PdptOf(ram, c))
  }

  /** A leaf with the user bit sits under a directory entry with it. */
  ghost predicate UserUnder(ram: Ram, w: Word, pt: nat) {
    forall j: nat :: Present(Entry(ram, pt, j)) && User(Entry(ram, pt, j)) ==> User(w)
  }

  ghost predicate SlotOk(ram: Ram, roles: Roles, c: nat, i: nat) {
    var w := Entry(ram, PdOf(ram, c), i);
    Present(w) ==> Directory(w) && HasRole(roles, w.frame, Pt(c, i)) && UserUnder(ram, w, w.frame)
  }

  ghost predicate SpaceOk(ram: Ram, roles: Roles, c: nat) {
    RootOk(ram, roles, c) && forall i: nat :: SlotOk(ram, roles, c, i)
  }

  /** What page v of a well-formed space maps to, read off its leaf alone. */
  function Look(ram: Ram, c: nat, v: nat): Mapping {
    if v >= 0x4_0000 || !Present(Entry(ram, PdOf(ram, c), v / 512)) then Unmapped
    else
      var leaf := Entry(ram, PtOf(ram, c, v / 512), v % 512);
      if !Present(leaf) then Unmapped
      else Mapped(leaf.frame, User(leaf), Writable(leaf), !NoExecute(leaf))
  }

  predicate Owned(roles: Roles, c: nat, f: nat) { f in roles && roles[f].space == c }

  /** In a well-formed space the walk reads frames of that space only, and its outcome is the
      leaf's: the directory entries above never take away a right the leaf grants. */
  lemma WalkIsLook(ram: Ram, roles: Roles, c: nat, v: nat)
    requires SpaceOk(ram, roles, c)
    requires v < 0x10_0000_0000
    ensures Translate(ram, c, v) == Look(ram, c, v)
    ensures forall f :: f in Visited(ram, c, v, 4) ==> Owned(roles, c, f)
  {
    var i4 := IndexAt(v, 4);
    if Present(Entry(ram, c, i4)) {
      assert i4 == 0;
      UnderPointers(ram, roles, c, v);
    }
  }

  lemma UnderPointers(ram: Ram, roles: Roles, c: nat, v: nat)
    requires SpaceOk(ram, roles, c)
    requires v < 0x800_0000
    ensures WalkFrom(ram, PdptOf(ram, c), v, 3, Mapped(PdptOf(ram, c), true, true, true)) == Look(ram, c, v)
    ensures forall f :: f in Visited(ram, PdptOf(ram, c), v, 3) ==> Owned(roles, c, f)
  {
    var i3 := IndexAt(v, 3);
    if Present(Entry(ram, PdptOf(ram, c), i3)) {
      assert i3 == 0 && v < 0x4_0000;
      assert SlotOk(ram, roles, c, v / 512);
      UnderDirectory(ram, roles, c, v);
    }
  }

  lemma UnderDirectory(ram: Ram, roles: Roles, c: nat, v: nat)
    requires RootOk(ram, roles, c) && v < 0x4_0000 && SlotOk(ram, roles, c, v / 512)
    ensures var m := Mapped(PdOf(ram, c), true, true, true);
            WalkFrom(ram, PdOf(ram, c), v, 2, m) == Look(ram, c, v)
    ensures forall f :: f in Visited(ram, PdOf(ram, c), v, 2) ==> Owned(roles, c, f)
  {
    var w := Entry(ram, PdOf(ram, c), v / 512);
    if Present(w) {
      var leaf := Entry(ram, w.frame, v % 512);
      assert Present(leaf) && User(leaf) ==> User(w);
    }
  }

  // ---------------------------------------------------------------- framing

  predicate Extends(roles: Roles, roles': Roles) {
    forall f :: f in roles ==> f in roles' && roles'[f] == roles[f]
  }

  ghost predicate SameOwned(ram: Ram, ram': Ram, roles: Roles, c: nat) {
    forall f: nat, i: nat {:trigger Entry(ram', f, i)} :: Owned(roles, c, f) ==> Entry(ram', f, i) == Entry(ram, f, i)
  }

  ghost predicate SameLook(ram: Ram, ram': Ram, c: nat) {
    forall v: nat {:trigger Look(ram', c, v)} :: Look(ram', c, v) == Look(ram, c, v)
  }

  lemma UntouchedLook(ram: Ram, ram': Ram, roles: Roles, c: nat)
    requires SpaceOk(ram, roles, c)
    requires SameOwned(ram, ram', roles, c)
    ensures SameLook(ram, ram', c)
  {
    assert Owned(roles, c, c) && Owned(roles, c, PdptOf(ram, c)) && Owned(roles, c, PdOf(ram, c));
    forall v: nat
      ensures Look(ram', c, v) == Look(ram, c, v)
    {
      assert SlotOk(ram, roles, c, v / 512);
    }
  }

  /** A space whose frames keep their words stays well formed and translates as before. */
  lemma UntouchedSpace(ram: Ram, ram': Ram, roles: Roles, roles': Roles, c: nat)
    requires SpaceOk(ram, roles, c)
    requires Extends(roles, roles') && SameOwned(ram, ram', roles, c)
    ensures SpaceOk(ram', roles', c)
    ensures forall v: nat :: v < 0x10_0000_0000 ==> Translate(ram', c, v) == Translate(ram, c, v)
    ensures SameLook(ram, ram', c)
  {
    UntouchedLook(ram, ram', roles, c);
    assert Owned(roles, c, c) && Owned(roles, c, PdptOf(ram, c)) && Owned(roles, c, PdOf(ram, c));
    forall i: nat
      ensures SlotOk(ram', roles', c, i)
    {
      assert SlotOk(ram, roles, c, i);
    }
    forall v: nat | v < 0x10_0000_0000
      ensures Translate(ram', c, v) == Translate(ram, c, v)
    {
      WalkIsLook(ram, roles, c, v);
      WalkFrame(ram, ram', c, v, 4, Mapped(0, true, true, true));
    }
  }

  // ---------------------------------------------------------------- invariant

  ghost predicate NoUserLeaf(ram: Ram, f: nat) {
    forall j: nat :: Present(Entry(ram, f, j)) ==> !User(Entry(ram, f, j))
  }

  ghost predicate AllSpacesOk(ram: Ram, roles: Roles) {
    forall f :: f in roles ==> SpaceOk(ram, roles, roles[f].space)
  }

  /** Changing the frames of space c only leaves every other space well formed. */
  lemma OthersUntouched(ram: Ram, ram': Ram, roles: Roles, roles': Roles, c: nat)
    requires AllSpacesOk(ram, roles)
    requires Extends(roles, roles')
    requires forall f :: f in roles' && f !in roles ==> roles'[f].space == c
    requires forall f: nat, i: nat {:trigger Entry(ram', f, i)} ::
               f in roles && roles[f].space != c ==> Entry(ram', f, i) == Entry(ram, f, i)
    requires SpaceOk(ram', roles', c)
    ensures AllSpacesOk(ram', roles')
  {
    forall f | f in roles'
      ensures SpaceOk(ram', roles', roles'[f].space)
    {
      if f in roles && roles[f].space != c {
        UntouchedSpace(ram, ram', roles, roles', roles[f].space);
      }
    }
  }

  /** Every table frame is allocated, lies above 1 MiB and has one role in one well-formed space;
      the two bootstrap page tables that new spaces copy grant nothing to user mode. */
  ghost predicate Inv(m: Machine) {
    && Valid(m.pages)
    && (forall f :: f in m.roles ==> FIRST_FRAME <= f < PAGE_COUNT && f in m.pages.reserved)
    && AllSpacesOk(m.ram, m.roles)
    && NoUserLeaf(m.ram, BOOT_PT0) && NoUserLeaf(m.ram, BOOT_PT1)
  }

  /** page_alloc, as a frame number; 0 when no page is left. */
  function Take(a: Allocator): (r: (Allocator, nat))
    ensures r.1 < PAGE_COUNT
  {
    var (a', address, _) := Allocate(a, 1);
    (a', address / PAGE_SIZE)
  }

  lemma TakeFacts(a: Allocator)
    requires Valid(a)
    ensures var (a', f) := Take(a);
            && Valid(a')
            && (f == 0 ==> a' == a)
            && (f != 0 ==> FIRST_FRAME <= f < PAGE_COUNT && f !in a.reserved && a'.reserved == a.reserved + {f})
  {
    AllocateFacts(a, 1);
    var (a', address, verdict) := Allocate(a, 1);
    if verdict == Granted {
      RangeNext(address / PAGE_SIZE, 0);
      assert address / PAGE_SIZE in Range(address / PAGE_SIZE, 1);
    }
  }

  /** Writing data into a frame that is no table, wherever it lies, keeps every space as it is. */
  lemma DataWrite(m: Machine, ram': Ram, f: nat)
    requires Inv(m) && !IsBootTable(f) && f !in m.roles
    requires forall g: nat, j: nat {:trigger Entry(ram', g, j)} :: g != f ==> Entry(ram', g, j) == Entry(m.ram, g, j)
    ensures Inv(m.(ram := ram'))
    ensures forall c: nat :: IsSpace(m.roles, c) ==> SameLook(m.ram, ram', c)
  {
    assert NoUserLeaf(ram', BOOT_PT0) && NoUserLeaf(ram', BOOT_PT1);
    forall g | g in m.roles
      ensures SpaceOk(ram', m.roles, m.roles[g].space) && SameLook(m.ram, ram', m.roles[g].space)
    {
      UntouchedSpace(m.ram, ram', m.roles, m.roles, m.roles[g].space);
    }
  }

  // ---------------------------------------------------------------- memory_create_address_space

  function OneEntry(w: Word): Table { seq(TABLE_SIZE, i => if i == 0 then w else ZERO) }

  function TwoEntries(w0: Word, w1: Word): Table {
    seq(TABLE_SIZE, i => if i == 0 then w0 else if i == 1 then w1 else ZERO)
  }

  function BuildTables(ram: Ram, pml4: nat, pdpt: nat, pd: nat, pt0: nat, pt1: nat): Ram
    requires pml4 < PAGE_COUNT && pdpt < PAGE_COUNT && pd < PAGE_COUNT && pt0 < PAGE_COUNT && pt1 < PAGE_COUNT
  {
    ram[pt0 := ram[BOOT_PT0]][pt1 := ram[BOOT_PT1]]
      [pml4 := OneEntry(Pte(Address(pdpt), true, true, true))]
      [pdpt := OneEntry(Pte(Address(pd), true, true, true))]
      [pd := TwoEntries(Pte(Address(pt0), false, true, true), Pte(Address(pt1), false, true, true))]
  }

  function AddRoles(roles: Roles, pml4: nat, pdpt: nat, pd: nat, pt0: nat, pt1: nat): Roles {
    roles[pml4 := Pml4(pml4)][pdpt := Pdpt(pml4)][pd := Pd(pml4)][pt0 := Pt(pml4, 0)][pt1 := Pt(pml4, 1)]
  }

  lemma AddRolesFacts(roles: Roles, f1: nat, f2: nat, f3: nat, f4: nat, f5: nat)
    requires Distinct5(f1, f2, f3, f4, f5)
    requires f1 !in roles && f2 !in roles && f3 !in roles && f4 !in roles && f5 !in roles
    ensures var r := AddRoles(roles, f1, f2, f3, f4, f5);
            && Extends(roles, r)
            && HasRole(r, f1, Pml4(f1)) && HasRole(r, f2, Pdpt(f1)) && HasRole(r, f3, Pd(f1))
            && HasRole(r, f4, Pt(f1, 0)) && HasRole(r, f5, Pt(f1, 1))
            && (forall f :: f in r && f !in roles ==> f in {f1, f2, f3, f4, f5} && r[f].space == f1)
  {
  }

  /** The five allocations are all made, even after one has failed, and none is returned. */
  function TakeFive(a: Allocator): (Allocator, nat, nat, nat, nat, nat) {
    var (a1, pml4) := Take(a);
    var (a2, pdpt) := Take(a1);
    var (a3, pd) := Take(a2);
    var (a4, pt0) := Take(a3);
    var (a5, pt1) := Take(a4);
    (a5, pml4, pdpt, pd, pt0, pt1)
  }

  function CreateSpace(m: Machine): (Machine, nat) {
    var (pages, pml4, pdpt, pd, pt0, pt1) := TakeFive(m.pages);
    if pml4 == 0 || pdpt == 0 || pd == 0 || pt0 == 0 || pt1 == 0 then (m.(pages := pages), 0)
    else
      (Machine(pages, BuildTables(m.ram, pml4, pdpt, pd, pt0, pt1), AddRoles(m.roles, pml4, pdpt, pd, pt0, pt1)), pml4)
  }

  predicate Distinct5(a: nat, b: nat, c: nat, d: nat, e: nat) {
    a != b && a != c && a != d && a != e && b != c && b != d && b != e && c != d && c != e && d != e
  }

  predicate FreshFrame(a: Allocator, f: nat) { FIRST_FRAME <= f < PAGE_COUNT && f !in a.reserved }

  lemma TakeFiveFacts(a: Allocator)
    requires Valid(a)
    ensures var (a', f1, f2, f3, f4, f5) := TakeFive(a);
            && Valid(a')
            && a.reserved <= a'.reserved
            && (f1 != 0 && f2 != 0 && f3 != 0 && f4 != 0 && f5 != 0 ==>
                  && Distinct5(f1, f2, f3, f4, f5)
                  && FreshFrame(a, f1) && FreshFrame(a, f2) && FreshFrame(a, f3)
                  && FreshFrame(a, f4) && FreshFrame(a, f5)
                  && a'.reserved == a.reserved + {f1, f2, f3, f4, f5})
  {
    hide Take, Valid;
    var (a1, f1) := Take(a);
    var (a2, f2) := Take(a1);
    var (a3, f3) := Take(a2);
    var (a4, f4) := Take(a3);
    TakeFacts(a);
    TakeFacts(a1);
    TakeFacts(a2);
    TakeFacts(a3);
    TakeFacts(a4);
  }

  predicate InRam5(f1: nat, f2: nat, f3: nat, f4: nat, f5: nat) {
    && BOOT_PT1 < f1 < PAGE_COUNT && BOOT_PT1 < f2 < PAGE_COUNT && BOOT_PT1 < f3 < PAGE_COUNT
    && BOOT_PT1 < f4 < PAGE_COUNT && BOOT_PT1 < f5 < PAGE_COUNT
  }

  lemma BuiltEntries(ram: Ram, f1: nat, f2: nat, f3: nat, f4: nat, f5: nat)
    requires Distinct5(f1, f2, f3, f4, f5) && InRam5(f1, f2, f3, f4, f5)
    ensures var r := BuildTables(ram, f1, f2, f3, f4, f5);
            && Entry(r, f1, 0) == Pte(Address(f2), true, true, true) && OnlyFirst(r, f1)
            && Entry(r, f2, 0) == Pte(Address(f3), true, true, true) && OnlyFirst(r, f2)
            && Entry(r, f3, 0) == Pte(Address(f4), false, true, true)
            && Entry(r, f3, 1) == Pte(Address(f5), false, true, true)
            && (forall i: nat :: i > 1 ==> !Present(Entry(r, f3, i)))
            && (forall i: nat {:trigger Entry(r, f4, i)} :: Entry(r, f4, i) == Entry(ram, BOOT_PT0, i))
            && (forall i: nat {:trigger Entry(r, f5, i)} :: Entry(r, f5, i) == Entry(ram, BOOT_PT1, i))
  {
  }

  lemma BuiltElsewhere(ram: Ram, f1: nat, f2: nat, f3: nat, f4: nat, f5: nat)
    requires InRam5(f1, f2, f3, f4, f5)
    ensures forall f: nat, i: nat {:trigger Entry(BuildTables(ram, f1, f2, f3, f4, f5), f, i)} ::
              f !in {f1, f2, f3, f4, f5} ==> Entry(BuildTables(ram, f1, f2, f3, f4, f5), f, i) == Entry(ram, f, i)
  {
  }

  /** The leaf mapping of one bootstrap page-table word. */
  function LeafMapping(w: Word): Mapping {
    if !Present(w) then Unmapped else Mapped(w.frame, User(w), Writable(w), !NoExecute(w))
  }

  lemma NewSpace(ram: Ram, roles: Roles, f1: nat, f2: nat, f3: nat, f4: nat, f5: nat)
    requires Distinct5(f1, f2, f3, f4, f5) && InRam5(f1, f2, f3, f4, f5)
    requires HasRole(roles, f1, Pml4(f1)) && HasRole(roles, f2, Pdpt(f1)) && HasRole(roles, f3, Pd(f1))
    requires HasRole(roles, f4, Pt(f1, 0)) && HasRole(roles, f5, Pt(f1, 1))
    requires NoUserLeaf(ram, BOOT_PT0) && NoUserLeaf(ram, BOOT_PT1)
    ensures var r := BuildTables(ram, f1, f2, f3, f4, f5);
            && SpaceOk(r, roles, f1)
            && (forall v: nat {:trigger Look(r, f1, v)} ::
                  Look(r, f1, v) == if v < 512 then LeafMapping(Entry(ram, BOOT_PT0, v))
                                    else if v < 1024 then LeafMapping(Entry(ram, BOOT_PT1, v - 512))
                                    else Unmapped)
  {
    var r := BuildTables(ram, f1, f2, f3, f4, f5);
    BuiltEntries(ram, f1, f2, f3, f4, f5);
    assert PdptOf(r, f1) == f2 && PdOf(r, f1) == f3;
    forall i: nat
      ensures SlotOk(r, roles, f1, i)
    {
      if i == 0 {
        assert UserUnder(r, Entry(r, f3, 0), f4);
      } else if i == 1 {
        assert UserUnder(r, Entry(r, f3, 1), f5);
      }
    }
  }

  /** Words outside the allocator's reach: allocated frames and everything below 1 MiB. */
  predicate Settled(m: Machine, f: nat) { f in m.pages.reserved || f < FIRST_FRAME }

  lemma RolesSettled(m: Machine)
    requires Inv(m)
    ensures Valid(m.pages)
    ensures forall f :: f in m.roles ==> FIRST_FRAME <= f < PAGE_COUNT && f in m.pages.reserved && Settled(m, f)
    ensures forall f: nat :: IsBootTable(f) ==> Settled(m, f) && f !in m.roles
  {
  }

  /** Five frames that were free get a space of their own; nothing settled changes. */
  lemma CreatedSpace(m: Machine, f1: nat, f2: nat, f3: nat, f4: nat, f5: nat)
    requires Inv(m)
    requires Distinct5(f1, f2, f3, f4, f5)
    requires FreshFrame(m.pages, f1) && FreshFrame(m.pages, f2) && FreshFrame(m.pages, f3)
    requires FreshFrame(m.pages, f4) && FreshFrame(m.pages, f5)
    ensures var r, roles := BuildTables(m.ram, f1, f2, f3, f4, f5), AddRoles(m.roles, f1, f2, f3, f4, f5);
            && AllSpacesOk(r, roles)
            && SettledKept(m, r)
  {
    RolesSettled(m);
    AddRolesFacts(m.roles, f1, f2, f3, f4, f5);
    BuiltSettled(m, f1, f2, f3, f4, f5);
    NewSpace(m.ram, AddRoles(m.roles, f1, f2, f3, f4, f5), f1, f2, f3, f4, f5);
    hide Valid, SpaceOk, AllSpacesOk, NoUserLeaf, BuildTables, AddRoles, HasRole, Entry, Look, Settled, Distinct5,
        FreshFrame;
    OthersUntouched(m.ram, BuildTables(m.ram, f1, f2, f3, f4, f5), m.roles, AddRoles(m.roles, f1, f2, f3, f4, f5), f1);
  }

  ghost predicate SettledKept(m: Machine, ram': Ram) {
    forall f: nat, i: nat {:trigger Entry(ram', f, i)} :: Settled(m, f) ==> Entry(ram', f, i) == Entry(m.ram, f, i)
  }

  lemma BuiltSettled(m: Machine, f1: nat, f2: nat, f3: nat, f4: nat, f5: nat)
    requires FreshFrame(m.pages, f1) && FreshFrame(m.pages, f2) && FreshFrame(m.pages, f3)
    requires FreshFrame(m.pages, f4) && FreshFrame(m.pages, f5)
    ensures SettledKept(m, BuildTables(m.ram, f1, f2, f3, f4, f5))
  {
    BuiltElsewhere(m.ram, f1, f2, f3, f4, f5);
    assert forall f: nat :: Settled(m, f) ==> f !in {f1, f2, f3, f4, f5};
    hide BuildTables, Entry;
  }

  /** Creating a space, whether it succeeds or runs out of pages part way, keeps the invariant
      and every settled word. */
  lemma CreateKeepsInv(m: Machine)
    requires Inv(m)
    ensures var (m', c) := CreateSpace(m);
            && Inv(m')
            && Extends(m.roles, m'.roles)
            && m.pages.reserved <= m'.pages.reserved
            && SettledKept(m, m'.ram)
            && (c == 0 ==> m'.ram == m.ram && m'.roles == m.roles)
            && (c != 0 ==> c !in m.roles && IsSpace(m'.roles, c))
  {
    TakeFiveFacts(m.pages);
    var (pages, f1, f2, f3, f4, f5) := TakeFive(m.pages);
    if f1 != 0 && f2 != 0 && f3 != 0 && f4 != 0 && f5 != 0 {
      AddRolesFacts(m.roles, f1, f2, f3, f4, f5);
      CreatedSpace(m, f1, f2, f3, f4, f5);
      CreatedInv(m, pages, f1, f2, f3, f4, f5);
    }
  }

  lemma CreatedInv(m: Machine, pages: Allocator, f1: nat, f2: nat, f3: nat, f4: nat, f5: nat)
    requires Inv(m) && Valid(pages)
    requires pages.reserved == m.pages.reserved + {f1, f2, f3, f4, f5}
    requires Distinct5(f1, f2, f3, f4, f5)
    requires FreshFrame(m.pages, f1) && FreshFrame(m.pages, f2) && FreshFrame(m.pages, f3)
    requires FreshFrame(m.pages, f4) && FreshFrame(m.pages, f5)
    ensures Inv(Machine(pages, BuildTables(m.ram, f1, f2, f3, f4, f5), AddRoles(m.roles, f1, f2, f3, f4, f5)))
  {
    RolesSettled(m);
    AddRolesFacts(m.roles, f1, f2, f3, f4, f5);
    CreatedSpace(m, f1, f2, f3, f4, f5);
    var r, roles := BuildTables(m.ram, f1, f2, f3, f4, f5), AddRoles(m.roles, f1, f2, f3, f4, f5);
    hide Valid, AllSpacesOk, BuildTables, AddRoles, HasRole, Extends, Entry, Distinct5;
    BootLeavesKept(m, r);
    assert forall f :: f in roles ==> FIRST_FRAME <= f < PAGE_COUNT && f in pages.reserved;
  }

  lemma BootLeavesKept(m: Machine, ram': Ram)
    requires NoUserLeaf(m.ram, BOOT_PT0) && NoUserLeaf(m.ram, BOOT_PT1)
    requires SettledKept(m, ram')
    ensures NoUserLeaf(ram', BOOT_PT0) && NoUserLeaf(ram', BOOT_PT1)
  {
    assert Settled(m, BOOT_PT0) && Settled(m, BOOT_PT1);
  }

  // ---------------------------------------------------------------- memory_map_process_page

  datatype MapResult = MapOk | InvalidVirtualPage | NoPageTable

  predicate MapArgumentsOk(c: nat, va: nat, pa: Word) {
    c != 0 && va % PAGE_SIZE == 0 && pa.low == 0 && va < MAP_LIMIT
  }

  /** Make sure the page directory of c has a table at slot i. */
  function EnsureTable(m: Machine, c: nat, i: nat, user: bool): (Machine, bool) {
    if Present(Entry(m.ram, PdOf(m.ram, c), i)) then (m, true)
    else
      var (pages, pt) := Take(m.pages);
      if pt == 0 then (m.(pages := pages), false)
      else
        var zeroed := m.ram[pt := seq(TABLE_SIZE, _ => ZERO)];
        (Machine(pages, Put(zeroed, PdOf(m.ram, c), i, Pte(Address(pt), user, true, true)), m.roles[pt := Pt(c, i)]),
         true)
  }

  /** Let user mode through the directory entries on the way to slot i. */
  function GrantUser(ram: Ram, c: nat, i: nat): Ram {
    var pdpt, pd := PdptOf(ram, c), PdOf(ram, c);
    var r1 := Put(ram, c, 0, SetUser(Entry(ram, c, 0)));
    var r2 := Put(r1, pdpt, 0, SetUser(Entry(r1, pdpt, 0)));
    Put(r2, pd, i, SetUser(Entry(r2, pd, i)))
  }

  function SetLeaf(ram: Ram, c: nat, v: nat, leaf: Word): Ram {
    Put(ram, PtOf(ram, c, v / 512), v % 512, leaf)
  }

  function MapPage(m: Machine, c: nat, va: nat, pa: Word, user: bool, writable: bool, executable: bool)
    : (Machine, MapResult)
  {
    if !MapArgumentsOk(c, va, pa) then (m, InvalidVirtualPage)
    else
      var v := va / PAGE_SIZE;
      var (m1, ok) := EnsureTable(m, c, v / 512, user);
      if !ok then (m1, NoPageTable)
      else
        var ram := if user then GrantUser(m1.ram, c, v / 512) else m1.ram;
        (m1.(ram := SetLeaf(ram, c, v, Pte(pa, user, writable, executable))), MapOk)
  }

  /** Spaces other than c whose frames keep their words; what each step below leaves behind. */
  ghost predicate OnlyTouches(m: Machine, m': Machine, c: nat) {
    && Extends(m.roles, m'.roles)
    && (forall f :: f in m'.roles && f !in m.roles ==> m'.roles[f].space == c)
    && (forall f: nat, i: nat {:trigger Entry(m'.ram, f, i)} ::
          (f in m.pages.reserved || f < FIRST_FRAME) && !Owned(m.roles, c, f) ==>
            Entry(m'.ram, f, i) == Entry(m.ram, f, i))
  }

  lemma TouchesTransitive(m: Machine, m1: Machine, m2: Machine, c: nat)
    requires OnlyTouches(m, m1, c) && OnlyTouches(m1, m2, c)
    requires m.pages.reserved <= m1.pages.reserved
    requires forall f :: f in m1.roles && f !in m.roles ==> !Settled(m, f)
    ensures OnlyTouches(m, m2, c)
  {
    forall f: nat, i: nat | Settled(m, f) && !Owned(m.roles, c, f)
      ensures Entry(m2.ram, f, i) == Entry(m.ram, f, i)
    {
      assert Entry(m1.ram, f, i) == Entry(m.ram, f, i);
    }
  }

  /** A step that touches the frames of one space only, keeps that space well formed and
      allocates what it uses keeps the invariant. */
  lemma StepKeepsInv(m: Machine, m': Machine, c: nat)
    requires Inv(m) && IsSpace(m.roles, c)
    requires Valid(m'.pages) && m.pages.reserved <= m'.pages.reserved
    requires OnlyTouches(m, m', c)
    requires forall f :: f in m'.roles && f !in m.roles ==> FIRST_FRAME <= f < PAGE_COUNT && f in m'.pages.reserved
    requires SpaceOk(m'.ram, m'.roles, c)
    ensures Inv(m')
  {
    hide Valid, SpaceOk, AllSpacesOk;
    OthersUntouched(m.ram, m'.ram, m.roles, m'.roles, c);
  }

  /** What making sure of a table may do: add one table to space c, and no page of c changes. */
  ghost predicate TableEnsured(m: Machine, m': Machine, c: nat, i: nat) {
    && Inv(m')
    && OnlyTouches(m, m', c)
    && m.pages.reserved <= m'.pages.reserved
    && (forall f :: f in m'.roles && f !in m.roles ==> !Settled(m, f) && m'.roles[f].Pt?)
    && Present(Entry(m'.ram, PdOf(m'.ram, c), i))
    && (forall v: nat :: Look(m'.ram, c, v) == Look(m.ram, c, v))
  }

  lemma TableTouches(m: Machine, m': Machine, c: nat, i: nat, pt: nat)
    requires m'.roles == m.roles[pt := Pt(c, i)] && pt !in m.roles && FreshFrame(m.pages, pt)
    requires forall f: nat, k: nat {:trigger Entry(m'.ram, f, k)} ::
               Settled(m, f) && !Owned(m.roles, c, f) ==> Entry(m'.ram, f, k) == Entry(m.ram, f, k)
    ensures OnlyTouches(m, m', c)
    ensures forall f :: f in m'.roles && f !in m.roles ==> f == pt && !Settled(m, f) && m'.roles[f].Pt?
  {
  }

  lemma TableMade(m: Machine, m': Machine, c: nat, i: nat, user: bool, pt: nat)
    requires Inv(m) && IsSpace(m.roles, c) && i < TABLE_SIZE
    requires !Present(Entry(m.ram, PdOf(m.ram, c), i))
    requires FreshFrame(m.pages, pt)
    requires Valid(m'.pages) && m'.pages.reserved == m.pages.reserved + {pt}
    requires m'.ram == Put(m.ram[pt := seq(TABLE_SIZE, _ => ZERO)], PdOf(m.ram, c), i,
                           Pte(Address(pt), user, true, true))
    requires m'.roles == m.roles[pt := Pt(c, i)]
    ensures TableEnsured(m, m', c, i)
  {
    NewTable(m, c, i, user, pt);
    RolesSettled(m);
    assert pt !in m.roles;
    TableTouches(m, m', c, i, pt);
    hide Inv, Valid, SpaceOk, Look, Put, PdOf, Pte, OnlyTouches, Settled, Entry, Present, IsSpace;
    StepKeepsInv(m, m', c);
  }

  lemma EnsureTableFacts(m: Machine, c: nat, i: nat, user: bool)
    requires Inv(m) && IsSpace(m.roles, c) && i < TABLE_SIZE
    ensures var (m', ok) := EnsureTable(m, c, i, user);
            if ok then TableEnsured(m, m', c, i) else m' == m
  {
    hide Inv, Valid, Take, Put, PdOf, Pte, Look;
    RolesSettled(m);
    if !Present(Entry(m.ram, PdOf(m.ram, c), i)) {
      TakeFacts(m.pages);
      var (pages, pt) := Take(m.pages);
      if pt != 0 {
        TableMade(m, EnsureTable(m, c, i, user).0, c, i, user, pt);
      }
    }
  }

  lemma SpaceFrames(m: Machine, c: nat)
    requires Inv(m) && IsSpace(m.roles, c)
    ensures SpaceOk(m.ram, m.roles, c)
    ensures Owned(m.roles, c, c) && Owned(m.roles, c, PdptOf(m.ram, c)) && Owned(m.roles, c, PdOf(m.ram, c))
    ensures c != PdptOf(m.ram, c) && c != PdOf(m.ram, c) && PdptOf(m.ram, c) != PdOf(m.ram, c)
    ensures c < PAGE_COUNT && PdptOf(m.ram, c) < PAGE_COUNT && PdOf(m.ram, c) < PAGE_COUNT
  {
    assert SpaceOk(m.ram, m.roles, m.roles[c].space);
  }

  /** ram' is ram with frame pt cleared and one word of pd set. */
  ghost predicate TableAdded(ram: Ram, ram': Ram, pd: nat, i: nat, pt: nat, w: Word) {
    forall f: nat, k: nat {:trigger Entry(ram', f, k)} :: Entry(ram', f, k) ==
      if f == pt then ZERO else if f == pd && k == i then w else Entry(ram, f, k)
  }

  lemma NewTableWords(ram: Ram, pt: nat, pd: nat, i: nat, w: Word)
    requires pt < PAGE_COUNT && pd < PAGE_COUNT && pt != pd && i < TABLE_SIZE
    ensures TableAdded(ram, Put(ram[pt := seq(TABLE_SIZE, _ => ZERO)], pd, i, w), pd, i, pt, w)
  {
  }

  /** A frame of space c just made into the table of slot i of its page directory. */
  ghost predicate Slotted(ram: Ram, ram': Ram, roles: Roles, c: nat, i: nat, pt: nat, w: Word) {
    && SpaceOk(ram, roles, c)
    && c != PdOf(ram, c) && PdptOf(ram, c) != PdOf(ram, c)
    && pt !in roles
    && !Present(Entry(ram, PdOf(ram, c), i))
    && Directory(w) && w.frame == pt
    && TableAdded(ram, ram', PdOf(ram, c), i, pt, w)
  }

  lemma SlottedRoot(ram: Ram, ram': Ram, roles: Roles, c: nat, i: nat, pt: nat, w: Word)
    requires Slotted(ram, ram', roles, c, i, pt, w)
    ensures PdOf(ram', c) == PdOf(ram, c) && RootOk(ram', roles[pt := Pt(c, i)], c)
  {
  }

  lemma SlottedSlot(ram: Ram, ram': Ram, roles: Roles, c: nat, i: nat, pt: nat, w: Word, k: nat)
    requires Slotted(ram, ram', roles, c, i, pt, w)
    ensures SlotOk(ram', roles[pt := Pt(c, i)], c, k)
  {
    SlottedRoot(ram, ram', roles, c, i, pt, w);
    assert SlotOk(ram, roles, c, k);
  }

  lemma SlottedLook(ram: Ram, ram': Ram, roles: Roles, c: nat, i: nat, pt: nat, w: Word, v: nat)
    requires Slotted(ram, ram', roles, c, i, pt, w)
    ensures Look(ram', c, v) == Look(ram, c, v)
  {
    SlottedRoot(ram, ram', roles, c, i, pt, w);
    assert SlotOk(ram, roles, c, v / 512);
  }

  lemma NewTable(m: Machine, c: nat, i: nat, user: bool, pt: nat)
    requires Inv(m) && IsSpace(m.roles, c) && i < TABLE_SIZE
    requires !Present(Entry(m.ram, PdOf(m.ram, c), i))
    requires FreshFrame(m.pages, pt)
    ensures var r := Put(m.ram[pt := seq(TABLE_SIZE, _ => ZERO)], PdOf(m.ram, c), i,
                         Pte(Address(pt), user, true, true));
            && SpaceOk(r, m.roles[pt := Pt(c, i)], c)
            && (forall f: nat, k: nat {:trigger Entry(r, f, k)} ::
                  Settled(m, f) && !Owned(m.roles, c, f) ==> Entry(r, f, k) == Entry(m.ram, f, k))
            && Present(Entry(r, PdOf(r, c), i))
            && (forall v: nat :: Look(r, c, v) == Look(m.ram, c, v))
  {
    SpaceFrames(m, c);
    RolesSettled(m);
    hide Inv, Valid, SpaceOk, Look, SlotOk, RootOk, PdOf, PdptOf;
    var pd, w := PdOf(m.ram, c), Pte(Address(pt), user, true, true);
    var r := Put(m.ram[pt := seq(TABLE_SIZE, _ => ZERO)], pd, i, w);
    NewTableWords(m.ram, pt, pd, i, w);
    hide Put, Pte;
    assert Directory(w) && w.frame == pt by { FreshEntry(pt, user); }
    assert Slotted(m.ram, r, m.roles, c, i, pt, w);
    SlottedRoot(m.ram, r, m.roles, c, i, pt, w);
    SlottedSpace(m.ram, r, m.roles, c, i, pt, w);
    forall v: nat
      ensures Look(r, c, v) == Look(m.ram, c, v)
    {
      SlottedLook(m.ram, r, m.roles, c, i, pt, w, v);
    }
  }

  lemma FreshEntry(pt: FrameNumber, user: bool)
    ensures Directory(Pte(Address(pt), user, true, true)) && Pte(Address(pt), user, true, true).frame == pt
  {
  }

  lemma SlottedSpace(ram: Ram, ram': Ram, roles: Roles, c: nat, i: nat, pt: nat, w: Word)
    requires Slotted(ram, ram', roles, c, i, pt, w)
    ensures SpaceOk(ram', roles[pt := Pt(c, i)], c)
  {
    SlottedRoot(ram, ram', roles, c, i, pt, w);
    hide Slotted, SlotOk, RootOk;
    forall k: nat {:trigger SlotOk(ram', roles[pt := Pt(c, i)], c, k)}
      ensures SlotOk(ram', roles[pt := Pt(c, i)], c, k)
    {
      SlottedSlot(ram, ram', roles, c, i, pt, w, k);
    }
  }

  /** ram' is ram with some directory words of space c let through to user mode. */
  ghost predicate Widened(ram: Ram, ram': Ram, c: nat) {
    forall f: nat, k: nat {:trigger Entry(ram', f, k)} ::
      || Entry(ram', f, k) == Entry(ram, f, k)
      || (f in {c, PdptOf(ram, c), PdOf(ram, c)} && Entry(ram', f, k) == SetUser(Entry(ram, f, k)))
  }

  lemma GrantUserWords(ram: Ram, roles: Roles, c: nat, i: nat)
    requires SpaceOk(ram, roles, c) && i < TABLE_SIZE
    requires forall f :: f in roles ==> f < PAGE_COUNT
    ensures var r := GrantUser(ram, c, i);
            && Entry(r, PdOf(ram, c), i) == SetUser(Entry(ram, PdOf(ram, c), i))
            && Widened(ram, r, c)
  {
    var pdpt, pd := PdptOf(ram, c), PdOf(ram, c);
    var r1 := Put(ram, c, 0, SetUser(Entry(ram, c, 0)));
    PutEntry(ram, c, 0, SetUser(Entry(ram, c, 0)));
    var r2 := Put(r1, pdpt, 0, SetUser(Entry(r1, pdpt, 0)));
    PutEntry(r1, pdpt, 0, SetUser(Entry(r1, pdpt, 0)));
    PutEntry(r2, pd, i, SetUser(Entry(r2, pd, i)));
  }

  lemma WidenedSpace(ram: Ram, ram': Ram, roles: Roles, c: nat)
    requires SpaceOk(ram, roles, c)
    requires Widened(ram, ram', c)
    ensures PdOf(ram', c) == PdOf(ram, c)
    ensures SpaceOk(ram', roles, c)
  {
    forall k: nat
      ensures SlotOk(ram', roles, c, k)
    {
      assert SlotOk(ram, roles, c, k);
    }
  }

  lemma WidenedLook(ram: Ram, ram': Ram, roles: Roles, c: nat, v: nat)
    requires SpaceOk(ram, roles, c)
    requires Widened(ram, ram', c)
    ensures Look(ram', c, v) == Look(ram, c, v)
  {
    WidenedSpace(ram, ram', roles, c);
    assert SlotOk(ram, roles, c, v / 512);
  }

  /** Letting user mode through the directory entries changes no translation. */
  lemma GrantUserFacts(ram: Ram, roles: Roles, c: nat, i: nat)
    requires SpaceOk(ram, roles, c) && i < TABLE_SIZE
    requires forall f :: f in roles ==> f < PAGE_COUNT
    requires Present(Entry(ram, PdOf(ram, c), i))
    ensures var r := GrantUser(ram, c, i);
            && SpaceOk(r, roles, c)
            && Present(Entry(r, PdOf(r, c), i)) && User(Entry(r, PdOf(r, c), i))
            && Widened(ram, r, c)
            && (forall v: nat :: Look(r, c, v) == Look(ram, c, v))
  {
    var r := GrantUser(ram, c, i);
    GrantUserWords(ram, roles, c, i);
    WidenedSpace(ram, r, roles, c);
    forall v: nat
      ensures Look(r, c, v) == Look(ram, c, v)
    {
      WidenedLook(ram, r, roles, c, v);
    }
  }

  // ---------------------------------------------------------------- the leaf

  lemma LeafFrame(ram: Ram, roles: Roles, c: nat, v: nat)
    requires SpaceOk(ram, roles, c) && v < 0x4_0000
    requires Present(Entry(ram, PdOf(ram, c), v / 512))
    ensures HasRole(roles, PtOf(ram, c, v / 512), Pt(c, v / 512))
  {
    assert SlotOk(ram, roles, c, v / 512);
  }

  /** Page v of space c now maps to `mapping`, and every other page as before. */
  ghost predicate Remaps(ram: Ram, ram': Ram, c: nat, v: nat, mapping: Mapping) {
    forall w: nat {:trigger Look(ram', c, w)} :: Look(ram', c, w) == if w == v then mapping else Look(ram, c, w)
  }

  /** Writing a leaf changes the mapping of that page, to the leaf's, and of no other page. */
  lemma SetLeafFacts(ram: Ram, roles: Roles, c: nat, v: nat, leaf: Word)
    requires SpaceOk(ram, roles, c) && v < 0x4_0000
    requires forall f :: f in roles ==> f < PAGE_COUNT
    requires Present(Entry(ram, PdOf(ram, c), v / 512))
    requires User(leaf) ==> User(Entry(ram, PdOf(ram, c), v / 512))
    ensures var r := SetLeaf(ram, c, v, leaf);
            && SpaceOk(r, roles, c)
            && Remaps(ram, r, c, v, LeafMapping(leaf))
            && (forall f: nat, k: nat {:trigger Entry(r, f, k)} ::
                  !Owned(roles, c, f) ==> Entry(r, f, k) == Entry(ram, f, k))
  {
    var r := SetLeaf(ram, c, v, leaf);
    LeafFrame(ram, roles, c, v);
    PutEntry(ram, PtOf(ram, c, v / 512), v % 512, leaf);
    forall k: nat
      ensures SlotOk(r, roles, c, k)
    {
      assert SlotOk(ram, roles, c, k);
    }
    forall w: nat
      ensures Look(r, c, w) == if w == v then LeafMapping(leaf) else Look(ram, c, w)
    {
      assert SlotOk(ram, roles, c, w / 512);
    }
  }

  /** The mapping a request asks for.  Address bits 52..63 of `pa` reach the leaf's high bits and
      not its frame field. */
  function Requested(pa: Word, user: bool, writable: bool, executable: bool): Mapping {
    Mapped(pa.frame, user, writable, executable && pa.high & NX == 0)
  }

  lemma PteMeans(pa: Word, user: bool, writable: bool, executable: bool)
    requires pa.low == 0
    ensures var leaf := Pte(pa, user, writable, executable);
            LeafMapping(leaf) == Requested(pa, user, writable, executable) && User(leaf) == user
  {
  }

  ghost predicate NotOwnedUnchanged(ram: Ram, ram': Ram, roles: Roles, c: nat) {
    forall f: nat, k: nat {:trigger Entry(ram', f, k)} :: !Owned(roles, c, f) ==> Entry(ram', f, k) == Entry(ram, f, k)
  }

  lemma LeafWritten(ram: Ram, roles: Roles, c: nat, v: nat, pa: Word, user: bool, writable: bool, executable: bool)
    requires SpaceOk(ram, roles, c) && v < 0x4_0000 && pa.low == 0
    requires forall f :: f in roles ==> f < PAGE_COUNT
    requires Present(Entry(ram, PdOf(ram, c), v / 512))
    ensures var granted := if user then GrantUser(ram, c, v / 512) else ram;
            var r := SetLeaf(granted, c, v, Pte(pa, user, writable, executable));
            && SpaceOk(r, roles, c)
            && Remaps(ram, r, c, v, Requested(pa, user, writable, executable))
            && NotOwnedUnchanged(ram, r, roles, c)
  {
    PteMeans(pa, user, writable, executable);
    if user {
      GrantUserFacts(ram, roles, c, v / 512);
      SetLeafFacts(GrantUser(ram, c, v / 512), roles, c, v, Pte(pa, user, writable, executable));
    } else {
      SetLeafFacts(ram, roles, c, v, Pte(pa, user, writable, executable));
    }
  }

  lemma MapSucceeds(m: Machine, c: nat, v: nat, pa: Word, user: bool, writable: bool, executable: bool)
    requires Inv(m) && IsSpace(m.roles, c) && v < 0x4_0000 && pa.low == 0
    requires Present(Entry(m.ram, PdOf(m.ram, c), v / 512))
    ensures var ram := if user then GrantUser(m.ram, c, v / 512) else m.ram;
            var m' := m.(ram := SetLeaf(ram, c, v, Pte(pa, user, writable, executable)));
            && Inv(m')
            && OnlyTouches(m, m', c)
            && Remaps(m.ram, m'.ram, c, v, Requested(pa, user, writable, executable))
  {
    SpaceFrames(m, c);
    LeafWritten(m.ram, m.roles, c, v, pa, user, writable, executable);
    var ram := if user then GrantUser(m.ram, c, v / 512) else m.ram;
    var m' := m.(ram := SetLeaf(ram, c, v, Pte(pa, user, writable, executable)));
    assert NotOwnedUnchanged(m.ram, m'.ram, m.roles, c);
    StepKeepsInv(m, m', c);
  }

  /** What a map into space c may do to memory beyond that space: take one page for a table. */
  ghost predicate MapEffect(m: Machine, m': Machine, c: nat) {
    && Inv(m')
    && OnlyTouches(m, m', c)
    && m.pages.reserved <= m'.pages.reserved
    && (forall f :: f in m'.roles && f !in m.roles ==> f !in m.pages.reserved && m'.roles[f].Pt?)
  }

  /** Map exactness, denial and isolation for one call on a live address space. */
  lemma MapPageFacts(m: Machine, c: nat, va: nat, pa: Word, user: bool, writable: bool, executable: bool)
    requires Inv(m) && (c == 0 || IsSpace(m.roles, c))
    ensures var (m', result) := MapPage(m, c, va, pa, user, writable, executable);
            && MapEffect(m, m', c)
            && (result == InvalidVirtualPage <==> !MapArgumentsOk(c, va, pa))
            && (result != MapOk ==> m' == m)
            && (result == MapOk ==>
                  Remaps(m.ram, m'.ram, c, va / PAGE_SIZE, Requested(pa, user, writable, executable)))
  {
    if MapArgumentsOk(c, va, pa) {
      var v := va / PAGE_SIZE;
      EnsureTableFacts(m, c, v / 512, user);
      var (m1, ok) := EnsureTable(m, c, v / 512, user);
      if ok {
        MapSucceeds(m1, c, v, pa, user, writable, executable);
        TouchesTransitive(m, m1, MapPage(m, c, va, pa, user, writable, executable).0, c);
      }
    }
  }
}
