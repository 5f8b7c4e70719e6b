/** memory_create_address_space and memory_map_process_page as they run: page-table words written
    one by one into physical memory. */
module PageTables {
  import opened Paging
  import opened Allocation
  import opened AddressSpaces
  import opened PageMemory

  class PagedMemory {
    const pages: Memory
    var ram: Ram
    ghost var roles: Roles

    ghost predicate Shape()
      reads this, pages
    {
      pages.Shape()
    }

    ghost function State(): Machine
      reads this, pages, pages.pageBitmap, pages.usableBitmap
    {
      Machine(pages.State(), ram, roles)
    }

    constructor (pages: Memory, ram: Ram)
      requires pages.Shape()
      ensures Shape() && this.pages == pages
      ensures State() == Machine(pages.State(), ram, map[])
    {
      this.pages := pages;
      this.ram := ram;
      this.roles := map[];
    }

    method ZeroPage(f: nat)
      requires f < PAGE_COUNT
      modifies this`ram
      ensures ram == old(ram)[f := seq(TABLE_SIZE, _ => ZERO)]
    {
      for i := 0 to TABLE_SIZE
        invariant ram == old(ram)[f := ram[f]]
        invariant forall j :: 0 <= j < i ==> ram[f][j] == ZERO
      {
        ram := ram[f := ram[f][i := ZERO]];
      }
      assert ram[f] == seq(TABLE_SIZE, _ => ZERO);
    }

    method CopyPage(destination: nat, source: nat)
      requires destination < PAGE_COUNT && source < PAGE_COUNT && destination != source
      modifies this`ram
      ensures ram == old(ram)[destination := old(ram)[source]]
    {
      for i := 0 to TABLE_SIZE
        invariant ram == old(ram)[destination := ram[destination]]
        invariant forall j :: 0 <= j < i ==> ram[destination][j] == old(ram)[source][j]
      {
        ram := ram[destination := ram[destination][i := ram[source][i]]];
      }
      assert ram[destination] == old(ram)[source];
    }

    /** page_alloc, as a frame number. */
    method PageAlloc() returns (f: nat)
      requires Shape()
      modifies pages.pageBitmap
      ensures (pages.State(), f) == Take(old(pages.State()))
    {
      var address, _ := pages.PageAllocContiguous(1);
      f := address / PAGE_SIZE;
    }

    method AllocateFive() returns (pml4: nat, pdpt: nat, pd: nat, pt0: nat, pt1: nat)
      requires Shape()
      modifies pages.pageBitmap
      ensures (pages.State(), pml4, pdpt, pd, pt0, pt1) == TakeFive(old(pages.State()))
    {
      hide Allocate;
      pml4 := PageAlloc();
      pdpt := PageAlloc();
      pd := PageAlloc();
      pt0 := PageAlloc();
      pt1 := PageAlloc();
    }

    method WriteTables(pml4: nat, pdpt: nat, pd: nat, pt0: nat, pt1: nat)
      requires Distinct5(pml4, pdpt, pd, pt0, pt1) && InRam5(pml4, pdpt, pd, pt0, pt1)
      modifies this`ram
      ensures ram == BuildTables(old(ram), pml4, pdpt, pd, pt0, pt1)
    {
      ZeroPage(pml4);
      ZeroPage(pdpt);
      ZeroPage(pd);
      CopyPage(pt0, BOOT_PT0);
      CopyPage(pt1, BOOT_PT1);
      ram := Put(ram, pml4, 0, Pte(Address(pdpt), true, true, true));
      ram := Put(ram, pdpt, 0, Pte(Address(pd), true, true, true));
      ram := Put(ram, pd, 0, Pte(Address(pt0), false, true, true));
      ram := Put(ram, pd, 1, Pte(Address(pt1), false, true, true));
      TablesInOrder(old(ram), pml4, pdpt, pd, pt0, pt1);
    }

    method CreateAddressSpace() returns (c: nat)
      requires Shape() && Inv(State())
      modifies this`ram, this`roles, pages.pageBitmap
      ensures Shape()
      ensures (State(), c) == CreateSpace(old(State()))
    {
      hide Inv, BuildTables;
      assert Valid(pages.State()) by { InvIsValid(State()); }
      TakeFiveFacts(pages.State());
      var pml4, pdpt, pd, pt0, pt1 := AllocateFive();
      if pml4 == 0 || pdpt == 0 || pd == 0 || pt0 == 0 || pt1 == 0 {
        return 0;
      }
      WriteTables(pml4, pdpt, pd, pt0, pt1);
      roles := AddRoles(roles, pml4, pdpt, pd, pt0, pt1);
      return pml4;
    }

    /** Make a table for slot i of the page directory when there is none. */
    method EnsureSlot(c: nat, i: nat, user: bool) returns (ok: bool)
      requires Shape()
      modifies this`ram, this`roles, pages.pageBitmap
      ensures Shape()
      ensures (State(), ok) == EnsureTable(old(State()), c, i, user)
    {
      hide Allocate;
      var pd := PdOf(ram, c);
      if !Present(Entry(ram, pd, i)) {
        var pt := PageAlloc();
        if pt == 0 {
          return false;
        }
        ZeroPage(pt);
        ram := Put(ram, pd, i, Pte(Address(pt), user, true, true));
        roles := roles[pt := Pt(c, i)];
      }
      return true;
    }

    method MapProcessPage(c: nat, va: nat, pa: Word, user: bool, writable: bool, executable: bool)
      returns (result: MapResult)
      requires Shape()
      modifies this`ram, this`roles, pages.pageBitmap
      ensures Shape()
      ensures (State(), result) == MapPage(old(State()), c, va, pa, user, writable, executable)
    {
      hide EnsureTable;
      if c == 0 || va % PAGE_SIZE != 0 || pa.low != 0 || va >= MAP_LIMIT {
        return InvalidVirtualPage;
      }
      var i, j := va / PAGE_SIZE / 512, va / PAGE_SIZE % 512;
      var ok := EnsureSlot(c, i, user);
      if !ok {
        return NoPageTable;
      }
      var pdpt, pd := PdptOf(ram, c), PdOf(ram, c);
      if user {
        ram := Put(ram, c, 0, SetUser(Entry(ram, c, 0)));
        ram := Put(ram, pdpt, 0, SetUser(Entry(ram, pdpt, 0)));
        ram := Put(ram, pd, i, SetUser(Entry(ram, pd, i)));
      }
      ram := Put(ram, PtOf(ram, c, i), j, Pte(pa, user, writable, executable));
      return MapOk;
    }
  }

  lemma InvIsValid(m: Machine)
    requires Inv(m)
    ensures Valid(m.pages)
  {
  }

  /** The nine writes of memory_create_address_space, whatever their order, leave the five tables. */
  lemma TablesInOrder(ram: Ram, f1: nat, f2: nat, f3: nat, f4: nat, f5: nat)
    requires Distinct5(f1, f2, f3, f4, f5) && InRam5(f1, f2, f3, f4, f5)
    ensures var zero := seq(TABLE_SIZE, _ => ZERO);
            var r0 := ram[f1 := zero][f2 := zero][f3 := zero];
            var r1 := r0[f4 := r0[BOOT_PT0]];
            var r2 := r1[f5 := r1[BOOT_PT1]];
            var r3 := Put(r2, f1, 0, Pte(Address(f2), true, true, true));
            var r4 := Put(r3, f2, 0, Pte(Address(f3), true, true, true));
            var r5 := Put(r4, f3, 0, Pte(Address(f4), false, true, true));
            Put(r5, f3, 1, Pte(Address(f5), false, true, true)) == BuildTables(ram, f1, f2, f3, f4, f5)
  {
    var zero: Table := seq(TABLE_SIZE, _ => ZERO);
    assert zero[0 := Pte(Address(f2), true, true, true)] == OneEntry(Pte(Address(f2), true, true, true));
    assert zero[0 := Pte(Address(f3), true, true, true)] == OneEntry(Pte(Address(f3), true, true, true));
    assert zero[0 := Pte(Address(f4), false, true, true)][1 := Pte(Address(f5), false, true, true)] ==
           TwoEntries(Pte(Address(f4), false, true, true), Pte(Address(f5), false, true, true));
  }
}
