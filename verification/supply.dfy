/** When there are pages enough: exactly when taking one, making an address space and mapping a page succeed,
    and how many pages each uses up. */
module Supply {
  import opened Paging
  import opened Allocation
  import opened AddressSpaces

  /** The pages that page_alloc can still hand out. */
  function Available(a: Allocator): nat { if a.ready then |FreePages(a)| else 0 }

  lemma TakesWhenFree(a: Allocator)
    requires Valid(a)
    ensures Take(a).1 != 0 <==> a.ready && FreePages(a) != {}
  {
    if a.ready {
      FirstFitIsLowest(a.reserved, 1, FIRST_FRAME);
      var page := FirstFit(a.reserved, 1, FIRST_FRAME);
      assert page * PAGE_SIZE / PAGE_SIZE == page;
      hide FirstFit, HeapOk;
      if page == 0 {
        forall p | p in a.usable
          ensures p in a.reserved
        {
          assert !FreeRun(a.reserved, p, 1);
        }
      } else {
        assert FreeRun(a.reserved, page, 1);
        assert page in FreePages(a);
      }
    }
  }

  /** page_alloc succeeds exactly when a page is available, and uses it up. */
  lemma TakeCounts(a: Allocator)
    requires Valid(a)
    ensures var (a', f) := Take(a);
            && Valid(a')
            && (f != 0 <==> Available(a) > 0)
            && Available(a') == if Available(a) > 0 then Available(a) - 1 else 0
  {
    TakesWhenFree(a);
    TakeFacts(a);
    var (a', f) := Take(a);
    AllocateFacts(a, 1);
    assert a'.ready == a.ready;
    hide Valid, Allocate;
    if f != 0 {
      assert f in FreePages(a) by { TakenWasFree(a); }
      assert FreePages(a') == FreePages(a) - {f};
    }
  }

  lemma TakenWasFree(a: Allocator)
    requires Valid(a) && Take(a).1 != 0
    ensures Take(a).1 in FreePages(a) && Take(a).0.usable == a.usable
  {
    AllocateFacts(a, 1);
    TakeFacts(a);
  }

  // ---------------------------------------------------------------- creating a space

  function Left(available: nat, n: nat): nat { if available >= n then available - n else 0 }

  lemma TakeFiveCounts(a: Allocator)
    requires Valid(a)
    ensures var (a', f1, f2, f3, f4, f5) := TakeFive(a);
            && (f1 != 0 && f2 != 0 && f3 != 0 && f4 != 0 && f5 != 0 <==> Available(a) >= 5)
            && Available(a') == Left(Available(a), 5)
  {
    hide Take, Valid, Available;
    var a1 := Take(a).0;
    var a2 := Take(a1).0;
    var a3 := Take(a2).0;
    TakeCounts(a);
    TakeCounts(a1);
    TakeCounts(a2);
    TakeCounts(a3);
    TakeCounts(Take(a3).0);
  }

  /** An address space is made exactly when five pages are available; they are used up, or all that are left. */
  lemma CreateSucceedsExactly(m: Machine)
    requires Inv(m)
    ensures var (m', c) := CreateSpace(m);
            && (c != 0 <==> m.pages.ready && |FreePages(m.pages)| >= 5)
            && Available(m'.pages) == Left(Available(m.pages), 5)
  {
    RolesSettled(m);
    TakeFiveCounts(m.pages);
    hide Inv, Valid, TakeFive, BuildTables, AddRoles, FreePages;
  }

  // ---------------------------------------------------------------- mapping a page

  /** The page directory of c has a table at slot i. */
  predicate HasTable(ram: Ram, c: nat, i: nat) { Present(Entry(ram, PdOf(ram, c), i)) }

  /** From ram to ram' space c gets a table at slot i and at no other. */
  ghost predicate OneTable(ram: Ram, ram': Ram, c: nat, i: nat) {
    forall k: nat {:trigger HasTable(ram', c, k)} :: HasTable(ram', c, k) <==> k == i || HasTable(ram, c, k)
  }

  ghost predicate SameTables(ram: Ram, ram': Ram, c: nat) {
    forall k: nat {:trigger HasTable(ram', c, k)} :: HasTable(ram', c, k) == HasTable(ram, c, k)
  }

  /** A space whose frames keep their words keeps its tables. */
  lemma UntouchedTables(ram: Ram, ram': Ram, roles: Roles, c: nat)
    requires SpaceOk(ram, roles, c) && SameOwned(ram, ram', roles, c)
    ensures SameTables(ram, ram', c)
  {
    assert Owned(roles, c, c) && Owned(roles, c, PdptOf(ram, c)) && Owned(roles, c, PdOf(ram, c));
  }

  /** A new space has tables for its first 4 MiB only. */
  lemma NewSpaceTables(m: Machine)
    requires Inv(m) && CreateSpace(m).1 != 0
    ensures var (m', c) := CreateSpace(m);
            forall k: nat {:trigger HasTable(m'.ram, c, k)} :: HasTable(m'.ram, c, k) ==> k < 2
  {
    TakeFiveFacts(m.pages);
    var (pages, f1, f2, f3, f4, f5) := TakeFive(m.pages);
    BuiltEntries(m.ram, f1, f2, f3, f4, f5);
    hide Inv, Valid, TakeFive, BuildTables, AddRoles, Entry;
  }

  lemma EnsuredTables(m: Machine, c: nat, i: nat, user: bool)
    requires Inv(m) && IsSpace(m.roles, c) && i < TABLE_SIZE
    ensures var (m', ok) := EnsureTable(m, c, i, user);
            && (ok <==> HasTable(m.ram, c, i) || Available(m.pages) > 0)
            && (ok ==> OneTable(m.ram, m'.ram, c, i))
            && Available(m'.pages) == if HasTable(m.ram, c, i) then Available(m.pages) else Left(Available(m.pages), 1)
  {
    RolesSettled(m);
    TakeCounts(m.pages);
    TakeFacts(m.pages);
    hide Take, Valid, Available, PdOf;
    if !HasTable(m.ram, c, i) && Take(m.pages).1 != 0 {
      TableIsOne(m, c, i, Take(m.pages).1, user);
    }
  }

  lemma TableIsOne(m: Machine, c: nat, i: nat, pt: nat, user: bool)
    requires Inv(m) && IsSpace(m.roles, c) && i < TABLE_SIZE && FreshFrame(m.pages, pt) && !HasTable(m.ram, c, i)
    ensures var w := Pte(Address(pt), user, true, true);
            OneTable(m.ram, Put(m.ram[pt := seq(TABLE_SIZE, _ => ZERO)], PdOf(m.ram, c), i, w), c, i)
  {
    SpaceFrames(m, c);
    RolesSettled(m);
    hide Inv, Valid, SpaceOk;
    var pd, w := PdOf(m.ram, c), Pte(Address(pt), user, true, true);
    NewTableWords(m.ram, pt, pd, i, w);
    FreshEntry(pt, user);
    hide Put, Pte;
  }

  lemma WidenedTables(ram: Ram, ram': Ram, roles: Roles, c: nat)
    requires SpaceOk(ram, roles, c) && Widened(ram, ram', c)
    ensures SameTables(ram, ram', c)
  {
    WidenedSpace(ram, ram', roles, c);
    hide SpaceOk, PdOf, PdptOf;
  }

  lemma LeafTables(ram: Ram, roles: Roles, c: nat, v: nat, leaf: Word)
    requires SpaceOk(ram, roles, c) && v < 0x4_0000 && HasTable(ram, c, v / 512)
    requires forall f :: f in roles ==> f < PAGE_COUNT
    ensures SameTables(ram, SetLeaf(ram, c, v, leaf), c)
  {
    LeafFrame(ram, roles, c, v);
    PutEntry(ram, PtOf(ram, c, v / 512), v % 512, leaf);
    hide Put;
  }

  lemma LeafKeepsTables(m: Machine, c: nat, v: nat, user: bool, leaf: Word)
    requires Inv(m) && IsSpace(m.roles, c) && v < 0x4_0000 && HasTable(m.ram, c, v / 512)
    ensures var ram := if user then GrantUser(m.ram, c, v / 512) else m.ram;
            SameTables(m.ram, SetLeaf(ram, c, v, leaf), c)
  {
    SpaceFrames(m, c);
    RolesSettled(m);
    hide Inv, SpaceOk, GrantUser, SetLeaf, PdOf;
    if user {
      GrantUserFacts(m.ram, m.roles, c, v / 512);
      WidenedTables(m.ram, GrantUser(m.ram, c, v / 512), m.roles, c);
      LeafTables(GrantUser(m.ram, c, v / 512), m.roles, c, v, leaf);
    } else {
      LeafTables(m.ram, m.roles, c, v, leaf);
    }
  }

  /** How many pages a map at slot i of space c uses. */
  function TablesNeeded(ram: Ram, c: nat, i: nat): nat { if HasTable(ram, c, i) then 0 else 1 }

  /** A map into a live space succeeds exactly when its arguments are valid and the page it may need for a
      table is available; it uses that page and adds that table. */
  lemma MapCounts(m: Machine, c: nat, va: nat, pa: Word, user: bool, writable: bool, executable: bool)
    requires Inv(m) && IsSpace(m.roles, c) && MapArgumentsOk(c, va, pa)
    ensures var (m', result) := MapPage(m, c, va, pa, user, writable, executable);
            var i := va / PAGE_SIZE / 512;
            && (result == MapOk <==> TablesNeeded(m.ram, c, i) <= Available(m.pages))
            && Available(m'.pages) == Left(Available(m.pages), TablesNeeded(m.ram, c, i))
            && (result == MapOk ==> OneTable(m.ram, m'.ram, c, i))
  {
    hide Inv, EnsureTable, GrantUser, SetLeaf, HasTable, Available, Look;
    var v := va / PAGE_SIZE;
    EnsureTableFacts(m, c, v / 512, user);
    EnsuredTables(m, c, v / 512, user);
    var (m1, ok) := EnsureTable(m, c, v / 512, user);
    if ok {
      LeafKeepsTables(m1, c, v, user, Pte(pa, user, writable, executable));
    }
  }
}
