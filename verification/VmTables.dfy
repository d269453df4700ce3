/** Building and tearing down one VM's stage-2 tables in place, region by region. */
module VmTables {
  import opened Words
  import opened Stage2Spec
  import opened Stage2
  import opened VmSpec

  /** What does not fit after n regions does not fit at the end. */
  lemma ParkedAt(s: S2, r: int, mem: seq<Region>, n: nat)
    requires n <= |mem| && (forall j :: 0 <= j < n ==> Aligned(mem[j])) && Tables(MapRegions(s, r, mem[..n])) > POOL_PAGES
    ensures Tables(MapRegions(s, r, mem[..Good(mem)])) > POOL_PAGES
  {
    GoodPrefix(mem, n);
    RegionsGrow(s, r, mem[..Good(mem)], n);
    assert mem[..Good(mem)][..n] == mem[..n];
  }

  /** Map the regions in list order, up to the first one that is refused. */
  method MapRegionList(tables: PageTables, r: int, mem: seq<Region>) returns (e: Err)
    requires tables.Valid() && !tables.parked && r in tables.View().roots
    modifies tables, tables.pool
    ensures tables.Valid() && tables.View().roots == old(tables.View()).roots
    ensures tables.parked <==> Tables(MapRegions(old(tables.View()), r, mem[..Good(mem)])) > POOL_PAGES
    ensures !tables.parked ==> tables.View() == MapRegions(old(tables.View()), r, mem[..Good(mem)])
    ensures !tables.parked ==> e == if Good(mem) == |mem| then Ok else Inval
  {
    hide MapN, Tables;
    var i := 0;
    ghost var s := tables.View();
    TableTree.Capacity(tables.tree);
    while i < |mem|
      invariant 0 <= i <= |mem| && forall j :: 0 <= j < i ==> Aligned(mem[j])
      invariant tables.Valid() && !tables.parked && tables.View().roots == s.roots
      invariant tables.View() == MapRegions(s, r, mem[..i])
      invariant Tables(MapRegions(s, r, mem[..i])) <= POOL_PAGES
    {
      var g := mem[i];
      assert mem[..i + 1][..i] == mem[..i];
      e := tables.Map(Some(r), g.ipa, g.pa, g.size, Attributes(g.flags));
      if e != Ok {
        GoodAt(mem, i);
        return;
      }
      if tables.parked {
        ParkedAt(s, r, mem, i + 1);
        return;
      }
      TableTree.Capacity(tables.tree);
      i := i + 1;
    }
    GoodAt(mem, i);
    e := Ok;
  }

  lemma GoodPrefix(mem: seq<Region>, n: nat)
    requires n <= |mem| && forall i :: 0 <= i < n ==> Aligned(mem[i])
    ensures Good(mem) >= n
  {
  }

  /** The table part of finalizing a VM. */
  method BuildTables(tables: PageTables, r: int, kind: Kind, mem: seq<Region>) returns (e: Err)
    requires tables.Valid() && !tables.parked && r in tables.View().roots
    modifies tables, tables.pool
    ensures tables.Valid() && tables.View().roots == old(tables.View()).roots
    ensures tables.parked <==> Tables(Built(old(tables.View()), r, kind, mem)) > POOL_PAGES
    ensures !tables.parked ==> tables.View() == Built(old(tables.View()), r, kind, mem)
    ensures !tables.parked ==> e == if Good(mem) == |mem| then Ok else Inval
  {
    ghost var s := tables.View();
    e := MapRegionList(tables, r, mem);
    BuiltGrows(s, r, kind, mem, Good(mem));
    if tables.parked || e != Ok {
      return;
    }
    if kind == Linux {
      var pa := FaultFrame(mem);
      var ignored := tables.Map(Some(r), 0x2B_F000, pa, 0x1000, Attributes(MEM_X));
    }
  }

  /** The table part of stopping a VM. */
  method ClearTables(tables: PageTables, r: int, mem: seq<Region>)
    requires tables.Valid() && r in tables.View().roots
    modifies tables`tree, tables.pool
    ensures tables.Valid() && tables.View() == Cleared(old(tables.View()), r, mem)
    ensures tables.View().roots == old(tables.View()).roots
  {
    var i := 0;
    ghost var s := tables.View();
    while i < |mem|
      invariant 0 <= i <= |mem|
      invariant tables.Valid() && tables.View().roots == s.roots
      invariant tables.View() == Cleared(s, r, mem[..i])
    {
      var g := mem[i];
      assert mem[..i + 1][..i] == mem[..i];
      ClearedTables(s, r, mem[..i + 1]);
      var ignored := tables.Unmap(Some(r), g.ipa, g.size);
      i := i + 1;
    }
    assert mem[..i] == mem;
  }
}
