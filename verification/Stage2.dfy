/** The stage-2 page-table manager: three-level tables built in place from a
    bump-allocated pool that all VMs share. A table is named by its pool page,
    and a VM by the page of its top-level table. */
module Stage2 {
  import opened Words
  import opened Stage2Spec
  import opened TableTree

  /** The three 9-bit indices are the digits of the key. */
  lemma Indices(ipa: nat)
    ensures ipa / 0x4000_0000 % 512 == KeyOf(ipa) / 0x4_0000
    ensures ipa / 0x20_0000 % 512 == KeyOf(ipa) / 512 % 512
    ensures ipa / 0x1000 % 512 == KeyOf(ipa) % 512
    ensures KeyOf(ipa) / 0x4_0000 == KeyOf(ipa) / 512 / 512 < 512
  {
    var n, low := ipa / 4096, ipa % 4096;
    var q, k := n / 0x800_0000, n % 0x800_0000;
    var k1, k0 := k / 512, k % 512;
    var k2 := k1 / 512;
    DivMod(k, 0x4_0000, k2, k1 % 512 * 512 + k0);
    DivMod(n, 512, q * 0x4_0000 + k1, k0);
    DivMod(ipa, 0x20_0000, q * 0x4_0000 + k1, k0 * 4096 + low);
    DivMod(q * 0x4_0000 + k1, 512, q * 512 + k2, k1 % 512);
    DivMod(ipa, 0x4000_0000, q * 512 + k2, (k1 % 512 * 512 + k0) * 4096 + low);
    DivMod(q * 512 + k2, 512, q, k2);
  }

  class PageTables {
    const pool: array2<int>
    var idx: nat
    /** Set when the pool is exhausted: the core waits forever in the allocator. */
    var parked: bool
    ghost var tree: WfTree

    /** The pool holds `mem` word for word. */
    ghost predicate Holds(mem: seq<seq<int>>)
      reads pool
    {
      && pool.Length0 == POOL_PAGES == |mem| && pool.Length1 == 512
      && (forall p :: 0 <= p < POOL_PAGES ==> |mem[p]| == 512)
      && forall p, i :: 0 <= p < POOL_PAGES && 0 <= i < 512 ==> pool[p, i] == mem[p][i]
    }

    ghost predicate Valid()
      reads this, pool
    {
      idx == |tree.role| && Holds(tree.mem)
    }

    /** The page maps that the pool spells out. */
    ghost function View(): S2
      reads this
    {
      tree.view
    }

    constructor ()
      ensures Valid() && !parked && idx == 0 && View() == Empty && fresh(pool)
    {
      pool := new int[POOL_PAGES, 512]((p, i) => 0);
      idx, parked := 0, false;
      tree := InitialTree();
    }

    method PtAlloc() returns (p: int)
      requires idx <= POOL_PAGES && Holds(tree.mem) && !parked
      modifies this`idx, this`parked, pool
      ensures parked <==> old(idx) == POOL_PAGES
      ensures p == old(idx) && idx == if parked then p else p + 1
      ensures Holds(if parked then tree.mem else Zeroed(tree.mem, p))
    {
      p := idx;
      if idx >= POOL_PAGES {
        parked := true;
        return;
      }
      idx := idx + 1;
      forall i | 0 <= i < 512 {
        pool[p, i] := 0;
      }
    }

    /** Write one word that turns the pool from `mem` into the tree `t`. */
    method Store(p: int, i: int, v: int, ghost mem: seq<seq<int>>, ghost t: WfTree)
      requires Holds(mem) && 0 <= p < POOL_PAGES && 0 <= i < 512 && t.mem == Poke(mem, p, i, v)
      modifies this`tree, pool
      ensures tree == t && Holds(t.mem)
    {
      pool[p, i] := v;
      tree := t;
    }

    /** A fresh top-level table for a new VM. */
    method Create() returns (r: int)
      requires Valid() && !parked
      modifies this, pool
      ensures Valid()
      ensures parked <==> Tables(old(View())) == POOL_PAGES
      ensures r == Tables(old(View())) && r !in old(View()).roots
      ensures View() == if parked then old(View()) else Stage2Spec.Create(old(View()), r)
    {
      assert RootOk(tree, |tree.role|);
      r := PtAlloc();
      if !parked {
        AddRootCells(tree);
        tree := AddRoot(tree);
      }
    }

    method LinkMid(r: int, i1: int)
      requires Valid() && !parked && r in View().roots && 0 <= i1 < 512 && (r, i1) !in View().gigs
      modifies this, pool
      ensures Valid()
      ensures parked <==> Tables(old(View())) == POOL_PAGES
      ensures parked ==> View() == old(View())
      ensures !parked ==> View() == old(View()).(gigs := old(View()).gigs + {(r, i1)})
    {
      var l2 := PtAlloc();
      if !parked {
        AddMidCells(tree, r, i1);
        Store(r, i1, TableDesc(l2), Zeroed(tree.mem, l2), AddMid(tree, r, i1));
      }
    }

    /** The second-level table for entry `i1`, allocated on first use. */
    method EnsureMid(r: int, i1: int)
      requires Valid() && !parked && r in View().roots && 0 <= i1 < 512
      modifies this, pool
      ensures Valid()
      ensures parked ==> View() == old(View()) && (r, i1) !in View().gigs && Tables(View()) == POOL_PAGES
      ensures !parked ==> View() == old(View()).(gigs := old(View()).gigs + {(r, i1)})
    {
      PathWords(tree, r, i1 * 0x4_0000);
      if pool[r, i1] % 2 == 0 {
        LinkMid(r, i1);
      } else {
        Present(View().gigs, (r, i1));
      }
    }

    method LinkBottom(r: int, l2: int, i2: int, ghost m: int)
      requires Valid() && !parked && (r, m / 512) in View().gigs && 0 <= m < 0x4_0000 && (r, m) !in View().megs
      requires l2 == tree.mid[(r, m / 512)] && i2 == m % 512
      modifies this, pool
      ensures Valid()
      ensures parked <==> Tables(old(View())) == POOL_PAGES
      ensures parked ==> View() == old(View())
      ensures !parked ==> View() == old(View()).(megs := old(View()).megs + {(r, m)})
    {
      var l3 := PtAlloc();
      if !parked {
        AddBottomCells(tree, r, m);
        Store(l2, i2, TableDesc(l3), Zeroed(tree.mem, l3), AddBottom(tree, r, m));
      }
    }

    /** The third-level table for entry `i2` of that table. */
    method EnsureBottom(r: int, i1: int, i2: int, ghost m: int)
      requires Valid() && !parked && (r, i1) in View().gigs && 0 <= m < 0x4_0000
      requires i1 == m / 512 && i2 == m % 512
      modifies this, pool
      ensures Valid()
      ensures parked ==> View() == old(View()) && (r, m) !in View().megs && Tables(View()) == POOL_PAGES
      ensures !parked ==> View() == old(View()).(megs := old(View()).megs + {(r, m)})
    {
      assert MidOk(tree, (r, i1));
      PathWords(tree, r, m * 512);
      TableDescs(tree.mid[(r, i1)]);
      var l2 := NextTable(pool[r, i1]);
      if pool[l2, i2] % 2 == 0 {
        LinkBottom(r, l2, i2, m);
      } else {
        Present(View().megs, (r, m));
      }
    }

    /** Follow the three levels to the leaf word of `ipa`; `ok` is false when a
        table on the way is missing. */
    method FindLeaf(r: int, ipa: nat) returns (ok: bool, l3: int, i3: int)
      requires Valid() && r in View().roots
      ensures i3 == KeyOf(ipa) % 512
      ensures ok <==> (r, KeyOf(ipa) / 512) in View().megs
      ensures ok ==> (r, KeyOf(ipa) / 512) in tree.bot && 0 <= l3 == tree.bot[(r, KeyOf(ipa) / 512)] < POOL_PAGES
                     && pool[l3, i3] == LeafEntry(View(), (r, KeyOf(ipa)))
                     && (pool[l3, i3] % 2 == 1 <==> (r, KeyOf(ipa)) in View().leaf)
      ensures !ok ==> (r, KeyOf(ipa)) !in View().leaf
    {
      var i1, i2 := ipa / 0x4000_0000 % 512, ipa / 0x20_0000 % 512;
      i3 := ipa / 0x1000 % 512;
      l3 := 0;
      ghost var k := KeyOf(ipa);
      Indices(ipa);
      PathWords(tree, r, k);
      if pool[r, i1] % 2 == 0 {
        ok := false;
        return;
      }
      TableDescs(tree.mid[(r, i1)]);
      var l2 := NextTable(pool[r, i1]);
      if pool[l2, i2] % 2 == 0 {
        ok := false;
        return;
      }
      TableDescs(tree.bot[(r, k / 512)]);
      ok, l3 := true, NextTable(pool[l2, i2]);
    }

    /** Map one page. */
    method MapOne(r: int, ipa: nat, desc: int)
      requires Valid() && !parked && r in View().roots && desc % 4 == 3
      modifies this, pool
      ensures Valid() && View().roots == old(View()).roots
      ensures parked <==> Tables(MapPage(old(View()), r, KeyOf(ipa), desc)) > POOL_PAGES
      ensures !parked ==> View() == MapPage(old(View()), r, KeyOf(ipa), desc)
    {
      hide Tables;
      var i1, i2 := ipa / 0x4000_0000 % 512, ipa / 0x20_0000 % 512;
      ghost var k := KeyOf(ipa);
      ghost var s := View();
      Indices(ipa);
      EnsureMid(r, i1);
      if parked {
        NoRoomForMid(s, r, k, desc);
        return;
      }
      EnsureBottom(r, i1, i2, k / 512);
      if parked {
        NoRoomForBottom(s, r, k, desc);
        return;
      }
      var ok, l3, i3 := FindLeaf(r, ipa);
      SetLeafCells(tree, r, k, desc);
      Store(l3, i3, desc, tree.mem, SetLeaf(tree, r, k, desc));
      Capacity(tree);
    }

    method MapStep(r: int, ipa: u64, pa: u64, off: nat, flags: u64, ghost s: S2, ghost n: nat)
      requires Valid() && !parked && r in View().roots && off == 4096 * n
      requires View() == MapN(s, r, ipa, pa, n, flags)
      modifies this, pool
      ensures Valid() && View().roots == old(View()).roots
      ensures parked <==> Tables(MapN(s, r, ipa, pa, n + 1, flags)) > POOL_PAGES
      ensures !parked ==> View() == MapN(s, r, ipa, pa, n + 1, flags)
    {
      var cIpa, cPa := Add64(ipa, off), Add64(pa, off);
      PageDescValid(cPa, flags);
      MapOne(r, cIpa, PageDesc(cPa, flags));
    }

    method MapPages(r: int, ipa: u64, pa: u64, sz: u64, flags: u64, ghost s: S2, ghost total: nat)
      requires Valid() && !parked && r in View().roots && sz == 4096 * total
      requires View() == s == MapN(s, r, ipa, pa, 0, flags) && Tables(s) <= POOL_PAGES
      modifies this, pool
      ensures Valid() && View().roots == s.roots
      ensures parked <==> Tables(MapN(s, r, ipa, pa, total, flags)) > POOL_PAGES
      ensures !parked ==> View() == MapN(s, r, ipa, pa, total, flags)
    {
      hide MapN, Tables, Valid, View;
      var off := 0;
      ghost var n := 0;
      while off < sz
        invariant off == 4096 * n && 0 <= n <= total
        invariant Valid() && !parked && View().roots == s.roots
        invariant View() == MapN(s, r, ipa, pa, n, flags)
        invariant Tables(MapN(s, r, ipa, pa, n, flags)) <= POOL_PAGES
        decreases sz - off
      {
        MapStep(r, ipa, pa, off, flags, s, n);
        n := n + 1;
        if parked {
          MapNTablesGrow(s, r, ipa, pa, n, total, flags);
          return;
        }
        off := off + 4096;
      }
    }

    /** Map [ipa, ipa + sz) to [pa, pa + sz) page by page. `vm` is None for a
        null VM. Exhausting the pool parks the core part-way. */
    method Map(vm: Option<int>, ipa: u64, pa: u64, sz: u64, flags: u64) returns (e: Err)
      requires Valid() && !parked && (vm.Some? ==> vm.value in View().roots)
      modifies this, pool
      ensures Valid() && View().roots == old(View()).roots
      ensures e == if vm.None? || !Mappable(ipa, pa, sz) then Inval else Ok
      ensures e == Inval ==> !parked && View() == old(View())
      ensures e == Ok ==> (parked <==> Tables(MapN(old(View()), vm.value, ipa, pa, sz / 4096, flags)) > POOL_PAGES)
      ensures e == Ok && !parked ==> View() == MapN(old(View()), vm.value, ipa, pa, sz / 4096, flags)
    {
      if vm.None? || ipa % 4096 != 0 || pa % 4096 != 0 || sz % 4096 != 0 {
        return Inval;
      }
      Capacity(tree);
      MapPages(vm.value, ipa, pa, sz, flags, View(), sz / 4096);
      return Ok;
    }

    method UnmapOne(r: int, ipa: nat)
      requires Valid() && r in View().roots
      modifies this`tree, pool
      ensures Valid() && View() == old(View()).(leaf := old(View()).leaf - {(r, KeyOf(ipa))})
    {
      var ok, l3, i3 := FindLeaf(r, ipa);
      if ok && pool[l3, i3] % 2 == 1 {
        ClearLeafCells(tree, r, KeyOf(ipa));
        Store(l3, i3, 0, tree.mem, ClearLeaf(tree, r, KeyOf(ipa)));
      } else {
        Absent(View().leaf, (r, KeyOf(ipa)));
      }
    }

    method UnmapStep(r: int, ipa: u64, off: nat, ghost s: S2, ghost n: nat)
      requires Valid() && r in View().roots && off == 4096 * n
      requires View() == UnmapN(s, r, ipa, n)
      modifies this`tree, pool
      ensures Valid() && View().roots == old(View()).roots
      ensures View() == UnmapN(s, r, ipa, n + 1)
    {
      UnmapOne(r, Add64(ipa, off));
    }

    method UnmapPages(r: int, ipa: u64, sz: u64, ghost s: S2, ghost total: nat)
      requires Valid() && r in View().roots && sz == 4096 * total && View() == s == UnmapN(s, r, ipa, 0)
      modifies this`tree, pool
      ensures Valid() && View() == UnmapN(s, r, ipa, total)
    {
      hide UnmapN, Valid, View;
      var off := 0;
      ghost var n := 0;
      while off < sz
        invariant off == 4096 * n && 0 <= n <= total
        invariant Valid() && View().roots == s.roots
        invariant View() == UnmapN(s, r, ipa, n)
        decreases sz - off
      {
        UnmapStep(r, ipa, off, s, n);
        n := n + 1;
        off := off + 4096;
      }
    }

    /** Remove [ipa, ipa + sz); tables that become empty stay in place. */
    method Unmap(vm: Option<int>, ipa: u64, sz: u64) returns (e: Err)
      requires Valid() && (vm.Some? ==> vm.value in View().roots)
      modifies this`tree, pool
      ensures Valid()
      ensures e == if vm.None? || !Mappable(ipa, 0, sz) then Inval else Ok
      ensures e == Inval ==> View() == old(View())
      ensures e == Ok ==> View() == UnmapN(old(View()), vm.value, ipa, sz / 4096)
    {
      if vm.None? || ipa % 4096 != 0 || sz % 4096 != 0 {
        return Inval;
      }
      UnmapPages(vm.value, ipa, sz, View(), sz / 4096);
      return Ok;
    }

    /** Whether some page of the range is mapped. The loop counter is a 64-bit word: for
        a size in the last page of the address space it comes round to zero, and the
        search goes through the same pages for ever unless one of them is mapped. */
    method IsMapped(vm: Option<int>, ipa: u64, sz: u64) returns (found: Option<bool>)
      requires Valid() && (vm.Some? ==> vm.value in View().roots)
      ensures found == if vm.Some? && AnyMapped(View(), vm.value, ipa, sz) then Some(true)
                       else if vm.Some? && sz > 0xFFFF_FFFF_FFFF_F000 then None else Some(false)
    {
      if vm.None? {
        return Some(false);
      }
      var r := vm.value;
      var off := 0;
      ghost var n := 0;
      while off < sz
        invariant off == 4096 * n <= 0xFFFF_FFFF_FFFF_F000
        invariant forall i: nat :: i < n ==> (r, Hit(ipa, i)) !in View().leaf
        decreases sz - off
      {
        var ok, l3, i3 := FindLeaf(r, Add64(ipa, off));
        assert KeyOf(Add64(ipa, off)) == Hit(ipa, n);
        if ok && pool[l3, i3] % 2 == 1 {
          return Some(true);
        }
        n := n + 1;
        if Add64(off, 4096) == 0 {
          return None;
        }
        off := Add64(off, 4096);
      }
      return Some(false);
    }

    /** The debug walker: the physical address behind `ipa`, if it is mapped. */
    method Walk(r: int, ipa: u64) returns (pa: Option<int>)
      requires Valid() && r in View().roots
      ensures pa == match LookUp(View(), r, KeyOf(ipa))
                    case None => None
                    case Some(desc) => Some(WalkedPa(desc, ipa))
    {
      var i1, i2, i3 := ipa / 0x4000_0000 % 512, ipa / 0x20_0000 % 512, ipa / 0x1000 % 512;
      ghost var k := KeyOf(ipa);
      Indices(ipa);
      PathWords(tree, r, k);
      var l1e := pool[r, i1];
      if l1e % 4 != 3 {
        return None;
      }
      TableDescs(tree.mid[(r, i1)]);
      var l2e := pool[l1e % 0x1_0000_0000_0000 / 4096, i2];
      if l2e % 4 != 3 {
        return None;
      }
      TableDescs(tree.bot[(r, k / 512)]);
      var l3e := pool[l2e % 0x1_0000_0000_0000 / 4096, i3];
      if l3e % 4 == 3 {
        return Some(WalkedPa(l3e, ipa));
      }
      return None;
    }
  }
}
