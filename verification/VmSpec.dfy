/** What a VM's memory-region list means for its stage-2 map: building the map
    from the list, tearing it down, and building it again. */
module VmSpec {
  import opened Words
  import opened Stage2Spec

  const MEM_X: nat := 0x4

  const S2_AF: nat := 0x400
  const S2_SH_INNER: nat := 0x300
  const S2_S2AP_RW: nat := 0xC0
  const S2_MEMATTR_WB: nat := 0x3C
  const S2_MEMATTR_DEV: nat := 0x4
  const S2_XN: nat := 0x40_0000_0000_0000

  datatype Kind = Linux | Rtos | Android

  datatype Region = Region(pa: u64, ipa: u64, size: u64, flags: u32)

  /** Access flag, inner shareable and read-write always; device or write-back
      by the I/O bit; execute-never unless the region is executable. The fields
      have no bit in common, so ORing them is adding them. */
  function Attributes(flags: nat): (a: u64)
    ensures CleanFlags(a)
  {
    S2_AF + S2_SH_INNER + S2_S2AP_RW
    + (if flags / 8 % 2 == 1 then S2_MEMATTR_DEV else S2_MEMATTR_WB)
    + (if flags / 4 % 2 == 1 then 0 else S2_XN)
  }

  /** Field by field: memory type in bits 5 to 2 (15 write-back, 1 device), access in 7
      to 6, shareability in 9 to 8, access flag in 10, execute-never in 54; flag bit 3
      says device, flag bit 2 says executable. */
  lemma AttributeBits(flags: nat)
    ensures var a := Attributes(flags);
            && a / 4 % 16 == (if flags / 8 % 2 == 1 then 1 else 15)
            && a / 0x40 % 4 == 3 && a / 0x100 % 4 == 3 && a / 0x400 % 2 == 1
            && a / 0x40_0000_0000_0000 == (if flags / 4 % 2 == 1 then 0 else 1)
  {
    var io, xn := if flags / 8 % 2 == 1 then 1 else 15, if flags / 4 % 2 == 1 then 0 else 1;
    var a := Attributes(flags);
    assert a == 0x40_0000_0000_0000 * xn + 0x7C0 + 4 * io;
    DivMod(a, 4, 0x10_0000_0000_0000 * xn + 0x1F0 + io, 0);
    DivMod(0x10_0000_0000_0000 * xn + 0x1F0 + io, 16, 0x1_0000_0000_0000 * xn + 0x1F, io);
    DivMod(a, 0x40, 0x1_0000_0000_0000 * xn + 0x1F, 4 * io);
    DivMod(0x1_0000_0000_0000 * xn + 0x1F, 4, 0x4000_0000_0000 * xn + 7, 3);
    DivMod(a, 0x100, 0x4000_0000_0000 * xn + 7, 0xC0 + 4 * io);
    DivMod(0x4000_0000_0000 * xn + 7, 4, 0x1000_0000_0000 * xn + 1, 3);
    DivMod(a, 0x400, 0x1000_0000_0000 * xn + 1, 0x3C0 + 4 * io);
    DivMod(0x1000_0000_0000 * xn + 1, 2, 0x800_0000_0000 * xn, 1);
    DivMod(a, 0x40_0000_0000_0000, xn, 0x7C0 + 4 * io);
  }

  function Pages(g: Region): nat {
    g.size / 4096
  }

  predicate Aligned(g: Region) {
    Mappable(g.ipa, g.pa, g.size)
  }

  function MapRegion(s: S2, r: int, g: Region): S2 {
    MapN(s, r, g.ipa, g.pa, Pages(g), Attributes(g.flags))
  }

  /** Regions are mapped in list order. */
  function MapRegions(s: S2, r: int, mem: seq<Region>): S2 {
    if mem == [] then s
    else MapRegion(MapRegions(s, r, mem[..|mem| - 1]), r, mem[|mem| - 1])
  }

  /** How many regions are mapped before one is refused for its alignment. */
  function Good(mem: seq<Region>): (n: nat)
    ensures n <= |mem| && (n < |mem| ==> !Aligned(mem[n]))
    ensures forall i :: 0 <= i < n ==> Aligned(mem[i])
  {
    if mem == [] then 0
    else
      var n := Good(mem[..|mem| - 1]);
      if n == |mem| - 1 && Aligned(mem[|mem| - 1]) then n + 1 else n
  }

  /** The frame of the extra page a Linux guest gets at 0x2BF000. */
  function FaultFrame(mem: seq<Region>): u64 {
    Add64(if mem == [] then 0 else mem[0].pa, 0x2B_F000)
  }

  predicate ExtraPage(kind: Kind, mem: seq<Region>) {
    kind == Linux && FaultFrame(mem) % 4096 == 0
  }

  function MapExtra(s: S2, r: int, mem: seq<Region>): S2 {
    MapN(s, r, 0x2B_F000, FaultFrame(mem), 1, Attributes(MEM_X))
  }

  /** The page map after the table-building part of finalizing a VM. */
  function Built(s: S2, r: int, kind: Kind, mem: seq<Region>): S2 {
    var t := MapRegions(s, r, mem[..Good(mem)]);
    if Good(mem) == |mem| && ExtraPage(kind, mem) then MapExtra(t, r, mem) else t
  }

  predicate Unmappable(g: Region) {
    Mappable(g.ipa, 0, g.size)
  }

  /** The page map after a VM was stopped. */
  function Cleared(s: S2, r: int, mem: seq<Region>): S2 {
    if mem == [] then s
    else
      var t := Cleared(s, r, mem[..|mem| - 1]);
      var g := mem[|mem| - 1];
      if Unmappable(g) then UnmapN(t, r, g.ipa, Pages(g)) else t
  }

  // ---------- the last region that covers a page wins ----------

  predicate RegionCovers(g: Region, k: int) {
    Covers(g.ipa, Pages(g), k)
  }

  function RegionDesc(g: Region, k: int): int
    requires RegionCovers(g, k)
  {
    PageDesc(Frame(g.pa, LastHit(g.ipa, Pages(g), k)), Attributes(g.flags))
  }

  /** `j` is the last region of the list that covers `k`. */
  predicate LastCover(mem: seq<Region>, k: int, j: int) {
    0 <= j < |mem| && RegionCovers(mem[j], k) && forall i :: j < i < |mem| ==> !RegionCovers(mem[i], k)
  }

  predicate AnyCovers(mem: seq<Region>, k: int) {
    exists i :: 0 <= i < |mem| && RegionCovers(mem[i], k)
  }

  /** What the region list alone says about page `k`. */
  function Expected(mem: seq<Region>, k: int): Option<int> {
    if mem == [] then None
    else if RegionCovers(mem[|mem| - 1], k) then Some(RegionDesc(mem[|mem| - 1], k))
    else Expected(mem[..|mem| - 1], k)
  }

  lemma {:induction false} ExpectedIsLast(mem: seq<Region>, k: int)
    ensures forall j :: LastCover(mem, k, j) ==> Expected(mem, k) == Some(RegionDesc(mem[j], k))
    ensures Expected(mem, k).Some? <==> AnyCovers(mem, k)
  {
    if mem != [] && !RegionCovers(mem[|mem| - 1], k) {
      var init := mem[..|mem| - 1];
      ExpectedIsLast(init, k);
      forall j | LastCover(mem, k, j) ensures LastCover(init, k, j) {
        assert init[j] == mem[j];
      }
      AnyCoversInit(mem, k);
    }
  }

  lemma AnyCoversInit(mem: seq<Region>, k: int)
    requires mem != []
    ensures AnyCovers(mem, k) <==> AnyCovers(mem[..|mem| - 1], k) || RegionCovers(mem[|mem| - 1], k)
  {
    var init := mem[..|mem| - 1];
    if AnyCovers(init, k) {
      var i :| 0 <= i < |init| && RegionCovers(init[i], k);
      assert RegionCovers(mem[i], k);
    }
    if AnyCovers(mem, k) {
      var i :| 0 <= i < |mem| && RegionCovers(mem[i], k);
      if i < |mem| - 1 {
        assert RegionCovers(init[i], k);
      }
    }
  }

  lemma {:induction false} MapRegionsLeaf(s: S2, r: int, mem: seq<Region>, r': int, k: int)
    ensures LookUp(MapRegions(s, r, mem), r', k)
         == if r' == r && Expected(mem, k).Some? then Expected(mem, k) else LookUp(s, r', k)
  {
    if mem != [] {
      var init, g := mem[..|mem| - 1], mem[|mem| - 1];
      MapRegionsLeaf(s, r, init, r', k);
      MapNLeaf(MapRegions(s, r, init), r, g.ipa, g.pa, Pages(g), Attributes(g.flags), r', k);
    }
  }

  predicate AllAligned(mem: seq<Region>) {
    forall i :: 0 <= i < |mem| ==> Aligned(mem[i])
  }

  /** What a finalized VM's own regions, and its extra page, say about `k`. */
  function VmExpected(kind: Kind, mem: seq<Region>, k: int): Option<int> {
    if ExtraPage(kind, mem) && k == 0x2BF then Some(PageDesc(FaultFrame(mem), Attributes(MEM_X)))
    else Expected(mem, k)
  }

  lemma OnePageLeaf(s: S2, r: int, pa: u64, flags: nat, r': int, k: int)
    ensures LookUp(MapN(s, r, 0x2B_F000, pa, 1, flags), r', k)
         == if r' == r && k == 0x2BF then Some(PageDesc(pa, flags)) else LookUp(s, r', k)
  {
    MapNLeaf(s, r, 0x2B_F000, pa, 1, flags, r', k);
    CoversPlain(0x2B_F000, 1, k);
    assert Frame(pa, 0) == pa;
  }

  lemma MapExtraLeaf(s: S2, r: int, mem: seq<Region>, r': int, k: int)
    ensures LookUp(MapExtra(s, r, mem), r', k)
         == if r' == r && k == 0x2BF then Some(PageDesc(FaultFrame(mem), Attributes(MEM_X))) else LookUp(s, r', k)
  {
    OnePageLeaf(s, r, FaultFrame(mem), Attributes(MEM_X), r', k);
  }

  lemma BuiltLeaf(s: S2, r: int, kind: Kind, mem: seq<Region>, r': int, k: int)
    requires AllAligned(mem)
    ensures LookUp(Built(s, r, kind, mem), r', k)
         == if r' == r && VmExpected(kind, mem, k).Some? then VmExpected(kind, mem, k) else LookUp(s, r', k)
  {
    assert mem[..Good(mem)] == mem;
    MapRegionsLeaf(s, r, mem, r', k);
    MapExtraLeaf(MapRegions(s, r, mem), r, mem, r', k);
  }

  /** After a VM is finalized from any starting tables: the Linux page, if the VM
      has one, maps to its frame; every other page translates by the last region
      in the list that covers it; and pages that no region covers, like all pages
      of other VMs, are as before. */
  lemma LastRegionWins(s: S2, r: int, kind: Kind, mem: seq<Region>, r': int, k: int)
    requires AllAligned(mem)
    ensures ExtraPage(kind, mem) && k == 0x2BF ==>
              LookUp(Built(s, r, kind, mem), r, k) == Some(PageDesc(FaultFrame(mem), Attributes(MEM_X)))
    ensures !(ExtraPage(kind, mem) && k == 0x2BF) ==> forall j :: LastCover(mem, k, j) ==>
              LookUp(Built(s, r, kind, mem), r, k) == Some(RegionDesc(mem[j], k))
    ensures r' != r || !((ExtraPage(kind, mem) && k == 0x2BF) || AnyCovers(mem, k)) ==>
              LookUp(Built(s, r, kind, mem), r', k) == LookUp(s, r', k)
  {
    BuiltLeaf(s, r, kind, mem, r, k);
    BuiltLeaf(s, r, kind, mem, r', k);
    ExpectedIsLast(mem, k);
  }

  /** A walk of a finalized VM's tables adds the offset inside the last covering
      region to that region's physical base, under that region's attributes. */
  lemma WalkReadsRegion(s: S2, r: int, kind: Kind, mem: seq<Region>, j: int, ipa: nat)
    requires AllAligned(mem) && 0 <= j < |mem|
    requires mem[j].ipa <= ipa < mem[j].ipa + mem[j].size <= 0x80_0000_0000
    requires mem[j].pa + mem[j].size <= 0x1_0000_0000_0000
    requires forall i :: j < i < |mem| ==> !RegionCovers(mem[i], KeyOf(ipa))
    requires !(ExtraPage(kind, mem) && KeyOf(ipa) == 0x2BF)
    ensures var d := LookUp(Built(s, r, kind, mem), r, KeyOf(ipa));
            d.Some?
            && WalkedPa(d.value, ipa) == mem[j].pa + (ipa - mem[j].ipa)
            && d.value == mem[j].pa + (ipa - mem[j].ipa) - ipa % 4096 + Attributes(mem[j].flags) + 3
  {
    assert Aligned(mem[j]);
    RegionFrame(mem[j], ipa);
    LastRegionWins(s, r, kind, mem, r, KeyOf(ipa));
    assert LastCover(mem, KeyOf(ipa), j);
    RegionWalk(mem[j], ipa);
  }

  /** A walk of the extra page of a Linux VM goes to the same offset in its first region's
      memory, normal write-back and executable. */
  lemma WalkReadsExtra(s: S2, r: int, mem: seq<Region>, x: nat)
    requires AllAligned(mem) && mem != [] && mem[0].pa + 0x2B_F000 < 0x1_0000_0000_0000 && x < 4096
    ensures var d := LookUp(Built(s, r, Linux, mem), r, 0x2BF);
            && KeyOf(0x2B_F000 + x) == 0x2BF && d.Some?
            && WalkedPa(d.value, 0x2B_F000 + x) == mem[0].pa + 0x2B_F000 + x
            && d.value == mem[0].pa + 0x2B_F000 + 0x7FF
  {
    hide Built, PageDesc, WalkedPa, Attributes, KeyOf;
    var frame := mem[0].pa + 0x2B_F000;
    ExtraFrame(mem, x);
    LastRegionWins(s, r, Linux, mem, r, 0x2BF);
    ExtraDesc(frame, 0x2B_F000 + x);
    DivMod(0x2B_F000 + x, 4096, 0x2BF, x);
  }

  lemma ExtraFrame(mem: seq<Region>, x: nat)
    requires AllAligned(mem) && mem != [] && mem[0].pa + 0x2B_F000 < 0x1_0000_0000_0000 && x < 4096
    ensures FaultFrame(mem) == mem[0].pa + 0x2B_F000 && FaultFrame(mem) % 4096 == 0 && KeyOf(0x2B_F000 + x) == 0x2BF
  {
    var frame := mem[0].pa + 0x2B_F000;
    assert Aligned(mem[0]);
    DivMod(frame, 4096, mem[0].pa / 4096 + 0x2BF, 0);
    DivMod(frame, 0x1_0000_0000_0000_0000, 0, frame);
    DivMod(0x2B_F000 + x, 4096, 0x2BF, x);
  }

  lemma ExtraDesc(frame: nat, ipa: nat)
    requires frame % 4096 == 0 && frame < 0x1_0000_0000_0000
    ensures PageDesc(frame, Attributes(MEM_X)) == frame + 0x7FF
    ensures WalkedPa(PageDesc(frame, Attributes(MEM_X)), ipa) == frame + ipa % 4096
  {
    hide PageDesc, WalkedPa;
    assert Attributes(MEM_X) == 0x7FC;
    PageDescFields(frame, Attributes(MEM_X), ipa);
  }

  lemma RegionFrame(g: Region, ipa: nat)
    requires Aligned(g) && g.ipa <= ipa < g.ipa + g.size <= 0x80_0000_0000
    requires g.pa + g.size <= 0x1_0000_0000_0000
    ensures RegionCovers(g, KeyOf(ipa))
    ensures Frame(g.pa, LastHit(g.ipa, Pages(g), KeyOf(ipa))) == g.pa + (ipa - g.ipa) - ipa % 4096
  {
    DivMod(ipa / 4096, 0x800_0000, 0, ipa / 4096);
    CoversPlain(g.ipa, Pages(g), ipa / 4096);
    var frame := g.pa + (ipa - g.ipa) - ipa % 4096;
    DivMod(frame, 0x1_0000_0000_0000_0000, 0, frame);
  }

  lemma RegionWalk(g: Region, ipa: nat)
    requires Aligned(g) && g.ipa <= ipa < g.ipa + g.size <= 0x80_0000_0000
    requires g.pa + g.size <= 0x1_0000_0000_0000
    ensures RegionCovers(g, KeyOf(ipa))
    ensures var d := RegionDesc(g, KeyOf(ipa));
            WalkedPa(d, ipa) == g.pa + (ipa - g.ipa)
            && d == g.pa + (ipa - g.ipa) - ipa % 4096 + Attributes(g.flags) + 3
  {
    RegionFrame(g, ipa);
    var frame := g.pa + (ipa - g.ipa) - ipa % 4096;
    assert frame % 4096 == 0;
    PageDescFields(frame, Attributes(g.flags), ipa);
  }

  /** Some region that can be unmapped covers the page. */
  predicate Swept(mem: seq<Region>, k: int) {
    exists i :: 0 <= i < |mem| && Unmappable(mem[i]) && RegionCovers(mem[i], k)
  }

  lemma SweptInit(mem: seq<Region>, k: int)
    requires mem != []
    ensures var g := mem[|mem| - 1];
            Swept(mem, k) <==> Swept(mem[..|mem| - 1], k) || (Unmappable(g) && RegionCovers(g, k))
  {
    var init := mem[..|mem| - 1];
    if Swept(init, k) {
      var i :| 0 <= i < |init| && Unmappable(init[i]) && RegionCovers(init[i], k);
      assert mem[i] == init[i];
    }
    if Swept(mem, k) {
      var i :| 0 <= i < |mem| && Unmappable(mem[i]) && RegionCovers(mem[i], k);
      assert i < |init| ==> init[i] == mem[i];
    }
  }

  /** Stopping removes exactly the pages of the regions that can be unmapped; a misaligned
      one is passed over. */
  lemma {:induction false} ClearedLeaf(s: S2, r: int, mem: seq<Region>, r': int, k: int)
    ensures LookUp(Cleared(s, r, mem), r', k) == if r' == r && Swept(mem, k) then None else LookUp(s, r', k)
  {
    hide Unmappable, RegionCovers;
    if mem != [] {
      var init, g := mem[..|mem| - 1], mem[|mem| - 1];
      ClearedLeaf(s, r, init, r', k);
      SweptInit(mem, k);
      if Unmappable(g) { UnmapRegion(Cleared(s, r, init), r, g, r', k); }
    }
  }

  lemma UnmapRegion(s: S2, r: int, g: Region, r': int, k: int)
    ensures LookUp(UnmapN(s, r, g.ipa, Pages(g)), r', k) == if r' == r && RegionCovers(g, k) then None else LookUp(s, r', k)
  {
    UnmapNLeaf(s, r, g.ipa, Pages(g), r', k);
  }

  lemma ClearedAligned(s: S2, r: int, mem: seq<Region>, r': int, k: int)
    requires AllAligned(mem)
    ensures LookUp(Cleared(s, r, mem), r', k) == if r' == r && AnyCovers(mem, k) then None else LookUp(s, r', k)
  {
    hide Cleared, LookUp, RegionCovers;
    ClearedLeaf(s, r, mem, r', k);
    if AnyCovers(mem, k) {
      var i :| 0 <= i < |mem| && RegionCovers(mem[i], k);
      assert Aligned(mem[i]);
    }
  }

  lemma {:induction false} ClearedTables(s: S2, r: int, mem: seq<Region>)
    ensures var t := Cleared(s, r, mem);
            t.roots == s.roots && t.gigs == s.gigs && t.megs == s.megs
  {
    if mem != [] {
      ClearedTables(s, r, mem[..|mem| - 1]);
      var g := mem[|mem| - 1];
      UnmapNTables(Cleared(s, r, mem[..|mem| - 1]), r, g.ipa, Pages(g));
    }
  }

  // ---------- windows ----------

  function RegionGigs(r: int, mem: seq<Region>): set<(int, int)> {
    if mem == [] then {}
    else RegionGigs(r, mem[..|mem| - 1]) + Gigs(r, mem[|mem| - 1].ipa, Pages(mem[|mem| - 1]))
  }

  function RegionMegs(r: int, mem: seq<Region>): set<(int, int)> {
    if mem == [] then {}
    else RegionMegs(r, mem[..|mem| - 1]) + Megs(r, mem[|mem| - 1].ipa, Pages(mem[|mem| - 1]))
  }

  function VmGigs(r: int, kind: Kind, mem: seq<Region>): set<(int, int)> {
    RegionGigs(r, mem[..Good(mem)])
    + if Good(mem) == |mem| && ExtraPage(kind, mem) then Gigs(r, 0x2B_F000, 1) else {}
  }

  function VmMegs(r: int, kind: Kind, mem: seq<Region>): set<(int, int)> {
    RegionMegs(r, mem[..Good(mem)])
    + if Good(mem) == |mem| && ExtraPage(kind, mem) then Megs(r, 0x2B_F000, 1) else {}
  }

  lemma {:induction false} MapRegionsWindows(s: S2, r: int, mem: seq<Region>)
    ensures var t := MapRegions(s, r, mem);
            t.roots == s.roots && t.gigs == s.gigs + RegionGigs(r, mem) && t.megs == s.megs + RegionMegs(r, mem)
  {
    if mem != [] {
      var init, g := mem[..|mem| - 1], mem[|mem| - 1];
      MapRegionsWindows(s, r, init);
      MapNWindows(MapRegions(s, r, init), r, g.ipa, g.pa, Pages(g), Attributes(g.flags));
    }
  }

  lemma BuiltWindows(s: S2, r: int, kind: Kind, mem: seq<Region>)
    ensures var t := Built(s, r, kind, mem);
            t.roots == s.roots && t.gigs == s.gigs + VmGigs(r, kind, mem) && t.megs == s.megs + VmMegs(r, kind, mem)
  {
    var good := mem[..Good(mem)];
    MapRegionsWindows(s, r, good);
    if Good(mem) == |mem| && ExtraPage(kind, mem) {
      MapNWindows(MapRegions(s, r, good), r, 0x2B_F000, FaultFrame(mem), 1, Attributes(MEM_X));
    }
  }

  /** Pages taken never shrink along the region list, nor by the extra page. */
  lemma BuiltGrows(s: S2, r: int, kind: Kind, mem: seq<Region>, n: nat)
    requires n <= Good(mem)
    ensures Tables(MapRegions(s, r, mem[..n])) <= Tables(Built(s, r, kind, mem))
  {
    RegionsGrow(s, r, mem[..Good(mem)], n);
    assert mem[..Good(mem)][..n] == mem[..n];
    MapNTablesGrow(MapRegions(s, r, mem[..Good(mem)]), r, 0x2B_F000, FaultFrame(mem), 0, 1, Attributes(MEM_X));
  }

  lemma {:induction false} RegionsGrow(s: S2, r: int, mem: seq<Region>, n: nat)
    requires n <= |mem|
    ensures Tables(MapRegions(s, r, mem[..n])) <= Tables(MapRegions(s, r, mem))
  {
    if n == |mem| {
      assert mem[..n] == mem;
    } else {
      var init, g := mem[..|mem| - 1], mem[|mem| - 1];
      RegionsGrow(s, r, init, n);
      assert init[..n] == mem[..n];
      MapNTablesGrow(MapRegions(s, r, init), r, g.ipa, g.pa, 0, Pages(g), Attributes(g.flags));
    }
  }

  lemma {:induction false} GoodAt(mem: seq<Region>, n: nat)
    requires n <= |mem| && (forall i :: 0 <= i < n ==> Aligned(mem[i])) && (n < |mem| ==> !Aligned(mem[n]))
    ensures Good(mem) == n
  {
  }

  /** Every table page that finalizing the VM needs is already there. */
  predicate Reserved(s: S2, r: int, kind: Kind, mem: seq<Region>) {
    VmGigs(r, kind, mem) <= s.gigs && VmMegs(r, kind, mem) <= s.megs
  }

  /** Stopping a VM and finalizing it again takes no page from the pool. */
  lemma RebuildTakesNoPage(s: S2, r: int, kind: Kind, mem: seq<Region>)
    requires Reserved(s, r, kind, mem)
    ensures var t := Built(Cleared(s, r, mem), r, kind, mem);
            t.roots == s.roots && t.gigs == s.gigs && t.megs == s.megs
  {
    ClearedTables(s, r, mem);
    BuiltWindows(Cleared(s, r, mem), r, kind, mem);
    assert s.gigs + VmGigs(r, kind, mem) == s.gigs;
    assert s.megs + VmMegs(r, kind, mem) == s.megs;
  }

  lemma SameLeaf(a: S2, b: S2)
    requires forall r, k :: LookUp(a, r, k) == LookUp(b, r, k)
    ensures a.leaf == b.leaf
  {
    forall x | x in a.leaf ensures x in b.leaf && a.leaf[x] == b.leaf[x] {
      assert LookUp(a, x.0, x.1) == LookUp(b, x.0, x.1);
      assert x == (x.0, x.1);
    }
    forall x | x in b.leaf ensures x in a.leaf {
      assert LookUp(a, x.0, x.1) == LookUp(b, x.0, x.1);
      assert x == (x.0, x.1);
    }
  }

  /** Finalize, stop, finalize: the tables are exactly those of the first time. */
  lemma RebuildRestores(s: S2, r: int, kind: Kind, mem: seq<Region>)
    requires AllAligned(mem)
    ensures Built(Cleared(Built(s, r, kind, mem), r, mem), r, kind, mem) == Built(s, r, kind, mem)
  {
    var t := Built(s, r, kind, mem);
    var u := Cleared(t, r, mem);
    var v := Built(u, r, kind, mem);
    BuiltWindows(s, r, kind, mem);
    RebuildTakesNoPage(t, r, kind, mem);
    forall r', k ensures LookUp(v, r', k) == LookUp(t, r', k) {
      BuiltLeaf(u, r, kind, mem, r', k);
      BuiltLeaf(s, r, kind, mem, r', k);
      ClearedAligned(t, r, mem, r', k);
      ExpectedIsLast(mem, k);
    }
    SameLeaf(v, t);
  }
}
