/** How many pool pages the stage-2 tables take: exact accounting over any history
    of creates, maps and unmaps, and the boot profile as an instance. */
module TableBudget {
  import opened Words
  import opened Stage2Spec
  import opened VmSpec

  datatype Op =
    | CreateOp(root: int)
    | MapOp(root: int, ipa: u64, pa: u64, pages: nat, flags: nat)
    | UnmapOp(root: int, ipa: u64, pages: nat)

  function Apply(s: S2, op: Op): S2 {
    match op
    case CreateOp(r) => Create(s, r)
    case MapOp(r, ipa, pa, n, flags) => MapN(s, r, ipa, pa, n, flags)
    case UnmapOp(r, ipa, n) => UnmapN(s, r, ipa, n)
  }

  function ApplyAll(s: S2, ops: seq<Op>): S2 {
    if ops == [] then s else Apply(ApplyAll(s, ops[..|ops| - 1]), ops[|ops| - 1])
  }

  /** VMs ever created, and windows ever mapped, whatever was unmapped since. */
  function RootsEver(ops: seq<Op>): set<int> {
    set i | 0 <= i < |ops| && ops[i].CreateOp? :: ops[i].root
  }

  function GigsEver(ops: seq<Op>): set<(int, int)> {
    set i, w | 0 <= i < |ops| && ops[i].MapOp? && w in Gigs(ops[i].root, ops[i].ipa, ops[i].pages) :: w
  }

  function MegsEver(ops: seq<Op>): set<(int, int)> {
    set i, w | 0 <= i < |ops| && ops[i].MapOp? && w in Megs(ops[i].root, ops[i].ipa, ops[i].pages) :: w
  }

  /** Pages used: one per VM, one per distinct 1 GB window and one per distinct 2 MB
      window ever mapped; unmapping never gives one back. */
  lemma {:induction false} PoolAccounting(ops: seq<Op>)
    ensures var s := ApplyAll(Empty, ops);
            s.roots == RootsEver(ops) && s.gigs == GigsEver(ops) && s.megs == MegsEver(ops)
    ensures Tables(ApplyAll(Empty, ops)) == |RootsEver(ops)| + |GigsEver(ops)| + |MegsEver(ops)|
  {
    if ops != [] {
      var init, op := ops[..|ops| - 1], ops[|ops| - 1];
      var s := ApplyAll(Empty, init);
      PoolAccounting(init);
      EverStep(ops);
      match op {
        case CreateOp(r) =>
        case MapOp(r, ipa, pa, n, flags) => MapNWindows(s, r, ipa, pa, n, flags);
        case UnmapOp(r, ipa, n) => UnmapNTables(s, r, ipa, n);
      }
    }
  }

  lemma EverStep(ops: seq<Op>)
    requires ops != []
    ensures var init, op := ops[..|ops| - 1], ops[|ops| - 1];
            && RootsEver(ops) == RootsEver(init) + (if op.CreateOp? then {op.root} else {})
            && GigsEver(ops) == GigsEver(init) + (if op.MapOp? then Gigs(op.root, op.ipa, op.pages) else {})
            && MegsEver(ops) == MegsEver(init) + (if op.MapOp? then Megs(op.root, op.ipa, op.pages) else {})
  {
    var init, op := ops[..|ops| - 1], ops[|ops| - 1];
    assert ops == init + [op];
    assert forall i :: 0 <= i < |init| ==> ops[i] == init[i];
  }

  // ---------- windows of a plain range ----------

  function Span(r: int, lo: int, hi: int): set<(int, int)> {
    set w | lo <= w < hi :: (r, w)
  }

  lemma {:induction false} SpanSize(r: int, lo: int, hi: int)
    requires lo <= hi
    ensures |Span(r, lo, hi)| == hi - lo
    decreases hi - lo
  {
    if lo < hi {
      SpanSize(r, lo, hi - 1);
      assert Span(r, lo, hi) == Span(r, lo, hi - 1) + {(r, hi - 1)};
    }
  }

  /** The 2 MB windows of n pages from page a. */
  lemma MegsSpan(r: int, ipa: nat, n: nat)
    requires n > 0 && ipa / 4096 + n <= 0x800_0000
    ensures Megs(r, ipa, n) == Span(r, ipa / 4096 / 512, (ipa / 4096 + n - 1) / 512 + 1)
  {
    var a := ipa / 4096;
    forall i: nat | i < n ensures Hit(ipa, i) == a + i {
      HitForm(ipa, i);
      DivMod(a + i, 0x800_0000, 0, a + i);
    }
    forall x | x in Span(r, a / 512, (a + n - 1) / 512 + 1) ensures x in Megs(r, ipa, n) {
      var i := if x.1 * 512 <= a then 0 else x.1 * 512 - a;
      assert i < n && Hit(ipa, i) / 512 == x.1;
    }
  }

  lemma GigsSpan(r: int, ipa: nat, n: nat)
    requires n > 0 && ipa / 4096 + n <= 0x800_0000
    ensures Gigs(r, ipa, n) == Span(r, ipa / 4096 / 0x4_0000, (ipa / 4096 + n - 1) / 0x4_0000 + 1)
  {
    var a := ipa / 4096;
    forall i: nat | i < n ensures Hit(ipa, i) == a + i {
      HitForm(ipa, i);
      DivMod(a + i, 0x800_0000, 0, a + i);
    }
    forall x | x in Span(r, a / 0x4_0000, (a + n - 1) / 0x4_0000 + 1) ensures x in Gigs(r, ipa, n) {
      var i := if x.1 * 0x4_0000 <= a then 0 else x.1 * 0x4_0000 - a;
      assert i < n && Hit(ipa, i) / 0x4_0000 == x.1;
    }
  }

  // ---------- the boot profile ----------

  const LinuxRegions: seq<Region> := [
    Region(0x4100_0000, 0x0, 0x800_0000, 7),
    Region(0x5100_0000, 0x1000_0000, 0x4000_0000, 7),
    Region(0x900_0000, 0x900_0000, 0x1000, 11),
    Region(0x800_0000, 0x800_0000, 0x10_0000, 11),
    Region(0x80A_0000, 0x80A_0000, 0x20_0000, 11),
    Region(0x40F0_0000, 0xA00_0000, 0x1000, 3),
    Region(0xB00_0000, 0xB00_0000, 0x1000, 11)
  ]

  const RtosRegions: seq<Region> := [
    Region(0x6000_0000, 0x0, 0xF00_0000, 7),
    Region(0x900_0000, 0x900_0000, 0x1000, 11),
    Region(0xB00_1000, 0xB00_1000, 0x1000, 11)
  ]

  const AndroidRegions: seq<Region> := [
    Region(0x7000_0000, 0x0, 0x2000_0000, 7),
    Region(0x900_0000, 0x900_0000, 0x1000, 11),
    Region(0xB00_2000, 0xB00_2000, 0x1000, 11)
  ]

  lemma ProfilesAligned()
    ensures AllAligned(LinuxRegions) && AllAligned(RtosRegions) && AllAligned(AndroidRegions)
  {
  }

  /** The tables after a Linux, an RTOS and an Android VM were created and finalized. */
  function BootTables(m0: seq<Region>, m1: seq<Region>, m2: seq<Region>): S2 {
    var s := Create(Create(Create(Empty, 0), 1), 2);
    Built(Built(Built(s, 0, Linux, m0), 1, Rtos, m1), 2, Android, m2)
  }

  lemma {:induction false} RegionWindows(r: int, mem: seq<Region>, w: (int, int))
    ensures w in RegionMegs(r, mem) <==> exists i :: 0 <= i < |mem| && w in Megs(r, mem[i].ipa, Pages(mem[i]))
    ensures w in RegionGigs(r, mem) <==> exists i :: 0 <= i < |mem| && w in Gigs(r, mem[i].ipa, Pages(mem[i]))
  {
    if mem != [] {
      var init, g := mem[..|mem| - 1], mem[|mem| - 1];
      RegionWindows(r, init, w);
      assert forall i :: 0 <= i < |init| ==> mem[i] == init[i];
    }
  }

  predicate PlainRegion(g: Region) {
    Aligned(g) && 0 < g.size && g.ipa + g.size <= 0x80_0000_0000
  }

  /** 2 MB and 1 GB windows of a plain region, as half-open intervals. */
  predicate InMegs(g: Region, m: int) {
    g.ipa / 0x20_0000 <= m <= (g.ipa + g.size - 4096) / 0x20_0000
  }

  predicate InGigs(g: Region, m: int) {
    g.ipa / 0x4000_0000 <= m <= (g.ipa + g.size - 4096) / 0x4000_0000
  }

  lemma PlainWindows(r: int, g: Region, w: (int, int))
    requires PlainRegion(g)
    ensures w in Megs(r, g.ipa, Pages(g)) <==> w.0 == r && InMegs(g, w.1)
    ensures w in Gigs(r, g.ipa, Pages(g)) <==> w.0 == r && InGigs(g, w.1)
  {
    MegsSpan(r, g.ipa, Pages(g));
    GigsSpan(r, g.ipa, Pages(g));
    var a, n := g.ipa / 4096, Pages(g);
    assert a / 512 == g.ipa / 0x20_0000 && a / 0x4_0000 == g.ipa / 0x4000_0000;
    assert (a + n - 1) / 512 == (g.ipa + g.size - 4096) / 0x20_0000;
    assert (a + n - 1) / 0x4_0000 == (g.ipa + g.size - 4096) / 0x4000_0000;
    assert w == (w.0, w.1);
  }

  /** The windows of a list of plain regions. */
  lemma PlainRegionWindows(r: int, mem: seq<Region>, w: (int, int))
    requires forall i :: 0 <= i < |mem| ==> PlainRegion(mem[i])
    ensures Good(mem) == |mem|
    ensures w in RegionMegs(r, mem) <==> w.0 == r && exists i :: 0 <= i < |mem| && InMegs(mem[i], w.1)
    ensures w in RegionGigs(r, mem) <==> w.0 == r && exists i :: 0 <= i < |mem| && InGigs(mem[i], w.1)
  {
    RegionWindows(r, mem, w);
    forall i | 0 <= i < |mem|
      ensures w in Megs(r, mem[i].ipa, Pages(mem[i])) <==> w.0 == r && InMegs(mem[i], w.1)
      ensures w in Gigs(r, mem[i].ipa, Pages(mem[i])) <==> w.0 == r && InGigs(mem[i], w.1)
    {
      PlainWindows(r, mem[i], w);
    }
  }

  lemma LinuxList(m: int)
    ensures forall i :: 0 <= i < |LinuxRegions| ==> PlainRegion(LinuxRegions[i])
    ensures (exists i :: 0 <= i < |LinuxRegions| && InMegs(LinuxRegions[i], m))
        <==> 0 <= m < 66 || m == 72 || m == 80 || m == 88 || 128 <= m < 640
    ensures (exists i :: 0 <= i < |LinuxRegions| && InGigs(LinuxRegions[i], m)) <==> 0 <= m < 2
  {
    var mem := LinuxRegions;
    assert InMegs(mem[0], m) <==> 0 <= m < 64;
    assert InMegs(mem[1], m) <==> 128 <= m < 640;
    assert InMegs(mem[2], m) <==> m == 72;
    assert InMegs(mem[3], m) <==> m == 64;
    assert InMegs(mem[4], m) <==> 64 <= m < 66;
    assert InMegs(mem[5], m) <==> m == 80;
    assert InMegs(mem[6], m) <==> m == 88;
    assert InGigs(mem[1], m) <==> 0 <= m < 2;
  }

  lemma RtosList(m: int)
    ensures forall i :: 0 <= i < |RtosRegions| ==> PlainRegion(RtosRegions[i])
    ensures (exists i :: 0 <= i < |RtosRegions| && InMegs(RtosRegions[i], m)) <==> 0 <= m < 120
    ensures (exists i :: 0 <= i < |RtosRegions| && InGigs(RtosRegions[i], m)) <==> m == 0
  {
    var mem := RtosRegions;
    assert InMegs(mem[0], m) <==> 0 <= m < 120;
    assert InGigs(mem[0], m) <==> m == 0;
  }

  lemma AndroidList(m: int)
    ensures forall i :: 0 <= i < |AndroidRegions| ==> PlainRegion(AndroidRegions[i])
    ensures (exists i :: 0 <= i < |AndroidRegions| && InMegs(AndroidRegions[i], m)) <==> 0 <= m < 256
    ensures (exists i :: 0 <= i < |AndroidRegions| && InGigs(AndroidRegions[i], m)) <==> m == 0
  {
    var mem := AndroidRegions;
    assert InMegs(mem[0], m) <==> 0 <= m < 256;
    assert InGigs(mem[0], m) <==> m == 0;
  }

  function LinuxMegs(r: int): set<(int, int)> {
    Span(r, 0, 66) + Span(r, 72, 73) + Span(r, 80, 81) + Span(r, 88, 89) + Span(r, 128, 640)
  }

  lemma LinuxMegsSize(r: int)
    ensures |LinuxMegs(r)| == 581
  {
    SpanSize(r, 0, 66);
    SpanSize(r, 72, 73);
    SpanSize(r, 80, 81);
    SpanSize(r, 88, 89);
    SpanSize(r, 128, 640);
    var a := Span(r, 0, 66) + Span(r, 72, 73);
    var b := a + Span(r, 80, 81);
    var c := b + Span(r, 88, 89);
    assert |a| == 67 && |b| == 68 && |c| == 69;
  }

  lemma LinuxWindows(r: int)
    ensures VmGigs(r, Linux, LinuxRegions) == Span(r, 0, 2)
    ensures VmMegs(r, Linux, LinuxRegions) == LinuxMegs(r)
  {
    var mem := LinuxRegions;
    forall w: (int, int)
      ensures w in VmGigs(r, Linux, mem) <==> w in Span(r, 0, 2)
      ensures w in VmMegs(r, Linux, mem) <==> w in LinuxMegs(r)
    {
      LinuxList(w.1);
      PlainRegionWindows(r, mem, w);
      assert mem[..Good(mem)] == mem;
      MegsSpan(r, 0x2B_F000, 1);
      GigsSpan(r, 0x2B_F000, 1);
      assert w == (w.0, w.1);
    }
  }

  lemma RtosWindows(r: int)
    ensures VmGigs(r, Rtos, RtosRegions) == Span(r, 0, 1)
    ensures VmMegs(r, Rtos, RtosRegions) == Span(r, 0, 120)
  {
    var mem := RtosRegions;
    forall w: (int, int)
      ensures w in VmGigs(r, Rtos, mem) <==> w in Span(r, 0, 1)
      ensures w in VmMegs(r, Rtos, mem) <==> w in Span(r, 0, 120)
    {
      RtosList(w.1);
      PlainRegionWindows(r, mem, w);
      assert mem[..Good(mem)] == mem;
      assert w == (w.0, w.1);
    }
  }

  lemma AndroidWindows(r: int)
    ensures VmGigs(r, Android, AndroidRegions) == Span(r, 0, 1)
    ensures VmMegs(r, Android, AndroidRegions) == Span(r, 0, 256)
  {
    var mem := AndroidRegions;
    forall w: (int, int)
      ensures w in VmGigs(r, Android, mem) <==> w in Span(r, 0, 1)
      ensures w in VmMegs(r, Android, mem) <==> w in Span(r, 0, 256)
    {
      AndroidList(w.1);
      PlainRegionWindows(r, mem, w);
      assert mem[..Good(mem)] == mem;
      assert w == (w.0, w.1);
    }
  }

  /** Three VMs with pairwise different roots never share a window. */
  lemma ThreeVms(m0: seq<Region>, m1: seq<Region>, m2: seq<Region>)
    ensures var t := BootTables(m0, m1, m2);
            && t.roots == {0, 1, 2}
            && t.gigs == VmGigs(0, Linux, m0) + VmGigs(1, Rtos, m1) + VmGigs(2, Android, m2)
            && t.megs == VmMegs(0, Linux, m0) + VmMegs(1, Rtos, m1) + VmMegs(2, Android, m2)
  {
    var s := Create(Create(Create(Empty, 0), 1), 2);
    var s1 := Built(s, 0, Linux, m0);
    BuiltWindows(s, 0, Linux, m0);
    BuiltWindows(s1, 1, Rtos, m1);
    BuiltWindows(Built(s1, 1, Rtos, m1), 2, Android, m2);
    assert s.roots == {0, 1, 2};
  }

  lemma DisjointUnionSize(a: set<(int, int)>, b: set<(int, int)>, c: set<(int, int)>)
    requires forall w :: w in a ==> w.0 == 0
    requires forall w :: w in b ==> w.0 == 1
    requires forall w :: w in c ==> w.0 == 2
    ensures |a + b + c| == |a| + |b| + |c|
  {
    assert a !! b && (a + b) !! c;
  }

  lemma GigCount()
    ensures |Span(0, 0, 2) + Span(1, 0, 1) + Span(2, 0, 1)| == 4
  {
    SpanSize(0, 0, 2);
    SpanSize(1, 0, 1);
    SpanSize(2, 0, 1);
    DisjointUnionSize(Span(0, 0, 2), Span(1, 0, 1), Span(2, 0, 1));
  }

  lemma MegCount()
    ensures |LinuxMegs(0) + Span(1, 0, 120) + Span(2, 0, 256)| == 957
  {
    LinuxMegsSize(0);
    SpanSize(1, 0, 120);
    SpanSize(2, 0, 256);
    DisjointUnionSize(LinuxMegs(0), Span(1, 0, 120), Span(2, 0, 256));
  }

  lemma CountThree(s: S2, g: set<(int, int)>, m: set<(int, int)>)
    requires s.roots == {0, 1, 2} && s.gigs == g && s.megs == m
    requires |g| == 4 && |m| == 957
    ensures Tables(s) == 964
  {
  }

  /** Booting the three VMs of the device profile takes 964 of the 1024 pages. */
  lemma BootProfileFits()
    ensures Tables(BootTables(LinuxRegions, RtosRegions, AndroidRegions)) == 964 <= POOL_PAGES
  {
    LinuxWindows(0);
    RtosWindows(1);
    AndroidWindows(2);
    ThreeVms(LinuxRegions, RtosRegions, AndroidRegions);
    GigCount();
    MegCount();
    CountThree(BootTables(LinuxRegions, RtosRegions, AndroidRegions),
               Span(0, 0, 2) + Span(1, 0, 1) + Span(2, 0, 1),
               LinuxMegs(0) + Span(1, 0, 120) + Span(2, 0, 256));
  }
}
