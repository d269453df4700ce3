/** Memory shared between two VMs: a bump allocator over a physical pool whose ranges
    are mapped into both VMs' stage-2 tables at the same guest address. */
module Shmem {
  import opened Words
  import opened Stage2Spec
  import opened VmSpec
  import opened HvSpec
  import opened HvInv
  import opened HvFrames
  import opened Hypervisor
  import opened Stage2
  import opened AuditLog

  const MAX_SHMEM_REGIONS: nat := 16
  const POOL_PA: u64 := 0xA000_0000
  const POOL_END: u64 := 0xC000_0000

  datatype Share = Share(pa: u64, size: u64, src: int, dst: int, ipa: u64, active: bool)

  datatype Pool = Pool(shares: seq<Share>, cursor: u64)

  datatype Outcome = Outcome(pool: Pool, hv: Hv, err: Err)

  const Fresh: Pool := Pool([], POOL_PA)

  function Root(h: Hv, id: int): int
    requires Exists(h, id)
  {
    h.vms[id - 1].root
  }

  /** The range mapped into one VM: normal memory, readable, writable, executable. */
  function MapOf(h: Hv, id: int, ipa: u64, pa: u64, n: nat): (r: Hv)
    requires Exists(h, id)
    ensures r == h.(s2 := r.s2)
  {
    h.(s2 := MapN(h.s2, Root(h, id), ipa, pa, n, Attributes(MEM_X)))
  }

  lemma MapOfGrows(h: Hv, id: int, ipa: u64, pa: u64, n: nat)
    requires Exists(h, id)
    ensures Tables(MapOf(h, id, ipa, pa, n).s2) >= Tables(h.s2)
  {
    MapNTablesGrow(h.s2, Root(h, id), ipa, pa, 0, n, Attributes(MEM_X));
  }

  /** The call gets as far as taking memory from the pool. */
  predicate Takes(p: Pool, h: Hv, src: int, dst: int, sz: u64) {
    && |p.shares| < MAX_SHMEM_REGIONS && sz % 4096 == 0 && Add64(p.cursor, sz) <= POOL_END
    && Exists(h, src) && Exists(h, dst)
  }

  /** Memory that was taken is not given back, not even when the map is refused. */
  function Give(p: Pool, h: Hv, src: int, dst: int, ipa: u64, sz: u64): Outcome {
    if |p.shares| >= MAX_SHMEM_REGIONS then Outcome(p, h, NoMem)
    else if sz % 4096 != 0 then Outcome(p, h, Inval)
    else if Add64(p.cursor, sz) > POOL_END then Outcome(p, h, NoMem)
    else if !Exists(h, src) || !Exists(h, dst) then Outcome(p, h, NotFound)
    else
      var taken := p.(cursor := Add64(p.cursor, sz));
      if !Mappable(ipa, p.cursor, sz) then Outcome(taken, h, Inval)
      else Outcome(taken.(shares := p.shares + [Share(p.cursor, sz, src, dst, ipa, true)]),
                   MapOf(MapOf(h, src, ipa, p.cursor, sz / 4096), dst, ipa, p.cursor, sz / 4096), Ok)
  }

  /** The first active share at this guest address. */
  function FirstActive(shares: seq<Share>, ipa: u64): (i: nat)
    ensures i <= |shares| && (i < |shares| ==> shares[i].active && shares[i].ipa == ipa)
    ensures forall j :: 0 <= j < i ==> !(shares[j].active && shares[j].ipa == ipa)
  {
    if shares == [] then 0
    else
      var i := FirstActive(shares[..|shares| - 1], ipa);
      if i < |shares| - 1 then i
      else if shares[i].active && shares[i].ipa == ipa then i else i + 1
  }

  function UnmapOf(h: Hv, id: int, ipa: u64, sz: u64): (r: Hv)
    ensures r == h.(s2 := r.s2)
  {
    if Exists(h, id) && Mappable(ipa, 0, sz) then h.(s2 := UnmapN(h.s2, Root(h, id), ipa, sz / 4096)) else h
  }

  function TakeBack(p: Pool, h: Hv, ipa: u64, sz: u64): Outcome {
    var i := FirstActive(p.shares, ipa);
    if i == |p.shares| then Outcome(p, h, NotFound)
    else
      var share := p.shares[i];
      Outcome(p.(shares := p.shares[i := share.(active := false)]),
              UnmapOf(UnmapOf(h, share.src, ipa, sz), share.dst, ipa, sz), Ok)
  }

  // ---------- ranges ----------

  predicate Within(s: Share, end: int) {
    POOL_PA <= s.pa && s.pa + s.size <= end
  }

  /** All shares lie inside the pool below the cursor, one after the other. */
  predicate Placed(p: Pool) {
    && POOL_PA <= p.cursor <= POOL_END && p.cursor % 4096 == 0
    && (forall i :: 0 <= i < |p.shares| ==> Within(p.shares[i], p.cursor))
    && (forall i, j :: 0 <= i < j < |p.shares| ==> p.shares[i].pa + p.shares[i].size <= p.shares[j].pa)
  }

  predicate Apart(s: Share, t: Share) {
    s.pa + s.size <= t.pa || t.pa + t.size <= s.pa
  }

  lemma PlacedApart(p: Pool, i: int, j: int)
    requires Placed(p) && 0 <= i < |p.shares| && 0 <= j < |p.shares| && i != j
    ensures Apart(p.shares[i], p.shares[j])
    ensures POOL_PA <= p.shares[i].pa && p.shares[i].pa + p.shares[i].size <= POOL_END
  {
  }

  function LastEnd(p: Pool): int {
    if p.shares == [] then POOL_PA else p.shares[|p.shares| - 1].pa + p.shares[|p.shares| - 1].size
  }

  lemma AlignedSum(x: int, y: int)
    requires x % 4096 == 0 && y % 4096 == 0
    ensures (x + y) % 4096 == 0 && (x + y - 0x1_0000_0000_0000_0000) % 4096 == 0
  {
    DivMod(x + y, 4096, x / 4096 + y / 4096, 0);
    DivMod(x + y - 0x1_0000_0000_0000_0000, 4096, x / 4096 + y / 4096 - 0x10_0000_0000_0000, 0);
  }

  // ---------- a size that wraps the cursor ----------

  function Round(a: nat, j: nat): nat {
    (a + j) % 0x4_0000
  }

  function Windows(r: int, a: nat, t: nat): set<(int, int)> {
    set j | 0 <= j < t :: (r, Round(a, j))
  }

  lemma NewWindow(a: nat, i: nat, j: nat)
    requires i < j < i + 0x4_0000
    ensures Round(a, i) != Round(a, j)
  {
    if Round(a, i) == Round(a, j) {
      DivMod(j - i, 0x4_0000, (a + j) / 0x4_0000 - (a + i) / 0x4_0000, 0);
      DivMod(j - i, 0x4_0000, 0, j - i);
      assert false;
    }
  }

  lemma {:induction false} WindowCount(r: int, a: nat, t: nat)
    requires t <= 0x4_0000
    ensures |Windows(r, a, t)| == t
  {
    if t > 0 {
      WindowCount(r, a, t - 1);
      hide Round;
      var x := (r, Round(a, t - 1));
      assert Windows(r, a, t) == Windows(r, a, t - 1) + {x};
      forall i | 0 <= i < t - 1 ensures Round(a, i) != x.1 { NewWindow(a, i, t - 1); }
    }
  }

  lemma WindowAt(ipa: nat, j: nat)
    ensures Hit(ipa, 512 * j) / 512 == Round(ipa / 4096 / 512, j)
  {
    HitForm(ipa, 512 * j);
    var x := ipa / 4096;
    var y, b := x / 512 + j, x % 512;
    DivMod(x + 512 * j, 512, y, b);
    var q, w := y / 0x4_0000, y % 0x4_0000;
    DivMod(x + 512 * j, 0x800_0000, q, 512 * w + b);
    DivMod(512 * w + b, 512, w, b);
  }

  /** A map of 512 * 1025 pages or more cannot be held by the table pool. */
  lemma HugeMapParks(s: S2, r: int, ipa: nat, pa: nat, n: nat, flags: nat)
    requires n >= 524800
    ensures Tables(MapN(s, r, ipa, pa, n, flags)) > POOL_PAGES
  {
    hide MapN, Hit, Round;
    MapNWindows(s, r, ipa, pa, n, flags);
    var a := ipa / 4096 / 512;
    WindowCount(r, a, 1025);
    forall j | 0 <= j < 1025 ensures (r, Round(a, j)) in Megs(r, ipa, n) {
      WindowAt(ipa, j);
      assert 512 * j < n && (r, Hit(ipa, 512 * j) / 512) in Megs(r, ipa, n);
    }
    SubsetSize(Windows(r, a, 1025), MapN(s, r, ipa, pa, n, flags).megs);
  }

  lemma WrapParks(h: Hv, src: int, dst: int, ipa: u64, pa: u64, sz: u64)
    requires Exists(h, src) && Exists(h, dst) && sz >= 0x8020_0000
    ensures Tables(MapOf(MapOf(h, src, ipa, pa, sz / 4096), dst, ipa, pa, sz / 4096).s2) > POOL_PAGES
  {
    HugeMapParks(MapOf(h, src, ipa, pa, sz / 4096).s2, Root(h, dst), ipa, pa, sz / 4096, Attributes(MEM_X));
  }

  // ---------- the layout over calls ----------

  predicate Wraps(p: Pool, sz: u64) {
    p.cursor + sz >= 0x1_0000_0000_0000_0000
  }

  /** A size so large that the cursor wraps round either never returns, for lack of
      table pages, or is refused for its guest address with the cursor moved back. The
      layout survives exactly when the cursor does not come back below the last share. */
  lemma GiveKeepsLayout(p: Pool, h: Hv, src: int, dst: int, ipa: u64, sz: u64)
    requires Placed(p) && Tables(Give(p, h, src, dst, ipa, sz).hv.s2) <= POOL_PAGES
    ensures Placed(Give(p, h, src, dst, ipa, sz).pool) <==>
              (Takes(p, h, src, dst, sz) && Wraps(p, sz) ==> Add64(p.cursor, sz) >= LastEnd(p))
  {
    hide MapOf;
    if Takes(p, h, src, dst, sz) {
      AlignedSum(p.cursor, sz);
      if Wraps(p, sz) {
        WrapParks(h, src, dst, ipa, p.cursor, sz);
        WrapBack(p, sz);
      } else {
        NoWrapKeeps(p, h, src, dst, ipa, sz);
      }
    }
  }

  /** A call that succeeds takes as much from the pool as it asked for, from where the pool
      stood, and that is what it has on record; one that fails has nothing on record. */
  lemma TakenOnRecord(p: Pool, h: Hv, src: int, dst: int, ipa: u64, sz: u64)
    requires Placed(p) && Tables(Give(p, h, src, dst, ipa, sz).hv.s2) <= POOL_PAGES
    ensures var r := Give(p, h, src, dst, ipa, sz);
            && (r.err == Ok ==>
                  && r.pool.cursor == p.cursor + sz <= 0xC000_0000 && p.cursor >= 0xA000_0000
                  && r.pool.shares == p.shares + [Share(p.cursor, sz, src, dst, ipa, true)])
            && (r.err != Ok ==> r.pool.shares == p.shares)
  {
    hide MapOf;
    if Give(p, h, src, dst, ipa, sz).err == Ok {
      if Wraps(p, sz) {
        WrapParks(h, src, dst, ipa, p.cursor, sz);
        assert false;
      }
      DivMod(p.cursor + sz, 0x1_0000_0000_0000_0000, 0, p.cursor + sz);
    }
  }

  lemma WrapBack(p: Pool, sz: u64)
    requires Placed(p) && Wraps(p, sz) && sz % 4096 == 0 && Add64(p.cursor, sz) <= POOL_END
    ensures Placed(p.(cursor := Add64(p.cursor, sz))) <==> Add64(p.cursor, sz) >= LastEnd(p)
  {
    AlignedSum(p.cursor, sz);
    DivMod(p.cursor + sz, 0x1_0000_0000_0000_0000, 1, p.cursor + sz - 0x1_0000_0000_0000_0000);
    if p.shares != [] {
      assert Within(p.shares[|p.shares| - 1], p.cursor);
      forall i | 0 <= i < |p.shares| ensures p.shares[i].pa + p.shares[i].size <= LastEnd(p) {
        if i < |p.shares| - 1 { assert p.shares[i].pa + p.shares[i].size <= p.shares[|p.shares| - 1].pa; }
      }
    }
  }

  lemma NoWrapKeeps(p: Pool, h: Hv, src: int, dst: int, ipa: u64, sz: u64)
    requires Placed(p) && !Wraps(p, sz)
    ensures Placed(Give(p, h, src, dst, ipa, sz).pool)
  {
    hide MapOf;
    DivMod(p.cursor + sz, 0x1_0000_0000_0000_0000, 0, p.cursor + sz);
    if sz % 4096 == 0 { AlignedSum(p.cursor, sz); }
  }

  lemma TakeBackKeepsLayout(p: Pool, h: Hv, ipa: u64, sz: u64)
    requires Placed(p)
    ensures Placed(TakeBack(p, h, ipa, sz).pool)
  {
    hide UnmapOf;
  }

  /** Shared-memory calls among all the other events. */
  datatype Call =
    | CGive(src: int, dst: int, ipa: u64, sz: u64)
    | CTakeBack(ipa: u64, sz: u64)
    | CEvent(e: Event, now: u64)

  function Do(p: Pool, h: Hv, c: Call): (r: Outcome)
    requires Sized(h)
    ensures Sized(r.hv)
  {
    match c
    case CGive(src, dst, ipa, sz) => Give(p, h, src, dst, ipa, sz)
    case CTakeBack(ipa, sz) => TakeBack(p, h, ipa, sz)
    case CEvent(e, now) => Outcome(p, Step(h, e, now), Ok)
  }

  function DoAll(p: Pool, h: Hv, calls: seq<Call>): (r: Outcome)
    requires Sized(h)
    ensures Sized(r.hv)
  {
    if calls == [] then Outcome(p, h, Ok)
    else
      var r := DoAll(p, h, calls[..|calls| - 1]);
      Do(r.pool, r.hv, calls[|calls| - 1])
  }

  /** No size anywhere near 2^64. */
  predicate Sane(c: Call) {
    c.CGive? ==> c.sz < 0xFFFF_FFFF_4000_0000
  }

  /** Whatever calls are made and however many are refused, the shares stay inside the
      pool and pairwise apart. */
  lemma {:induction false} SharesStayApart(h: Hv, calls: seq<Call>, i: int, j: int)
    requires Sized(h) && forall k :: 0 <= k < |calls| ==> Sane(calls[k])
    ensures Placed(DoAll(Fresh, h, calls).pool)
    ensures var shares := DoAll(Fresh, h, calls).pool.shares;
            0 <= i < j < |shares| ==>
              Apart(shares[i], shares[j]) && Within(shares[i], POOL_END) && Within(shares[j], POOL_END)
  {
    if calls != [] {
      var init, last := calls[..|calls| - 1], calls[|calls| - 1];
      SharesStayApart(h, init, 0, 0);
      var r := DoAll(Fresh, h, init);
      match last {
        case CGive(src, dst, ipa, sz) => NoWrapKeeps(r.pool, r.hv, src, dst, ipa, sz);
        case CTakeBack(ipa, sz) => TakeBackKeepsLayout(r.pool, r.hv, ipa, sz);
        case CEvent(_, _) =>
      }
    }
    var p := DoAll(Fresh, h, calls).pool;
    if 0 <= i < j < |p.shares| { PlacedApart(p, i, j); }
  }

  lemma OneMoreCall(p: Pool, h: Hv, calls: seq<Call>, c: Call)
    requires Sized(h)
    ensures DoAll(p, h, calls + [c]) == Do(DoAll(p, h, calls).pool, DoAll(p, h, calls).hv, c)
  {
    assert (calls + [c])[..|calls|] == calls;
  }

  lemma OnePage(p: Pool, h: Hv, ipa: u64)
    requires Exists(h, 1) && Exists(h, 2) && |p.shares| < 2 && POOL_PA <= p.cursor < POOL_END - 4096
    requires ipa % 4096 == 0 && p.cursor % 4096 == 0
    ensures Give(p, h, 1, 2, ipa, 4096).pool
         == Pool(p.shares + [Share(p.cursor, 4096, 1, 2, ipa, true)], p.cursor + 4096)
    ensures Give(p, h, 1, 2, ipa, 4096).hv.vms == h.vms
  {
    hide MapOf;
  }

  lemma RefusedWrap(p: Pool, h: Hv)
    requires Exists(h, 1) && Exists(h, 2) && |p.shares| == 1 && p.cursor == POOL_PA + 4096
    ensures Give(p, h, 1, 2, 1, 0xFFFF_FFFF_FFFF_F000) == Outcome(p.(cursor := POOL_PA), h, Inval)
  {
    hide MapOf;
  }

  /** Three calls, the second of them refused, that hand out one range twice. */
  lemma WrappedCursorOverlaps(h: Hv)
    requires Sized(h) && Exists(h, 1) && Exists(h, 2)
    ensures var calls := [CGive(1, 2, 0x4000_0000, 4096), CGive(1, 2, 1, 0xFFFF_FFFF_FFFF_F000), CGive(1, 2, 0x4100_0000, 4096)];
            var shares := DoAll(Fresh, h, calls).pool.shares;
            |shares| == 2 && shares[0].pa == shares[1].pa == POOL_PA
  {
    var a, b, c := CGive(1, 2, 0x4000_0000, 4096), CGive(1, 2, 1, 0xFFFF_FFFF_FFFF_F000), CGive(1, 2, 0x4100_0000, 4096);
    assert DoAll(Fresh, h, []) == Outcome(Fresh, h, Ok);
    hide DoAll, Give;
    OneMoreCall(Fresh, h, [], a);
    OneMoreCall(Fresh, h, [a], b);
    OneMoreCall(Fresh, h, [a, b], c);
    assert [] + [a] == [a] && [a] + [b] == [a, b] && [a, b] + [c] == [a, b, c];
    OnePage(Fresh, h, 0x4000_0000);
    var r1 := DoAll(Fresh, h, [a]);
    RefusedWrap(r1.pool, r1.hv);
    OnePage(r1.pool.(cursor := POOL_PA), r1.hv, 0x4100_0000);
  }

  // ---------- failovers among shared-memory calls ----------

  /** Only the tables change, and no table is given back. */
  predicate TablesGrow(h: Hv, g: Hv) {
    g == h.(s2 := g.s2) && h.s2.roots <= g.s2.roots && h.s2.gigs <= g.s2.gigs && h.s2.megs <= g.s2.megs
  }

  lemma MapOfTables(h: Hv, id: int, ipa: u64, pa: u64, n: nat)
    requires Exists(h, id)
    ensures TablesGrow(h, MapOf(h, id, ipa, pa, n))
  {
    MapNWindows(h.s2, Root(h, id), ipa, pa, n, Attributes(MEM_X));
  }

  lemma UnmapOfTables(h: Hv, id: int, ipa: u64, sz: u64)
    ensures TablesGrow(h, UnmapOf(h, id, ipa, sz))
  {
    if Exists(h, id) { UnmapNTables(h.s2, Root(h, id), ipa, sz / 4096); }
  }

  lemma SharingTables(p: Pool, h: Hv, c: Call)
    requires Sized(h) && !c.CEvent?
    ensures TablesGrow(h, Do(p, h, c).hv)
  {
    hide MapOf, UnmapOf;
    match c
    case CGive(src, dst, ipa, sz) =>
      if Takes(p, h, src, dst, sz) {
        MapOfTables(h, src, ipa, p.cursor, sz / 4096);
        MapOfTables(MapOf(h, src, ipa, p.cursor, sz / 4096), dst, ipa, p.cursor, sz / 4096);
      }
    case CTakeBack(ipa, sz) =>
      var i := FirstActive(p.shares, ipa);
      if i < |p.shares| {
        UnmapOfTables(h, p.shares[i].src, ipa, sz);
        UnmapOfTables(UnmapOf(h, p.shares[i].src, ipa, sz), p.shares[i].dst, ipa, sz);
      }
  }

  lemma GrownFurnished(h: Hv, g: Hv)
    requires Sized(h) && Sized(g) && TablesGrow(h, g)
    ensures (Furnished(h) ==> Furnished(g)) && (Contained(h) <==> Contained(g)) && Evolved(h, g)
    ensures Tables(g.s2) >= Tables(h.s2)
  {
    if Furnished(h) {
      forall i | 0 <= i < |g.vms| ensures Reserved(g.s2, g.vms[i].root, g.vms[i].kind, g.vms[i].mem) {
        assert Reserved(h.s2, h.vms[i].root, h.vms[i].kind, h.vms[i].mem);
      }
    }
    assert forall i :: 0 <= i < |h.vms| ==> CellOf(g, i) == CellOf(h, i);
    SubsetSize(h.s2.roots, g.s2.roots);
    SubsetSize(h.s2.gigs, g.s2.gigs);
    SubsetSize(h.s2.megs, g.s2.megs);
  }

  predicate CalmCalls(p: Pool, h: Hv, calls: seq<Call>)
    requires Sized(h)
  {
    calls == []
    || (var init, c := calls[..|calls| - 1], calls[|calls| - 1];
        CalmCalls(p, h, init) && !(c.CEvent? && ResumesBlocked(DoAll(p, h, init).hv, c.e)))
  }

  /** Sharing among the events takes tables, but none that a VM needs for its own regions,
      and lets no blocked VM run. */
  lemma {:induction false} CallsTame(p: Pool, h: Hv, calls: seq<Call>)
    requires Sized(h) && h.trust.up
    ensures var g := DoAll(p, h, calls).hv;
            && g.trust.up && |g.vms| == |h.vms|
            && (Furnished(h) ==> Furnished(g))
            && (Contained(h) && CalmCalls(p, h, calls) ==> Contained(g))
  {
    hide Contained, ResumesBlocked, Do, Furnished;
    if calls != [] {
      var init, c := calls[..|calls| - 1], calls[|calls| - 1];
      CallsTame(p, h, init);
      CallTame(DoAll(p, h, init).pool, DoAll(p, h, init).hv, c);
    }
  }

  lemma CallTame(p: Pool, h: Hv, c: Call)
    requires Sized(h) && h.trust.up
    ensures var g := Do(p, h, c).hv;
            && g.trust.up && |g.vms| == |h.vms|
            && (Furnished(h) ==> Furnished(g))
            && (Contained(h) && !(c.CEvent? && ResumesBlocked(h, c.e)) ==> Contained(g))
  {
    hide Contained, ResumesBlocked, Furnished, Step, Give, TakeBack;
    var g := Do(p, h, c).hv;
    if c.CEvent? {
      StepTame(h, c.e, c.now);
      if Furnished(h) { TameFurnished(h, c.e, g); }
    } else {
      SharingTables(p, h, c);
      GrownFurnished(h, g);
    }
  }

  /** After any mix of shared-memory calls and other events, whatever sharing has taken of
      the pool, no event takes a table page more: no failover parks the core. */
  lemma FailoverNeverParks(p: Pool, h: Hv, calls: seq<Call>, e: Event, now: u64)
    requires Sized(h) && h.trust.up && Furnished(h)
    ensures var g := DoAll(p, h, calls).hv; Tables(Step(g, e, now).s2) == Tables(g.s2)
  {
    hide DoAll, Step, Furnished;
    CallsTame(p, h, calls);
    StepTame(DoAll(p, h, calls).hv, e, now);
  }

  // ---------- what the two VMs see ----------

  lemma HitCovers(ipa: nat, n: nat, i: nat)
    requires i < n <= 0x800_0000
    ensures Covers(ipa, n, Hit(ipa, i)) && LastHit(ipa, n, Hit(ipa, i)) == i
  {
    HitForm(ipa, i);
    HitIff(ipa, i, Hit(ipa, i));
    DivMod(i, 0x800_0000, 0, i);
    DivMod(n - 1 - i, 0x800_0000, 0, n - 1 - i);
  }

  /** Right after a share was given, both VMs translate page i of the window to page i
      of the same physical range, as normal write-back memory that can be read, written and
      executed, whatever was mapped there before. */
  lemma SharedFrames(p: Pool, h: Hv, src: int, dst: int, ipa: u64, sz: u64, i: nat, x: nat)
    requires Placed(p) && 4096 * i < sz && Give(p, h, src, dst, ipa, sz).err == Ok
    requires Tables(Give(p, h, src, dst, ipa, sz).hv.s2) <= POOL_PAGES
    ensures var s := Give(p, h, src, dst, ipa, sz).hv.s2;
            var k := Hit(ipa, i);
            && LookUp(s, Root(h, src), k) == LookUp(s, Root(h, dst), k)
            && LookUp(s, Root(h, src), k).Some?
            && WalkedPa(LookUp(s, Root(h, src), k).value, x) == p.cursor + 4096 * i + x % 4096
            && LookUp(s, Root(h, src), k).value == p.cursor + 4096 * i + 0x7FF
  {
    GivenRange(p, h, src, dst, ipa, sz, i);
    BothSee(h.s2, Root(h, src), Root(h, dst), ipa, p.cursor, sz / 4096, i, x);
    hide MapN, PageDesc, WalkedPa, Hit, Attributes;
  }

  lemma GivenRange(p: Pool, h: Hv, src: int, dst: int, ipa: u64, sz: u64, i: nat)
    requires Placed(p) && 4096 * i < sz && Give(p, h, src, dst, ipa, sz).err == Ok
    requires Tables(Give(p, h, src, dst, ipa, sz).hv.s2) <= POOL_PAGES
    ensures p.cursor % 4096 == 0 && p.cursor + 4096 * i < POOL_END && i < sz / 4096 <= 0x2_0000
  {
    hide MapOf;
    if Wraps(p, sz) {
      WrapParks(h, src, dst, ipa, p.cursor, sz);
      assert false;
    }
    DivMod(p.cursor + sz, 0x1_0000_0000_0000_0000, 0, p.cursor + sz);
    DivMod(sz, 4096, sz / 4096, 0);
  }

  lemma BothSee(s: S2, a: int, b: int, ipa: u64, pa: u64, n: nat, i: nat, x: nat)
    requires i < n <= 0x2_0000 && pa % 4096 == 0 && pa + 4096 * i < 0x1_0000_0000_0000
    ensures var f := Attributes(MEM_X);
            var t := MapN(MapN(s, a, ipa, pa, n, f), b, ipa, pa, n, f);
            && LookUp(t, a, Hit(ipa, i)) == LookUp(t, b, Hit(ipa, i))
            && LookUp(t, a, Hit(ipa, i)).Some?
            && WalkedPa(LookUp(t, a, Hit(ipa, i)).value, x) == pa + 4096 * i + x % 4096
            && LookUp(t, a, Hit(ipa, i)).value == pa + 4096 * i + 0x7FF
  {
    hide MapN, PageDesc, WalkedPa, Hit, Covers, LastHit, Attributes, Frame;
    var f := Attributes(MEM_X);
    var k := Hit(ipa, i);
    HitCovers(ipa, n, i);
    MapNLeaf(s, a, ipa, pa, n, f, a, k);
    MapNLeaf(MapN(s, a, ipa, pa, n, f), b, ipa, pa, n, f, a, k);
    MapNLeaf(MapN(s, a, ipa, pa, n, f), b, ipa, pa, n, f, b, k);
    SharedDesc(pa, i, x);
  }

  lemma SharedDesc(pa: u64, i: nat, x: nat)
    requires pa % 4096 == 0 && pa + 4096 * i < 0x1_0000_0000_0000
    ensures WalkedPa(PageDesc(Frame(pa, i), Attributes(MEM_X)), x) == pa + 4096 * i + x % 4096
    ensures PageDesc(Frame(pa, i), Attributes(MEM_X)) == pa + 4096 * i + 0x7FF
  {
    assert Attributes(MEM_X) == 0x7FC;
    DivMod(pa + 4096 * i, 0x1_0000_0000_0000_0000, 0, pa + 4096 * i);
    AlignedSum(pa, 4096 * i);
    PageDescFields(pa + 4096 * i, Attributes(MEM_X), x);
  }

  /** No other page of any VM changes. */
  lemma SharingIsLocal(p: Pool, h: Hv, src: int, dst: int, ipa: u64, sz: u64, r: int, k: int)
    requires Exists(h, src) && Exists(h, dst)
    requires (r != Root(h, src) && r != Root(h, dst)) || !Covers(ipa, sz / 4096, k)
    ensures LookUp(Give(p, h, src, dst, ipa, sz).hv.s2, r, k) == LookUp(h.s2, r, k)
  {
    var n, pa, f := sz / 4096, p.cursor, Attributes(MEM_X);
    var s := MapN(h.s2, Root(h, src), ipa, pa, n, f);
    MapNLeaf(h.s2, Root(h, src), ipa, pa, n, f, r, k);
    MapNLeaf(s, Root(h, dst), ipa, pa, n, f, r, k);
  }

  /** Taking a window back leaves neither VM any page of it and every other page as it
      was, provided no earlier active share has the same guest address. */
  lemma TakeBackUndoes(p: Pool, h: Hv, src: int, dst: int, ipa: u64, sz: u64, r: int, k: int)
    requires FirstActive(p.shares, ipa) == |p.shares| && Give(p, h, src, dst, ipa, sz).err == Ok
    ensures var g := Give(p, h, src, dst, ipa, sz);
            var t := TakeBack(g.pool, g.hv, ipa, sz);
            && t.err == Ok && !t.pool.shares[|p.shares|].active
            && LookUp(t.hv.s2, r, k) ==
                 if (r == Root(h, src) || r == Root(h, dst)) && Covers(ipa, sz / 4096, k) then None else LookUp(h.s2, r, k)
  {
    var g := Give(p, h, src, dst, ipa, sz);
    assert g.pool.shares[..|p.shares|] == p.shares;
    assert FirstActive(g.pool.shares, ipa) == |p.shares|;
    var n, a, b := sz / 4096, Root(h, src), Root(h, dst);
    UnmapNLeaf(g.hv.s2, a, ipa, n, r, k);
    UnmapNLeaf(UnmapN(g.hv.s2, a, ipa, n), b, ipa, n, r, k);
    if (r != a && r != b) || !Covers(ipa, n, k) {
      SharingIsLocal(p, h, src, dst, ipa, sz, r, k);
    }
  }

  // ---------- the service ----------

  class Sharing {
    var shares: seq<Share>
    var cursor: u64

    constructor ()
      ensures View() == Fresh
    {
      shares, cursor := [], POOL_PA;
    }

    ghost function View(): Pool
      reads this
    {
      Pool(shares, cursor)
    }

    method MapInto(hv: Hypervisor, id: int, ipa: u64, pa: u64, sz: u64) returns (e: Err)
      requires hv.Valid() && Exists(hv.State(), id)
      modifies hv.tables, hv.tables.pool
      ensures e == if Mappable(ipa, pa, sz) then Ok else Inval
      ensures hv.Became(if e == Ok then MapOf(old(hv.State()), id, ipa, pa, sz / 4096) else old(hv.State()))
    {
      hide MapN, PageTables.Valid, Ring.Valid;
      e := hv.tables.Map(Some(hv.vms[id - 1].root), ipa, pa, sz, Attributes(MEM_X));
    }

    method MapPair(hv: Hypervisor, src: int, dst: int, ipa: u64, pa: u64, sz: u64) returns (e: Err)
      requires hv.Valid() && Exists(hv.State(), src) && Exists(hv.State(), dst)
      modifies hv.tables, hv.tables.pool
      ensures e == if Mappable(ipa, pa, sz) then Ok else Inval
      ensures hv.Became(if e == Ok then MapOf(MapOf(old(hv.State()), src, ipa, pa, sz / 4096), dst, ipa, pa, sz / 4096)
                        else old(hv.State()))
    {
      hide MapOf;
      MapOfGrows(MapOf(hv.State(), src, ipa, pa, sz / 4096), dst, ipa, pa, sz / 4096);
      e := MapInto(hv, src, ipa, pa, sz);
      if e != Ok || hv.tables.parked {
        return;
      }
      e := MapInto(hv, dst, ipa, pa, sz);
    }

    method Map(hv: Hypervisor, src: int, dst: int, ipa: u64, sz: u64) returns (e: Err)
      requires hv.Valid()
      modifies this, hv.tables, hv.tables.pool
      ensures hv.Became(Give(old(View()), old(hv.State()), src, dst, ipa, sz).hv)
      ensures !hv.tables.parked ==>
                View() == Give(old(View()), old(hv.State()), src, dst, ipa, sz).pool
                && e == Give(old(View()), old(hv.State()), src, dst, ipa, sz).err
    {
      hide MapOf;
      if |shares| >= MAX_SHMEM_REGIONS {
        return NoMem;
      }
      if sz % 4096 != 0 {
        return Inval;
      }
      if Add64(cursor, sz) > POOL_END {
        return NoMem;
      }
      var s := hv.VmById(src);
      var d := hv.VmById(dst);
      if s.None? || d.None? {
        return NotFound;
      }
      var pa := cursor;
      cursor := Add64(cursor, sz);
      e := MapPair(hv, src, dst, ipa, pa, sz);
      if e != Ok || hv.tables.parked {
        return;
      }
      shares := shares + [Share(pa, sz, src, dst, ipa, true)];
    }

    method UnmapFrom(hv: Hypervisor, id: int, ipa: u64, sz: u64)
      requires hv.Valid()
      modifies hv.tables`tree, hv.tables.pool
      ensures hv.Valid() && hv.State() == UnmapOf(old(hv.State()), id, ipa, sz)
    {
      var vm := hv.VmById(id);
      if vm.Some? {
        UnmapNTables(hv.tables.View(), hv.vms[id - 1].root, ipa, sz / 4096);
        var ignored := hv.tables.Unmap(Some(hv.vms[id - 1].root), ipa, sz);
      }
    }

    method Unmap(hv: Hypervisor, ipa: u64, sz: u64) returns (e: Err)
      requires hv.Valid()
      modifies this, hv.tables`tree, hv.tables.pool
      ensures hv.Valid() && Outcome(View(), hv.State(), e) == TakeBack(old(View()), old(hv.State()), ipa, sz)
    {
      hide UnmapOf, PageTables.Valid, Ring.Valid;
      var i := 0;
      while i < |shares|
        invariant 0 <= i <= |shares|
        invariant forall j :: 0 <= j < i ==> !(shares[j].active && shares[j].ipa == ipa)
      {
        var share := shares[i];
        if share.active && share.ipa == ipa {
          UnmapFrom(hv, share.src, ipa, sz);
          UnmapFrom(hv, share.dst, ipa, sz);
          shares := shares[i := share.(active := false)];
          return Ok;
        }
        i := i + 1;
      }
      return NotFound;
    }
  }
}
