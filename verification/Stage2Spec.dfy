/** What the stage-2 page tables mean: one map from guest page to descriptor for
    every VM, plus the 1 GB and 2 MB windows for which a table page exists.

    A guest address selects its page through three 9-bit indices, so addresses
    that differ by a multiple of 2^39 share an entry; a page is therefore named
    by its key, the page number modulo 2^27. */
module Stage2Spec {
  import opened Words

  const POOL_PAGES: nat := 1024

  /** `roots` are the top-level tables, one per VM, named by their pool page.
      `gigs` and `megs` hold the windows (root, key / 2^18) and (root, key / 2^9)
      that own a second- or third-level table; `leaf` is the page map. */
  datatype S2 = S2(roots: set<int>, gigs: set<(int, int)>, megs: set<(int, int)>,
                   leaf: map<(int, int), int>)

  const Empty: S2 := S2({}, {}, {}, map[])

  /** Pool pages in use. */
  function Tables(s: S2): nat {
    |s.roots| + |s.gigs| + |s.megs|
  }

  function KeyOf(ipa: nat): nat {
    ipa / 4096 % 0x800_0000
  }

  function LookUp(s: S2, r: int, k: int): Option<int> {
    if (r, k) in s.leaf then Some(s.leaf[(r, k)]) else None
  }

  /** The leaf descriptor for frame `pa`: page-aligned address, attribute flags,
      valid and page bits, all ORed together. */
  function PageDesc(pa: nat, flags: nat): nat {
    BitOr(BitOr(pa - pa % 4096, flags), 3)
  }

  /** The frame and offset a walk reports for a leaf descriptor. */
  function WalkedPa(desc: int, ipa: nat): nat {
    BitOr(desc % 0x1_0000_0000_0000 / 4096 * 4096, ipa % 4096)
  }

  // ---------- operations ----------

  function Create(s: S2, r: int): S2 {
    s.(roots := s.roots + {r})
  }

  function MapPage(s: S2, r: int, k: int, desc: int): S2 {
    S2(s.roots, s.gigs + {(r, k / 0x4_0000)}, s.megs + {(r, k / 512)}, s.leaf[(r, k) := desc])
  }

  /** Key and frame of the i-th page of a range, with 64-bit wrap-around. */
  function Hit(ipa: nat, i: nat): nat {
    KeyOf(Add64(ipa, 4096 * i))
  }

  function Frame(pa: nat, i: nat): nat {
    Add64(pa, 4096 * i)
  }

  function MapN(s: S2, r: int, ipa: nat, pa: nat, n: nat, flags: nat): S2 {
    if n == 0 then s
    else MapPage(MapN(s, r, ipa, pa, n - 1, flags), r, Hit(ipa, n - 1),
                 PageDesc(Frame(pa, n - 1), flags))
  }

  function UnmapN(s: S2, r: int, ipa: nat, n: nat): S2 {
    if n == 0 then s
    else
      var t := UnmapN(s, r, ipa, n - 1);
      t.(leaf := t.leaf - {(r, Hit(ipa, n - 1))})
  }

  predicate Mappable(ipa: nat, pa: nat, sz: nat) {
    ipa % 4096 == 0 && pa % 4096 == 0 && sz % 4096 == 0
  }

  /** Some page in which the range's start plus a multiple of 4096 lies is mapped. */
  ghost predicate AnyMapped(s: S2, r: int, ipa: nat, sz: nat) {
    exists i: nat :: 4096 * i < sz && (r, Hit(ipa, i)) in s.leaf
  }

  // ---------- which pages a range covers ----------

  /** Position of key `k` in a range that starts at `ipa`. */
  function Delta(ipa: nat, k: int): nat {
    (k - ipa / 4096) % 0x800_0000
  }

  predicate Covers(ipa: nat, n: nat, k: int) {
    0 <= k < 0x800_0000 && Delta(ipa, k) < n
  }

  /** The last position of the range that lands on `k`: a range longer than
      2^27 pages comes round to the same key again. */
  function LastHit(ipa: nat, n: nat, k: int): nat
    requires Delta(ipa, k) < n
  {
    Delta(ipa, k) + 0x800_0000 * ((n - 1 - Delta(ipa, k)) / 0x800_0000)
  }

  lemma HitForm(ipa: nat, i: nat)
    ensures Hit(ipa, i) == (ipa / 4096 + i) % 0x800_0000
  {
    var x := ipa + 4096 * i;
    var q, r := x / 0x1_0000_0000_0000_0000, x % 0x1_0000_0000_0000_0000;
    var n := ipa / 4096 + i;
    DivMod(x, 4096, n, ipa % 4096);
    DivMod(x, 4096, q * 0x10_0000_0000_0000 + r / 4096, r % 4096);
    DivMod(r / 4096, 0x800_0000, r / 4096 / 0x800_0000, r / 4096 % 0x800_0000);
    DivMod(n, 0x800_0000, q * 0x200_0000 + r / 4096 / 0x800_0000, r / 4096 % 0x800_0000);
  }

  lemma HitIff(ipa: nat, i: nat, k: int)
    requires 0 <= k < 0x800_0000
    ensures Hit(ipa, i) == k <==> i % 0x800_0000 == Delta(ipa, k)
  {
    HitForm(ipa, i);
    RingPosition(ipa / 4096, i, k);
  }

  lemma RingPosition(a: nat, i: nat, k: int)
    requires 0 <= k < 0x800_0000
    ensures (a + i) % 0x800_0000 == k <==> i % 0x800_0000 == (k - a) % 0x800_0000
  {
    var q, d := (k - a) / 0x800_0000, (k - a) % 0x800_0000;
    if (a + i) % 0x800_0000 == k {
      DivMod(i, 0x800_0000, (a + i) / 0x800_0000 + q, d);
    }
    if i % 0x800_0000 == d {
      DivMod(a + i, 0x800_0000, i / 0x800_0000 - q, k);
    }
  }

  // ---------- the overlap check ----------

  /** Some address of the range is mapped. */
  ghost predicate Touches(s: S2, r: int, ipa: nat, sz: nat) {
    exists a :: ipa <= a < ipa + sz && (r, KeyOf(a)) in s.leaf
  }

  /** The range ends in a page that a step of 4096 from its start comes to. */
  predicate EndsInStep(ipa: nat, sz: nat)
    requires sz > 0
  {
    ipa % 4096 + (sz - 1) % 4096 < 4096
  }

  lemma StepKey(ipa: nat, i: nat)
    ensures Hit(ipa, i) == KeyOf(ipa + 4096 * i)
  {
    HitForm(ipa, i);
    DivMod(ipa + 4096 * i, 4096, ipa / 4096 + i, ipa % 4096);
  }

  /** Page number of an address of the range, seen from its start. */
  lemma PageFromStart(ipa: nat, sz: nat, a: nat)
    requires ipa <= a < ipa + sz && EndsInStep(ipa, sz)
    ensures var i := a / 4096 - ipa / 4096; i >= 0 && 4096 * i < sz && Hit(ipa, i) == KeyOf(a)
  {
    var i := a / 4096 - ipa / 4096;
    HitForm(ipa, i);
    var q, e := (sz - 1) / 4096, ipa % 4096 + (sz - 1) % 4096;
    DivMod(ipa + sz - 1, 4096, ipa / 4096 + q, e);
    assert a / 4096 <= (ipa + sz - 1) / 4096;
  }

  /** A range of that many pages comes round to every key. */
  lemma AllKeysStepped(ipa: nat, sz: nat, k: int)
    requires sz > 0x7F_FFFF_F000 && 0 <= k < 0x800_0000
    ensures var i := Delta(ipa, k); 4096 * i < sz && Hit(ipa, i) == k
  {
    var i := Delta(ipa, k);
    DivMod(i, 0x800_0000, 0, i);
    HitIff(ipa, i, k);
  }

  /** Stepping through the range finds a mapped address of it if it ends in a step, or is
      longer than the 2^39 window; what it finds is always in the range. */
  lemma StepsFind(s: S2, r: int, ipa: nat, sz: nat)
    ensures AnyMapped(s, r, ipa, sz) ==> Touches(s, r, ipa, sz)
    ensures sz > 0 && (EndsInStep(ipa, sz) || sz > 0x7F_FFFF_F000) && Touches(s, r, ipa, sz) ==> AnyMapped(s, r, ipa, sz)
  {
    hide Hit, KeyOf;
    if AnyMapped(s, r, ipa, sz) {
      var i: nat :| 4096 * i < sz && (r, Hit(ipa, i)) in s.leaf;
      StepKey(ipa, i);
      assert (r, KeyOf(ipa + 4096 * i)) in s.leaf;
    }
    if sz > 0 && (EndsInStep(ipa, sz) || sz > 0x7F_FFFF_F000) && Touches(s, r, ipa, sz) {
      var a :| ipa <= a < ipa + sz && (r, KeyOf(a)) in s.leaf;
      if EndsInStep(ipa, sz) {
        PageFromStart(ipa, sz, a);
        var i := a / 4096 - ipa / 4096;
        assert (r, Hit(ipa, i)) in s.leaf;
      } else {
        KeyRange(a);
        AllKeysStepped(ipa, sz, KeyOf(a));
        assert (r, Hit(ipa, Delta(ipa, KeyOf(a)))) in s.leaf;
      }
    }
  }

  lemma KeyRange(a: nat)
    ensures 0 <= KeyOf(a) < 0x800_0000
  {
  }

  /** Only the last page of the range is mapped. */
  function LastPage(r: int, ipa: nat, sz: nat): S2
    requires sz > 0
  {
    Empty.(leaf := map[(r, KeyOf(ipa + sz - 1)) := 3])
  }

  /** No step comes to the last page of any other range. */
  lemma LastPageMissed(r: int, ipa: nat, sz: nat)
    requires 0 < sz <= 0x7F_FFFF_F000 && !EndsInStep(ipa, sz)
    ensures Touches(LastPage(r, ipa, sz), r, ipa, sz) && !AnyMapped(LastPage(r, ipa, sz), r, ipa, sz)
  {
    var s, last := LastPage(r, ipa, sz), ipa + sz - 1;
    assert (r, KeyOf(last)) in s.leaf;
    var n := (sz - 1) / 4096 + 1;
    DivMod(last, 4096, ipa / 4096 + n, ipa % 4096 + (sz - 1) % 4096 - 4096);
    forall i: nat | 4096 * i < sz ensures Hit(ipa, i) != KeyOf(last) {
      StepsApart(ipa, i, n);
    }
  }

  lemma StepsApart(ipa: nat, i: nat, n: nat)
    requires i < n < 0x800_0000
    ensures Hit(ipa, i) != (ipa / 4096 + n) % 0x800_0000
  {
    HitForm(ipa, n);
    var k := Hit(ipa, n);
    DivMod(i, 0x800_0000, 0, i);
    DivMod(n, 0x800_0000, 0, n);
    HitIff(ipa, n, k);
    HitIff(ipa, i, k);
  }

  /** The overlap check tells for all tables whether an address of the range is mapped,
      exactly for the ranges that end in a step and those longer than the 2^39 window. */
  lemma OverlapCheckExact(r: int, ipa: nat, sz: nat)
    requires sz > 0
    ensures (forall s :: AnyMapped(s, r, ipa, sz) <==> Touches(s, r, ipa, sz))
            <==> EndsInStep(ipa, sz) || sz > 0x7F_FFFF_F000
  {
    hide AnyMapped, Touches;
    if EndsInStep(ipa, sz) || sz > 0x7F_FFFF_F000 {
      forall s ensures AnyMapped(s, r, ipa, sz) <==> Touches(s, r, ipa, sz) { StepsFind(s, r, ipa, sz); }
    } else {
      LastPageMissed(r, ipa, sz);
    }
  }

  // ---------- ranges ----------

  lemma LastHitStep(ipa: nat, n: nat, k: int)
    requires 0 <= k < 0x800_0000 && n > 0
    ensures Hit(ipa, n - 1) == k ==> Delta(ipa, k) < n && LastHit(ipa, n, k) == n - 1
    ensures Hit(ipa, n - 1) != k ==>
              (Delta(ipa, k) < n <==> Delta(ipa, k) < n - 1)
              && (Delta(ipa, k) < n ==> LastHit(ipa, n, k) == LastHit(ipa, n - 1, k))
  {
    HitIff(ipa, n - 1, k);
  }

  /** Mapping a range gives exactly the covered pages of that VM the frame of the
      last position that lands on them, and leaves every other page of every VM. */
  lemma {:induction false} MapNLeaf(s: S2, r: int, ipa: nat, pa: nat, n: nat, flags: nat, r': int, k: int)
    ensures LookUp(MapN(s, r, ipa, pa, n, flags), r', k)
         == if r' == r && Covers(ipa, n, k)
            then Some(PageDesc(Frame(pa, LastHit(ipa, n, k)), flags))
            else LookUp(s, r', k)
  {
    if n > 0 {
      MapNLeaf(s, r, ipa, pa, n - 1, flags, r', k);
      if 0 <= k < 0x800_0000 {
        LastHitStep(ipa, n, k);
      }
    }
  }

  lemma {:induction false} UnmapNLeaf(s: S2, r: int, ipa: nat, n: nat, r': int, k: int)
    ensures LookUp(UnmapN(s, r, ipa, n), r', k)
         == if r' == r && Covers(ipa, n, k) then None else LookUp(s, r', k)
  {
    if n > 0 {
      UnmapNLeaf(s, r, ipa, n - 1, r', k);
      if 0 <= k < 0x800_0000 {
        LastHitStep(ipa, n, k);
      }
    }
  }

  /** A range inside the 2^39 window does not come round to itself: the pages it
      covers are its own page numbers, each mapped to the matching frame. */
  lemma CoversPlain(ipa: nat, n: nat, k: int)
    requires ipa / 4096 + n <= 0x800_0000
    ensures Covers(ipa, n, k) <==> ipa / 4096 <= k < ipa / 4096 + n
    ensures Covers(ipa, n, k) ==> LastHit(ipa, n, k) == k - ipa / 4096
  {
    var a := ipa / 4096;
    if a <= k < a + n {
      DivMod(k - a, 0x800_0000, 0, k - a);
      DivMod(n - 1 - (k - a), 0x800_0000, 0, n - 1 - (k - a));
    } else if 0 <= k < a {
      DivMod(k - a, 0x800_0000, -1, 0x800_0000 + k - a);
    } else if a + n <= k < 0x800_0000 {
      DivMod(k - a, 0x800_0000, 0, k - a);
    }
  }

  lemma {:induction false} UnmapNTables(s: S2, r: int, ipa: nat, n: nat)
    ensures var t := UnmapN(s, r, ipa, n);
            t.roots == s.roots && t.gigs == s.gigs && t.megs == s.megs
            && t.leaf.Keys <= s.leaf.Keys
            && forall x :: x in t.leaf ==> t.leaf[x] == s.leaf[x]
  {
    if n > 0 {
      UnmapNTables(s, r, ipa, n - 1);
    }
  }

  // ---------- windows and table pages ----------

  function Gigs(r: int, ipa: nat, n: nat): set<(int, int)> {
    set i | 0 <= i < n :: (r, Hit(ipa, i) / 0x4_0000)
  }

  function Megs(r: int, ipa: nat, n: nat): set<(int, int)> {
    set i | 0 <= i < n :: (r, Hit(ipa, i) / 512)
  }

  /** Mapping a range adds exactly the windows that its pages lie in. */
  lemma {:induction false} MapNWindows(s: S2, r: int, ipa: nat, pa: nat, n: nat, flags: nat)
    ensures var t := MapN(s, r, ipa, pa, n, flags);
            t.roots == s.roots
            && t.gigs == s.gigs + Gigs(r, ipa, n)
            && t.megs == s.megs + Megs(r, ipa, n)
  {
    if n > 0 {
      MapNWindows(s, r, ipa, pa, n - 1, flags);
      assert Gigs(r, ipa, n) == Gigs(r, ipa, n - 1) + {(r, Hit(ipa, n - 1) / 0x4_0000)};
      assert Megs(r, ipa, n) == Megs(r, ipa, n - 1) + {(r, Hit(ipa, n - 1) / 512)};
    }
  }

  lemma Present<T>(s: set<T>, x: T)
    requires x in s
    ensures s + {x} == s
  {
  }

  lemma Absent<K, V>(m: map<K, V>, x: K)
    requires x !in m
    ensures m - {x} == m
  {
  }

  lemma SubsetSize<T>(a: set<T>, b: set<T>)
    requires a <= b
    ensures |a| <= |b|
  {
    assert b == a + (b - a);
  }

  lemma NoRoomForMid(s: S2, r: int, k: int, desc: int)
    requires Tables(s) == POOL_PAGES && (r, k / 0x4_0000) !in s.gigs
    ensures Tables(MapPage(s, r, k, desc)) > POOL_PAGES
  {
    SubsetSize(s.megs, s.megs + {(r, k / 512)});
    assert |s.gigs + {(r, k / 0x4_0000)}| == |s.gigs| + 1;
  }

  lemma NoRoomForBottom(s: S2, r: int, k: int, desc: int)
    requires Tables(s.(gigs := s.gigs + {(r, k / 0x4_0000)})) == POOL_PAGES && (r, k / 512) !in s.megs
    ensures Tables(MapPage(s, r, k, desc)) > POOL_PAGES
  {
    assert |s.megs + {(r, k / 512)}| == |s.megs| + 1;
  }

  lemma MapNTablesGrow(s: S2, r: int, ipa: nat, pa: nat, m: nat, n: nat, flags: nat)
    requires m <= n
    ensures Tables(MapN(s, r, ipa, pa, m, flags)) <= Tables(MapN(s, r, ipa, pa, n, flags))
  {
    MapNWindows(s, r, ipa, pa, m, flags);
    MapNWindows(s, r, ipa, pa, n, flags);
    var a, b := MapN(s, r, ipa, pa, m, flags), MapN(s, r, ipa, pa, n, flags);
    SubsetSize(a.gigs, b.gigs);
    SubsetSize(a.megs, b.megs);
  }

  // ---------- descriptors ----------

  /** Attribute flags that leave the address field and the two type bits alone. */
  predicate CleanFlags(flags: nat) {
    flags % 4 == 0 && flags / 4096 % 0x10_0000_0000 == 0
  }

  lemma PageDescValid(pa: nat, flags: nat)
    ensures PageDesc(pa, flags) % 4 == 3
  {
    OrLowBits(BitOr(pa - pa % 4096, flags), 3);
  }

  /** For a frame below 2^48 the three fields do not collide: the descriptor is
      their sum, and a walk reads the frame and the page offset back. */
  lemma PageDescFields(pa: nat, flags: nat, ipa: nat)
    requires pa % 4096 == 0 && pa < 0x1_0000_0000_0000 && CleanFlags(flags)
    ensures PageDesc(pa, flags) == pa + flags + 3
    ensures WalkedPa(PageDesc(pa, flags), ipa) == pa + ipa % 4096
  {
    DescSum(pa, flags);
    AddressField(pa, flags);
    WalkedSum(PageDesc(pa, flags), pa, ipa);
  }

  lemma WalkedSum(desc: int, pa: nat, ipa: nat)
    requires pa % 4096 == 0 && desc % 0x1_0000_0000_0000 / 4096 * 4096 == pa
    ensures WalkedPa(desc, ipa) == pa + ipa % 4096
  {
    FrameAndOffset(pa / 4096, ipa % 4096);
    OrIsSum(pa, ipa % 4096);
  }

  lemma DescSum(pa: nat, flags: nat)
    requires pa % 4096 == 0 && pa < 0x1_0000_0000_0000 && CleanFlags(flags)
    ensures PageDesc(pa, flags) == pa + flags + 3
  {
    FrameAndFlags(pa / 4096, flags);
    OrIsSum(pa, flags);
    DivMod(pa + flags, 4, pa / 4096 * 1024 + flags / 4, 0);
    TypeBits(pa + flags);
  }

  lemma FrameAndFlags(frame: nat, flags: nat)
    requires frame < 0x10_0000_0000 && CleanFlags(flags)
    ensures Disjoint(4096 * frame, flags)
  {
    var high := flags / 4096 / 0x10_0000_0000;
    FrameBelow(frame, high);
    assert flags / 4096 == 0x10_0000_0000 * high;
    FieldsAtPage(0, frame, flags % 4096, flags / 4096);
  }

  lemma FrameBelow(frame: nat, high: nat)
    requires frame < 0x10_0000_0000
    ensures Disjoint(frame, 0x10_0000_0000 * high)
  {
    ShlValues(1);
    ShlValues(high);
    ShlZero(36);
    DisjointZero(high);
    DisjointZero(frame);
    DisjointFields(frame, 0, 0, high, 36);
  }

  lemma FieldsAtPage(a: nat, b: nat, c: nat, d: nat)
    requires a < 4096 && c < 4096 && (a == 0 || c == 0) && Disjoint(b, d)
    ensures Disjoint(a + 4096 * b, c + 4096 * d)
  {
    ShlValues(1);
    ShlValues(b);
    ShlValues(d);
    DisjointZero(a);
    DisjointZero(c);
    DisjointFields(a, b, c, d, 12);
  }

  lemma FrameAndOffset(frame: nat, off: nat)
    requires off < 4096
    ensures Disjoint(4096 * frame, off)
  {
    DisjointZero(frame);
    FieldsAtPage(0, frame, off, 0);
  }

  lemma AddressField(pa: nat, flags: nat)
    requires pa % 4096 == 0 && pa < 0x1_0000_0000_0000 && CleanFlags(flags)
    ensures (pa + flags + 3) % 0x1_0000_0000_0000 / 4096 * 4096 == pa
  {
    var low, high := flags % 4096, flags / 4096 / 0x10_0000_0000;
    assert flags == low + 0x1_0000_0000_0000 * high;
    assert low % 4 == 0 && low + 3 < 4096;
    DivMod(pa + flags + 3, 0x1_0000_0000_0000, high, pa + low + 3);
    DivMod(pa + low + 3, 4096, pa / 4096, low + 3);
  }

  lemma TypeBits(a: nat)
    requires a % 4 == 0
    ensures BitOr(a, 3) == a + 3
  {
    DisjointZero(a / 4);
    assert Disjoint(a / 2 / 2, 0);
    assert Disjoint(a / 2, 1);
    assert Disjoint(a, 3);
    OrIsSum(a, 3);
  }
}
