/** What the parts of SHA-256 mean, apart from how they are computed. */
module ShaLaws {
  import opened Words
  import opened Octets
  import opened Sha256

  // ---------- logical functions, bit by bit (section 4.1.2) ----------

  predicate Bit(x: bv32, i: bv32)
    requires i < 32
  {
    (x >> i) & 1 == 1
  }

  /** The bit n places up, coming round at the top. */
  function Up(i: bv32, n: bv32): (j: bv32)
    requires i < 32 && n < 32
    ensures j < 32
  {
    if i + n < 32 then i + n else i + n - 32
  }

  /** An odd number of three. */
  predicate Odd3(p: bool, q: bool, r: bool) {
    (p != q) != r
  }

  lemma Indices(i: bv32)
    requires i < 32
    ensures i == 0 || i == 1 || i == 2 || i == 3 || i == 4 || i == 5 || i == 6 || i == 7 || i == 8 || i == 9 ||
            i == 10 || i == 11 || i == 12 || i == 13 || i == 14 || i == 15 || i == 16 || i == 17 || i == 18 || i
            == 19 || i == 20 || i == 21 || i == 22 || i == 23 || i == 24 || i == 25 || i == 26 || i == 27 || i
            == 28 || i == 29 || i == 30 || i == 31
  {
  }

  /** `e` chooses between `f` and `g`. */
  lemma ChChooses(e: bv32, f: bv32, g: bv32)
    ensures Ch(e, f, g) & e == f & e && Ch(e, f, g) & !e == g & !e
  {
  }

  /** Where two agree the majority is theirs; where they do not, the third decides. */
  lemma MajDecides(a: bv32, b: bv32, c: bv32)
    ensures Maj(a, b, c) & !(a ^ b) == a & !(a ^ b) && Maj(a, b, c) & (a ^ b) == c & (a ^ b)
  {
  }

  lemma Ep0Bits(x: bv32, i: bv32)
    requires i < 32
    ensures Bit(Ep0(x), i) == Odd3(Bit(x, Up(i, 2)), Bit(x, Up(i, 13)), Bit(x, Up(i, 22)))
  {
    Indices(i);
  }

  lemma Ep1Bits(x: bv32, i: bv32)
    requires i < 32
    ensures Bit(Ep1(x), i) == Odd3(Bit(x, Up(i, 6)), Bit(x, Up(i, 11)), Bit(x, Up(i, 25)))
  {
    Indices(i);
  }

  lemma Sig0Bits(x: bv32, i: bv32)
    requires i < 32
    ensures Bit(Sig0(x), i) == Odd3(Bit(x, Up(i, 7)), Bit(x, Up(i, 18)), i + 3 < 32 && Bit(x, i + 3))
  {
    Indices(i);
  }

  lemma Sig1Bits(x: bv32, i: bv32)
    requires i < 32
    ensures Bit(Sig1(x), i) == Odd3(Bit(x, Up(i, 17)), Bit(x, Up(i, 19)), i + 10 < 32 && Bit(x, i + 10))
  {
    Indices(i);
  }

  // ---------- words and digests ----------

  lemma ThereAndBack(w: bv32)
    ensures ToWord(w as int) == w
  {
  }

  lemma FromBytes(b: Bytes, v: u32)
    requires b == Be32(v)
    ensures b[0] as int * 0x100_0000 + b[1] as int * 0x1_0000 + b[2] as int * 0x100 + b[3] as int == v
  {
    U32Be32(v, []);
    assert Be32(v) + [] == b;
  }

  /** Word t of a block is what its bytes 4t to 4t + 3 were written from, the most
      significant first. */
  lemma WordBig(block: Bytes, t: nat, w: bv32)
    requires |block| == 64 && t < 16 && block[4 * t..4 * t + 4] == WordBytes(w)
    ensures Word(block, t) == w
  {
    hide ToWord, Be32;
    var b := block[4 * t..4 * t + 4];
    assert block[4 * t] == b[0] && block[4 * t + 1] == b[1] && block[4 * t + 2] == b[2] && block[4 * t + 3] == b[3];
    FromBytes(b, w as int);
    ThereAndBack(w);
  }

  lemma WordBytesBig(w: bv32)
    ensures var v := w as int; WordBytes(w) == [v / 0x100_0000, v / 0x1_0000 % 0x100, v / 0x100 % 0x100, v % 0x100]
  {
  }

  function Reg(r: Regs, i: nat): bv32
    requires i < 8
  {
    if i == 0 then r.a else if i == 1 then r.b else if i == 2 then r.c else if i == 3 then r.d
    else if i == 4 then r.e else if i == 5 then r.f else if i == 6 then r.g else r.h
  }

  lemma DigestPart(r: Regs, i: nat)
    requires i < 8
    ensures Digest(r)[4 * i..4 * i + 4] == WordBytes(Reg(r, i))
  {
    hide WordBytes, Reg;
    EightWords(WordBytes(r.a), WordBytes(r.b), WordBytes(r.c), WordBytes(r.d),
               WordBytes(r.e), WordBytes(r.f), WordBytes(r.g), WordBytes(r.h), i);
    RegIs(r, i);
  }

  lemma EightWords(a: Bytes, b: Bytes, c: Bytes, d: Bytes, e: Bytes, f: Bytes, g: Bytes, h: Bytes, i: nat)
    requires i < 8 && |a| == |b| == |c| == |d| == |e| == |f| == |g| == |h| == 4
    ensures (a + b + c + d + e + f + g + h)[4 * i..4 * i + 4]
         == if i == 0 then a else if i == 1 then b else if i == 2 then c else if i == 3 then d
            else if i == 4 then e else if i == 5 then f else if i == 6 then g else h
  {
  }

  lemma RegIs(r: Regs, i: nat)
    requires i < 8
    ensures Reg(r, i) == if i == 0 then r.a else if i == 1 then r.b else if i == 2 then r.c else if i == 3 then r.d
                         else if i == 4 then r.e else if i == 5 then r.f else if i == 6 then r.g else r.h
  {
  }

  /** The digest is the eight words in order, each with the most significant byte first. */
  lemma DigestBig(r: Regs, i: nat)
    requires i < 8
    ensures var w := Reg(r, i) as int;
            Digest(r)[4 * i..4 * i + 4] == [w / 0x100_0000, w / 0x1_0000 % 0x100, w / 0x100 % 0x100, w % 0x100]
  {
    hide Digest;
    DigestPart(r, i);
  }

  // ---------- padding (section 5.1.1) ----------

  function Big64(b: Bytes): int
    requires |b| == 8
  {
    b[0] as int * 0x100_0000_0000_0000 + b[1] as int * 0x1_0000_0000_0000 + b[2] as int * 0x100_0000_0000
    + b[3] as int * 0x1_0000_0000 + b[4] as int * 0x100_0000 + b[5] as int * 0x1_0000 + b[6] as int * 0x100 + b[7] as int
  }

  lemma Big64Reads(v: u64)
    ensures Big64(Be64(v)) == v
  {
    var hi, lo := v / 0x1_0000_0000, v % 0x1_0000_0000;
    U32Be32(hi, []);
    U32Be32(lo, []);
    assert Be32(hi) + [] == Be32(hi) && Be32(lo) + [] == Be32(lo);
    assert Be64(v)[..4] == Be32(hi) && Be64(v)[4..] == Be32(lo);
  }

  /** The message, a one bit, zeros, and the length of the message in bits. */
  lemma PaddingByIndex(msg: Bytes)
    ensures var p := Padded(msg);
            && |p| >= |msg| + 9 && p[..|msg|] == msg && p[|msg|] == 0x80
            && (forall i :: |msg| < i < |p| - 8 ==> p[i] == 0)
            && Big64(p[|p| - 8..]) == 8 * |msg| % 0x1_0000_0000_0000_0000
  {
    hide Be64, Big64;
    var p := Padded(msg);
    assert p[|p| - 8..] == Be64(BitCount(|msg|));
    Big64Reads(BitCount(|msg|));
  }

  // ---------- constants (sections 4.2.2 and 5.3.3) ----------

  /** x is the cube root of p, 32 bits behind the point, rounded down. */
  predicate CubeRoot(x: nat, p: nat) {
    x * x * x <= p * 0x1_0000_0000_0000_0000_0000_0000 < (x + 1) * (x + 1) * (x + 1)
  }

  predicate SquareRoot(x: nat, p: nat) {
    x * x <= p * 0x1_0000_0000_0000_0000 < (x + 1) * (x + 1)
  }

  /** k is the fractional part of the cube root of p. */
  ghost predicate CubeFraction(k: u32, p: nat) {
    exists x: nat :: CubeRoot(x, p) && x % 0x1_0000_0000 == k
  }

  ghost predicate SquareFraction(k: u32, p: nat) {
    exists x: nat :: SquareRoot(x, p) && x % 0x1_0000_0000 == k
  }

  /** The first 64 prime numbers, in rows of eight. */
  function Primes(row: nat): (ps: seq<nat>)
    requires row < 8
    ensures |ps| == 8
  {
    if row == 0 then [2, 3, 5, 7, 11, 13, 17, 19]
    else if row == 1 then [23, 29, 31, 37, 41, 43, 47, 53]
    else if row == 2 then [59, 61, 67, 71, 73, 79, 83, 89]
    else if row == 3 then [97, 101, 103, 107, 109, 113, 127, 131]
    else if row == 4 then [137, 139, 149, 151, 157, 163, 167, 173]
    else if row == 5 then [179, 181, 191, 193, 197, 199, 211, 223]
    else if row == 6 then [227, 229, 233, 239, 241, 251, 257, 263]
    else [269, 271, 277, 281, 283, 293, 307, 311]
  }

  function KRow(row: nat): (ks: seq<u32>)
    requires row < 8
    ensures |ks| == 8
  {
    if row == 0 then K0 else if row == 1 then K1 else if row == 2 then K2 else if row == 3 then K3
    else if row == 4 then K4 else if row == 5 then K5 else if row == 6 then K6 else K7
  }

  lemma KByRows(row: nat)
    requires row < 8
    ensures |K| == 64 && K[8 * row..8 * row + 8] == KRow(row)
  {
    JoinRows(K0, K1, K2, K3, K4, K5, K6, K7, row);
  }

  lemma JoinRows(a: seq<u32>, b: seq<u32>, c: seq<u32>, d: seq<u32>, e: seq<u32>, f: seq<u32>, g: seq<u32>, h: seq<u32>, i: nat)
    requires i < 8 && |a| == |b| == |c| == |d| == |e| == |f| == |g| == |h| == 8
    ensures (a + b + c + d + e + f + g + h)[8 * i..8 * i + 8]
         == if i == 0 then a else if i == 1 then b else if i == 2 then c else if i == 3 then d
            else if i == 4 then e else if i == 5 then f else if i == 6 then g else h
  {
  }

  /** The round constants are the fractional parts of the cube roots of the first 64 primes. */
  lemma KRoots(row: nat, i: nat)
    requires row < 8 && i < 8
    ensures CubeFraction(K[8 * row + i], Primes(row)[i])
  {
    hide CubeFraction;
    KByRows(row);
    assert K[8 * row + i] == K[8 * row..8 * row + 8][i];
    if row < 4 {
      if row == 0 { KRoots0(i); } else if row == 1 { KRoots1(i); } else if row == 2 { KRoots2(i); } else { KRoots3(i); }
    } else {
      if row == 4 { KRoots4(i); } else if row == 5 { KRoots5(i); } else if row == 6 { KRoots6(i); } else { KRoots7(i); }
    }
  }

  lemma CubeAt(k: u32, p: nat, x: nat)
    requires CubeRoot(x, p) && x % 0x1_0000_0000 == k
    ensures CubeFraction(k, p)
  {
  }

  lemma SquareAt(k: u32, p: nat, x: nat)
    requires SquareRoot(x, p) && x % 0x1_0000_0000 == k
    ensures SquareFraction(k, p)
  {
  }

  lemma KRoots0(i: nat)
    requires i < 8
    ensures CubeFraction(K0[i], Primes(0)[i])
  {
    hide CubeFraction;
    var k, p := K0, Primes(0);
    CubeAt(k[0], p[0], 0x1_428A_2F98); CubeAt(k[1], p[1], 0x1_7137_4491);
    CubeAt(k[2], p[2], 0x1_B5C0_FBCF); CubeAt(k[3], p[3], 0x1_E9B5_DBA5);
    CubeAt(k[4], p[4], 0x2_3956_C25B); CubeAt(k[5], p[5], 0x2_59F1_11F1);
    CubeAt(k[6], p[6], 0x2_923F_82A4); CubeAt(k[7], p[7], 0x2_AB1C_5ED5);
  }

  lemma KRoots1(i: nat)
    requires i < 8
    ensures CubeFraction(K1[i], Primes(1)[i])
  {
    hide CubeFraction;
    var k, p := K1, Primes(1);
    CubeAt(k[0], p[0], 0x2_D807_AA98); CubeAt(k[1], p[1], 0x3_1283_5B01);
    CubeAt(k[2], p[2], 0x3_2431_85BE); CubeAt(k[3], p[3], 0x3_550C_7DC3);
    CubeAt(k[4], p[4], 0x3_72BE_5D74); CubeAt(k[5], p[5], 0x3_80DE_B1FE);
    CubeAt(k[6], p[6], 0x3_9BDC_06A7); CubeAt(k[7], p[7], 0x3_C19B_F174);
  }

  lemma KRoots2(i: nat)
    requires i < 8
    ensures CubeFraction(K2[i], Primes(2)[i])
  {
    hide CubeFraction;
    var k, p := K2, Primes(2);
    CubeAt(k[0], p[0], 0x3_E49B_69C1); CubeAt(k[1], p[1], 0x3_EFBE_4786);
    CubeAt(k[2], p[2], 0x4_0FC1_9DC6); CubeAt(k[3], p[3], 0x4_240C_A1CC);
    CubeAt(k[4], p[4], 0x4_2DE9_2C6F); CubeAt(k[5], p[5], 0x4_4A74_84AA);
    CubeAt(k[6], p[6], 0x4_5CB0_A9DC); CubeAt(k[7], p[7], 0x4_76F9_88DA);
  }

  lemma KRoots3(i: nat)
    requires i < 8
    ensures CubeFraction(K3[i], Primes(3)[i])
  {
    hide CubeFraction;
    var k, p := K3, Primes(3);
    CubeAt(k[0], p[0], 0x4_983E_5152); CubeAt(k[1], p[1], 0x4_A831_C66D);
    CubeAt(k[2], p[2], 0x4_B003_27C8); CubeAt(k[3], p[3], 0x4_BF59_7FC7);
    CubeAt(k[4], p[4], 0x4_C6E0_0BF3); CubeAt(k[5], p[5], 0x4_D5A7_9147);
    CubeAt(k[6], p[6], 0x5_06CA_6351); CubeAt(k[7], p[7], 0x5_1429_2967);
  }

  lemma KRoots4(i: nat)
    requires i < 8
    ensures CubeFraction(K4[i], Primes(4)[i])
  {
    hide CubeFraction;
    var k, p := K4, Primes(4);
    CubeAt(k[0], p[0], 0x5_27B7_0A85); CubeAt(k[1], p[1], 0x5_2E1B_2138);
    CubeAt(k[2], p[2], 0x5_4D2C_6DFC); CubeAt(k[3], p[3], 0x5_5338_0D13);
    CubeAt(k[4], p[4], 0x5_650A_7354); CubeAt(k[5], p[5], 0x5_766A_0ABB);
    CubeAt(k[6], p[6], 0x5_81C2_C92E); CubeAt(k[7], p[7], 0x5_9272_2C85);
  }

  lemma KRoots5(i: nat)
    requires i < 8
    ensures CubeFraction(K5[i], Primes(5)[i])
  {
    hide CubeFraction;
    var k, p := K5, Primes(5);
    CubeAt(k[0], p[0], 0x5_A2BF_E8A1); CubeAt(k[1], p[1], 0x5_A81A_664B);
    CubeAt(k[2], p[2], 0x5_C24B_8B70); CubeAt(k[3], p[3], 0x5_C76C_51A3);
    CubeAt(k[4], p[4], 0x5_D192_E819); CubeAt(k[5], p[5], 0x5_D699_0624);
    CubeAt(k[6], p[6], 0x5_F40E_3585); CubeAt(k[7], p[7], 0x6_106A_A070);
  }

  lemma KRoots6(i: nat)
    requires i < 8
    ensures CubeFraction(K6[i], Primes(6)[i])
  {
    hide CubeFraction;
    var k, p := K6, Primes(6);
    CubeAt(k[0], p[0], 0x6_19A4_C116); CubeAt(k[1], p[1], 0x6_1E37_6C08);
    CubeAt(k[2], p[2], 0x6_2748_774C); CubeAt(k[3], p[3], 0x6_34B0_BCB5);
    CubeAt(k[4], p[4], 0x6_391C_0CB3); CubeAt(k[5], p[5], 0x6_4ED8_AA4A);
    CubeAt(k[6], p[6], 0x6_5B9C_CA4F); CubeAt(k[7], p[7], 0x6_682E_6FF3);
  }

  lemma KRoots7(i: nat)
    requires i < 8
    ensures CubeFraction(K7[i], Primes(7)[i])
  {
    hide CubeFraction;
    var k, p := K7, Primes(7);
    CubeAt(k[0], p[0], 0x6_748F_82EE); CubeAt(k[1], p[1], 0x6_78A5_636F);
    CubeAt(k[2], p[2], 0x6_84C8_7814); CubeAt(k[3], p[3], 0x6_8CC7_0208);
    CubeAt(k[4], p[4], 0x6_90BE_FFFA); CubeAt(k[5], p[5], 0x6_A450_6CEB);
    CubeAt(k[6], p[6], 0x6_BEF9_A3F7); CubeAt(k[7], p[7], 0x6_C671_78F2);
  }

  /** The initial hash value is the fractional parts of the square roots of the first eight. */
  lemma IVRoots(i: nat)
    requires i < 8
    ensures SquareFraction(IV[i], Primes(0)[i])
  {
    hide SquareFraction;
    var k, p := IV, Primes(0);
    SquareAt(k[0], p[0], 0x1_6A09_E667); SquareAt(k[1], p[1], 0x1_BB67_AE85);
    SquareAt(k[2], p[2], 0x2_3C6E_F372); SquareAt(k[3], p[3], 0x2_A54F_F53A);
    SquareAt(k[4], p[4], 0x3_510E_527F); SquareAt(k[5], p[5], 0x3_9B05_688C);
    SquareAt(k[6], p[6], 0x4_1F83_D9AB); SquareAt(k[7], p[7], 0x4_5BE0_CD19);
  }
}
