/** Machine words as bounded integers: wrap-around is written out, and the
    bitwise operators the source uses on 64-bit words are defined bit by bit. */
module Words {

  type u8 = x: int | 0 <= x < 0x100
  type u32 = x: int | 0 <= x < 0x1_0000_0000
  type u64 = x: int | 0 <= x < 0x1_0000_0000_0000_0000

  function Add64(a: int, b: int): u64 { (a + b) % 0x1_0000_0000_0000_0000 }

  function Sub64(a: int, b: int): u64 { (a - b) % 0x1_0000_0000_0000_0000 }

  function Inc32(a: int): u32 { (a + 1) % 0x1_0000_0000 }

  /** Quotient and remainder are determined by the equation they satisfy. */
  lemma DivMod(x: int, d: int, q: int, r: int)
    requires 0 <= r < d && x == q * d + r
    ensures x / d == q && x % d == r
  {
    var k := q - x / d;
    assert k * d == x % d - r;
    assert k >= 1 ==> k * d >= d;
    assert k <= -1 ==> k * d <= -d;
  }

  /** The source's error codes (the ones its modelled functions return). `Hangs` stands
      for a call that never comes back. */
  datatype Err = Ok | NoMem | Inval | Busy | NotFound | Hangs

  const MAX_VMS: nat := 4

  datatype Option<+T> = None | Some(value: T)

  // ---------- bitwise operators ----------

  function BitOr(a: nat, b: nat): nat
    decreases a + b
  {
    if a == 0 && b == 0 then 0
    else (if a % 2 == 1 || b % 2 == 1 then 1 else 0) + 2 * BitOr(a / 2, b / 2)
  }

  function BitXor(a: nat, b: nat): nat
    decreases a + b
  {
    if a == 0 && b == 0 then 0
    else (if a % 2 == b % 2 then 0 else 1) + 2 * BitXor(a / 2, b / 2)
  }

  /** No bit position is set in both words. */
  predicate Disjoint(a: nat, b: nat)
    decreases a + b
  {
    (a == 0 && b == 0) || (!(a % 2 == 1 && b % 2 == 1) && Disjoint(a / 2, b / 2))
  }

  /** a * 2^k, by doubling. */
  function Shl(a: nat, k: nat): nat
  {
    if k == 0 then a else 2 * Shl(a, k - 1)
  }

  lemma {:induction false} OrIsSum(a: nat, b: nat)
    requires Disjoint(a, b)
    ensures BitOr(a, b) == a + b
    decreases a + b
  {
    if a != 0 || b != 0 {
      OrIsSum(a / 2, b / 2);
    }
  }

  lemma {:induction false} DisjointZero(b: nat)
    ensures Disjoint(0, b) && Disjoint(b, 0)
    decreases b
  {
    if b != 0 {
      DisjointZero(b / 2);
    }
  }

  /** Fields side by side: low parts below 2^k, high parts shifted by k. */
  lemma {:induction false} DisjointFields(a: nat, b: nat, c: nat, d: nat, k: nat)
    requires a < Shl(1, k) && c < Shl(1, k)
    requires Disjoint(a, c) && Disjoint(b, d)
    ensures Disjoint(a + Shl(b, k), c + Shl(d, k))
    decreases k
  {
    if k > 0 {
      DisjointFields(a / 2, b, c / 2, d, k - 1);
      DisjointStep(a, c, Shl(b, k - 1), Shl(d, k - 1));
    }
  }

  lemma DisjointStep(a: nat, c: nat, m: nat, n: nat)
    requires Disjoint(a, c) && Disjoint(a / 2 + m, c / 2 + n)
    ensures Disjoint(a + 2 * m, c + 2 * n)
  {
    assert (a + 2 * m) / 2 == a / 2 + m && (c + 2 * n) / 2 == c / 2 + n;
  }

  /** Bits of either operand stay set: the two low bits. */
  lemma OrLowBits(a: nat, b: nat)
    requires b % 4 == 3
    ensures BitOr(a, b) % 4 == 3
  {
    var q := b / 4;
    DivMod(b, 2, 2 * q + 1, 1);
    DivMod(2 * q + 1, 2, q, 1);
    OrOdd(a, b);
    OrOdd(a / 2, b / 2);
    var r := BitOr(a / 2 / 2, b / 2 / 2);
    DivMod(3 + 4 * r, 4, r, 3);
  }

  lemma OrOdd(a: nat, b: nat)
    requires b % 2 == 1
    ensures BitOr(a, b) == 1 + 2 * BitOr(a / 2, b / 2)
  {
  }

  lemma {:induction false} ShlZero(k: nat)
    ensures Shl(0, k) == 0
  {
    if k > 0 { ShlZero(k - 1); }
  }

  lemma {:induction false} XorZero(a: nat, b: nat)
    ensures BitXor(a, b) == 0 <==> a == b
    decreases a + b
  {
    if a != 0 || b != 0 {
      XorZero(a / 2, b / 2);
    }
  }

  lemma {:induction false} OrZero(a: nat, b: nat)
    ensures BitOr(a, b) == 0 <==> a == 0 && b == 0
    decreases a + b
  {
    if a != 0 || b != 0 {
      OrZero(a / 2, b / 2);
    }
  }

  lemma {:induction false} XorBound(a: nat, b: nat, k: nat)
    requires a < Shl(1, k) && b < Shl(1, k)
    ensures BitXor(a, b) < Shl(1, k)
    decreases k
  {
    if k > 0 {
      XorBound(a / 2, b / 2, k - 1);
    }
  }

  lemma Shl4(a: nat, k: nat)
    ensures Shl(a, k + 4) == 16 * Shl(a, k)
  {
    assert Shl(a, k + 4) == 2 * Shl(a, k + 3);
    assert Shl(a, k + 3) == 2 * Shl(a, k + 2);
    assert Shl(a, k + 2) == 2 * Shl(a, k + 1);
  }

  lemma ShlValues(a: nat)
    ensures Shl(a, 8) == 0x100 * a
    ensures Shl(a, 12) == 0x1000 * a
    ensures Shl(a, 36) == 0x10_0000_0000 * a
  {
    Shl4(a, 0); Shl4(a, 4); Shl4(a, 8); Shl4(a, 12); Shl4(a, 16);
    Shl4(a, 20); Shl4(a, 24); Shl4(a, 28); Shl4(a, 32);
  }

  /** Bit b of a word. */
  function BitAt(a: nat, b: nat): bool {
    if b == 0 then a % 2 == 1 else BitAt(a / 2, b - 1)
  }

  lemma {:induction false} XorBits(x: nat, y: nat, b: nat)
    ensures BitAt(BitXor(x, y), b) <==> BitAt(x, b) != BitAt(y, b)
    decreases b
  {
    XorHalves(x, y);
    if b > 0 { XorBits(x / 2, y / 2, b - 1); }
  }

  lemma {:induction false} SameBits(x: nat, y: nat, k: nat)
    requires x < Shl(1, k) && y < Shl(1, k) && forall b :: 0 <= b < k ==> BitAt(x, b) == BitAt(y, b)
    ensures x == y
  {
    if k > 0 {
      forall b | 0 <= b < k - 1 ensures BitAt(x / 2, b) == BitAt(y / 2, b) { assert BitAt(x, b + 1) == BitAt(y, b + 1); }
      assert BitAt(x, 0) == BitAt(y, 0);
      SameBits(x / 2, y / 2, k - 1);
    }
  }

  lemma XorHalves(x: nat, y: nat)
    ensures BitXor(x, y) % 2 == (if x % 2 == y % 2 then 0 else 1) && BitXor(x, y) / 2 == BitXor(x / 2, y / 2)
  {
    var r, z := if x % 2 == y % 2 then 0 else 1, BitXor(x / 2, y / 2);
    DivMod(r + 2 * z, 2, z, r);
  }

  /** A 32-bit count of n more, and of one more than that. */
  lemma IncSum(c: int, n: int)
    ensures Inc32((c + n) % 0x1_0000_0000) == (c + (n + 1)) % 0x1_0000_0000
  {
    var r := (c + n) % 0x1_0000_0000 + 1;
    DivMod(c + n + 1, 0x1_0000_0000, (c + n) / 0x1_0000_0000 + r / 0x1_0000_0000, r % 0x1_0000_0000);
  }
}
