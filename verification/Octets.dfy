/** Byte strings and big-endian words. */
module Octets {
  import opened Words

  type Bytes = seq<u8>

  function Zeros(n: nat): Bytes {
    seq(n, i => 0)
  }

  function Be32(v: u32): (b: Bytes)
    ensures |b| == 4
  {
    [v / 0x100_0000, v / 0x1_0000 % 0x100, v / 0x100 % 0x100, v % 0x100]
  }

  function Be64(v: u64): (b: Bytes)
    ensures |b| == 8
  {
    Be32(v / 0x1_0000_0000) + Be32(v % 0x1_0000_0000)
  }

  function U32(b: Bytes): int
    requires |b| >= 4
  {
    b[0] as int * 0x100_0000 + b[1] as int * 0x1_0000 + b[2] as int * 0x100 + b[3] as int
  }

  /** A word reads back, and what follows it is what was written after it. */
  lemma U32Be32(v: u32, rest: Bytes)
    ensures U32(Be32(v) + rest) == v && (Be32(v) + rest)[4..] == rest
  {
    DivMod(v / 0x100, 0x100, v / 0x1_0000, v / 0x100 % 0x100);
    DivMod(v / 0x1_0000, 0x100, v / 0x100_0000, v / 0x1_0000 % 0x100);
  }

  lemma Be32Injective(v: u32, w: u32)
    requires Be32(v) == Be32(w)
    ensures v == w
  {
    U32Be32(v, []);
    U32Be32(w, []);
  }
}
