/** SHA-256 as FIPS 180-4 defines it, and the streaming implementation of it. */
module Sha256 {
  import opened Words
  import opened Octets

  // ---------- compression of one block (section 6.2.2) ----------

  const K0: seq<u32> := [0x428a2f98, 0x71374491, 0xb5c0fbcf, 0xe9b5dba5, 0x3956c25b, 0x59f111f1, 0x923f82a4, 0xab1c5ed5]
  const K1: seq<u32> := [0xd807aa98, 0x12835b01, 0x243185be, 0x550c7dc3, 0x72be5d74, 0x80deb1fe, 0x9bdc06a7, 0xc19bf174]
  const K2: seq<u32> := [0xe49b69c1, 0xefbe4786, 0x0fc19dc6, 0x240ca1cc, 0x2de92c6f, 0x4a7484aa, 0x5cb0a9dc, 0x76f988da]
  const K3: seq<u32> := [0x983e5152, 0xa831c66d, 0xb00327c8, 0xbf597fc7, 0xc6e00bf3, 0xd5a79147, 0x06ca6351, 0x14292967]
  const K4: seq<u32> := [0x27b70a85, 0x2e1b2138, 0x4d2c6dfc, 0x53380d13, 0x650a7354, 0x766a0abb, 0x81c2c92e, 0x92722c85]
  const K5: seq<u32> := [0xa2bfe8a1, 0xa81a664b, 0xc24b8b70, 0xc76c51a3, 0xd192e819, 0xd6990624, 0xf40e3585, 0x106aa070]
  const K6: seq<u32> := [0x19a4c116, 0x1e376c08, 0x2748774c, 0x34b0bcb5, 0x391c0cb3, 0x4ed8aa4a, 0x5b9cca4f, 0x682e6ff3]
  const K7: seq<u32> := [0x748f82ee, 0x78a5636f, 0x84c87814, 0x8cc70208, 0x90befffa, 0xa4506ceb, 0xbef9a3f7, 0xc67178f2]

  const K: seq<u32> := K0 + K1 + K2 + K3 + K4 + K5 + K6 + K7

  /** The eight working variables, and the hash value between blocks. */
  datatype Regs = Regs(a: bv32, b: bv32, c: bv32, d: bv32, e: bv32, f: bv32, g: bv32, h: bv32)

  const IV: seq<u32> := [0x6a09e667, 0xbb67ae85, 0x3c6ef372, 0xa54ff53a, 0x510e527f, 0x9b05688c, 0x1f83d9ab, 0x5be0cd19]

  const H0: Regs := Regs(ToWord(IV[0]), ToWord(IV[1]), ToWord(IV[2]), ToWord(IV[3]),
                         ToWord(IV[4]), ToWord(IV[5]), ToWord(IV[6]), ToWord(IV[7]))

  function ToWord(x: u32): bv32 { x as bv32 }

  function Rotr(x: bv32, n: bv32): bv32
    requires 0 < n < 32
  {
    (x >> n) | (x << (32 - n))
  }

  function Ch(e: bv32, f: bv32, g: bv32): bv32 { (e & f) ^ (!e & g) }

  function Maj(a: bv32, b: bv32, c: bv32): bv32 { (a & b) ^ (a & c) ^ (b & c) }

  function Ep0(a: bv32): bv32 { Rotr(a, 2) ^ Rotr(a, 13) ^ Rotr(a, 22) }

  function Ep1(e: bv32): bv32 { Rotr(e, 6) ^ Rotr(e, 11) ^ Rotr(e, 25) }

  function Sig0(x: bv32): bv32 { Rotr(x, 7) ^ Rotr(x, 18) ^ (x >> 3) }

  function Sig1(x: bv32): bv32 { Rotr(x, 17) ^ Rotr(x, 19) ^ (x >> 10) }

  /** A big-endian word of a block. The shifted bytes have no bit in common. */
  function Word(block: Bytes, t: nat): bv32
    requires |block| == 64 && t < 16
  {
    var b0: int, b1: int, b2: int, b3: int := block[4 * t], block[4 * t + 1], block[4 * t + 2], block[4 * t + 3];
    ToWord(b0 * 0x100_0000 + b1 * 0x1_0000 + b2 * 0x100 + b3)
  }

  function Extend(w2: bv32, w7: bv32, w15: bv32, w16: bv32): bv32 { Sig1(w2) + w7 + Sig0(w15) + w16 }

  function T1(e: bv32, f: bv32, g: bv32, h: bv32, k: bv32, w: bv32): bv32 { h + Ep1(e) + Ch(e, f, g) + k + w }

  function T2(a: bv32, b: bv32, c: bv32): bv32 { Ep0(a) + Maj(a, b, c) }

  function Plus(x: bv32, y: bv32): bv32 { x + y }

  /** The message schedule. */
  function W(block: Bytes, t: nat): bv32
    requires |block| == 64
  {
    if t < 16 then Word(block, t)
    else Extend(W(block, t - 2), W(block, t - 7), W(block, t - 15), W(block, t - 16))
  }

  function Round(r: Regs, k: bv32, w: bv32): Regs {
    var t1, t2 := T1(r.e, r.f, r.g, r.h, k, w), T2(r.a, r.b, r.c);
    Regs(Plus(t1, t2), r.a, r.b, r.c, Plus(r.d, t1), r.e, r.f, r.g)
  }

  function Rounds(r: Regs, block: Bytes, n: nat): Regs
    requires |block| == 64 && n <= 64
  {
    if n == 0 then r else Round(Rounds(r, block, n - 1), ToWord(K[n - 1]), W(block, n - 1))
  }

  function Sum(r: Regs, s: Regs): Regs {
    Regs(Plus(r.a, s.a), Plus(r.b, s.b), Plus(r.c, s.c), Plus(r.d, s.d),
         Plus(r.e, s.e), Plus(r.f, s.f), Plus(r.g, s.g), Plus(r.h, s.h))
  }

  function Compress(r: Regs, block: Bytes): Regs
    requires |block| == 64
  {
    Sum(r, Rounds(r, block, 64))
  }

  method Schedule(block: Bytes) returns (w: array<bv32>)
    requires |block| == 64
    ensures fresh(w) && w.Length == 64 && forall t :: 0 <= t < 64 ==> w[t] == W(block, t)
  {
    hide Extend, Word;
    w := new bv32[64];
    var i := 0;
    while i < 16
      invariant 0 <= i <= 16 && forall t :: 0 <= t < i ==> w[t] == W(block, t)
    {
      w[i] := Word(block, i);
      i := i + 1;
    }
    while i < 64
      invariant 16 <= i <= 64 && forall t :: 0 <= t < i ==> w[t] == W(block, t)
    {
      w[i] := Extend(w[i - 2], w[i - 7], w[i - 15], w[i - 16]);
      i := i + 1;
    }
  }

  method CompressBlock(r: Regs, block: Bytes) returns (s: Regs)
    requires |block| == 64
    ensures s == Compress(r, block)
  {
    hide W, T1, T2, Plus;
    var w := Schedule(block);
    var a, b, c, d, e, f, g, h := r.a, r.b, r.c, r.d, r.e, r.f, r.g, r.h;
    var i := 0;
    while i < 64
      invariant 0 <= i <= 64 && Regs(a, b, c, d, e, f, g, h) == Rounds(r, block, i)
    {
      var t1 := T1(e, f, g, h, ToWord(K[i]), w[i]);
      var t2 := T2(a, b, c);
      h := g;
      g := f;
      f := e;
      e := Plus(d, t1);
      d := c;
      c := b;
      b := a;
      a := Plus(t1, t2);
      i := i + 1;
    }
    s := Sum(r, Regs(a, b, c, d, e, f, g, h));
  }

  // ---------- padding and the hash of a message (sections 5.1.1 and 6.2) ----------

  /** The hash value after the first q blocks of the message. */
  function Absorb(r: Regs, msg: Bytes, q: nat): Regs
    requires 64 * q <= |msg|
  {
    if q == 0 then r else Compress(Absorb(r, msg, q - 1), msg[64 * (q - 1)..64 * q])
  }

  lemma {:induction false} AbsorbPrefix(r: Regs, m: Bytes, n: Bytes, q: nat)
    requires 64 * q <= |m| && 64 * q <= |n| && m[..64 * q] == n[..64 * q]
    ensures Absorb(r, m, q) == Absorb(r, n, q)
  {
    hide Compress;
    if q > 0 {
      assert m[..64 * (q - 1)] == m[..64 * q][..64 * (q - 1)];
      assert n[..64 * (q - 1)] == n[..64 * q][..64 * (q - 1)];
      AbsorbPrefix(r, m, n, q - 1);
      assert m[64 * (q - 1)..64 * q] == m[..64 * q][64 * (q - 1)..];
      assert n[64 * (q - 1)..64 * q] == n[..64 * q][64 * (q - 1)..];
    }
  }

  /** Zero bytes between the end bit and the length. */
  function Gap(n: nat): nat {
    if n % 64 < 56 then 55 - n % 64 else 119 - n % 64
  }

  function BitCount(n: nat): u64 {
    8 * n % 0x1_0000_0000_0000_0000
  }

  function Padded(msg: Bytes): Bytes {
    msg + [0x80] + Zeros(Gap(|msg|)) + Be64(BitCount(|msg|))
  }

  /** The gap is the least that makes the padded message whole blocks. */
  lemma PaddingIsLeast(msg: Bytes, k: nat)
    ensures |Padded(msg)| % 64 == 0
    ensures (|msg| + 1 + k + 8) % 64 == 0 ==> k >= Gap(|msg|)
  {
    var q, r := |msg| / 64, |msg| % 64;
    DivMod(|Padded(msg)|, 64, if r < 56 then q + 1 else q + 2, 0);
    if k < Gap(|msg|) {
      if r + 9 + k < 64 {
        DivMod(|msg| + 9 + k, 64, q, r + 9 + k);
      } else {
        DivMod(|msg| + 9 + k, 64, q + 1, r + 9 + k - 64);
      }
    }
  }

  function WordBytes(w: bv32): (b: Bytes)
    ensures |b| == 4
  {
    Be32(w as int)
  }

  function Digest(r: Regs): (d: Bytes)
    ensures |d| == 32
  {
    WordBytes(r.a) + WordBytes(r.b) + WordBytes(r.c) + WordBytes(r.d)
    + WordBytes(r.e) + WordBytes(r.f) + WordBytes(r.g) + WordBytes(r.h)
  }

  function Hash(msg: Bytes): (d: Bytes)
    ensures |d| == 32
  {
    Digest(Absorb(H0, Padded(msg), |Padded(msg)| / 64))
  }

  lemma PaddedPrefix(msg: Bytes, q: nat)
    requires 64 * q <= |msg|
    ensures Absorb(H0, Padded(msg), q) == Absorb(H0, msg, q)
  {
    hide Absorb, Be64;
    assert Padded(msg)[..64 * q] == msg[..64 * q];
    AbsorbPrefix(H0, Padded(msg), msg, q);
  }

  /** The last one or two blocks, from what is left over after the whole ones. */
  lemma OneMoreBlock(msg: Bytes, q: nat, rest: Bytes)
    requires 64 * q + |rest| == |msg| && |rest| < 56 && rest == msg[64 * q..]
    ensures Hash(msg) == Digest(Compress(Absorb(H0, msg, q), rest + [0x80] + Zeros(55 - |rest|) + Be64(BitCount(|msg|))))
  {
    hide Compress, Be64, Digest, BitCount;
    DivMod(|msg|, 64, q, |rest|);
    var p := Padded(msg);
    PaddedPrefix(msg, q);
    DivMod(|p|, 64, q + 1, 0);
    assert p[64 * q..64 * (q + 1)] == rest + [0x80] + Zeros(55 - |rest|) + Be64(BitCount(|msg|));
  }

  lemma TwoMoreBlocks(msg: Bytes, q: nat, rest: Bytes)
    requires 64 * q + |rest| == |msg| && 56 <= |rest| < 64 && rest == msg[64 * q..]
    ensures var s := Compress(Absorb(H0, msg, q), rest + [0x80] + Zeros(63 - |rest|));
            Hash(msg) == Digest(Compress(s, Zeros(56) + Be64(BitCount(|msg|))))
  {
    hide Compress, Be64, Digest, BitCount;
    DivMod(|msg|, 64, q, |rest|);
    var p := Padded(msg);
    PaddedPrefix(msg, q);
    DivMod(|p|, 64, q + 2, 0);
    assert p == (msg + [0x80] + Zeros(63 - |rest|)) + (Zeros(56) + Be64(BitCount(|msg|)));
    assert p[64 * q..64 * (q + 1)] == rest + [0x80] + Zeros(63 - |rest|);
    assert p[64 * (q + 1)..64 * (q + 2)] == Zeros(56) + Be64(BitCount(|msg|));
    assert Absorb(H0, p, q + 2) == Compress(Absorb(H0, p, q + 1), p[64 * (q + 1)..64 * (q + 2)]);
  }

  lemma BitCountAdd(m: nat, n: nat)
    ensures Add64(BitCount(m), BitCount(n)) == BitCount(m + n)
  {
    var b := 0x1_0000_0000_0000_0000;
    var q, r := 8 * m / b, 8 * m % b;
    var p, s := 8 * n / b, 8 * n % b;
    DivMod(8 * (m + n), b, q + p + (r + s) / b, (r + s) % b);
  }

  lemma ThreeParts(m: Bytes, data: Bytes, i: nat, j: nat)
    requires i <= j <= |data|
    ensures m + data[..i] + data[i..j] + data[j..] == m + data
    ensures j == |data| ==> m + data[..i] + data[i..j] == m + data
  {
  }

  // ---------- streaming ----------

  class Hasher {
    var regs: Regs
    var bits: u64
    const buf: array<u8>
    var len: nat
    ghost var msg: Bytes
    ghost var whole: nat

    /** The whole blocks of the message are absorbed and the rest is in the buffer. */
    ghost predicate Holds()
      reads this, buf
    {
      && buf.Length == 64 && len <= 64 && 64 * whole + len == |msg|
      && regs == Absorb(H0, msg, whole) && buf[..len] == msg[64 * whole..]
    }

    ghost predicate Valid()
      reads this, buf
    {
      Holds() && len < 64 && bits == BitCount(|msg|)
    }

    constructor ()
      ensures Valid() && msg == [] && fresh(buf)
    {
      regs, bits, len, msg, whole := H0, 0, 0, [], 0;
      buf := new u8[64](i => 0);
    }

    method Buffer(data: Bytes)
      requires Holds() && len + |data| <= 64
      modifies this`len, this`msg, buf
      ensures Holds() && len == old(len) + |data| && msg == old(msg) + data
    {
      hide Absorb;
      forall i | 0 <= i < |data| { buf[len + i] := data[i]; }
      len := len + |data|;
      AbsorbPrefix(H0, msg, msg + data, whole);
      msg := msg + data;
      assert msg[64 * whole..] == old(msg)[64 * whole..] + data;
    }

    method Flush()
      requires Holds() && len == 64
      modifies this`regs, this`len, this`whole
      ensures Holds() && len == 0
    {
      hide Compress;
      regs := CompressBlock(regs, buf[..]);
      assert buf[..] == msg[64 * whole..64 * (whole + 1)];
      len, whole := 0, whole + 1;
    }

    method Direct(block: Bytes)
      requires Holds() && len == 0 && |block| == 64
      modifies this`regs, this`msg, this`whole
      ensures Holds() && msg == old(msg) + block
    {
      hide Compress;
      regs := CompressBlock(regs, block);
      AbsorbPrefix(H0, msg, msg + block, whole);
      msg, whole := msg + block, whole + 1;
      assert msg[64 * (whole - 1)..64 * whole] == block;
    }

    /** Fill a buffer that holds something already. */
    method TopUp(data: Bytes) returns (i: nat)
      requires Holds() && len < 64
      modifies this`regs, this`len, this`msg, this`whole, buf
      ensures Holds() && i <= |data| && msg == old(msg) + data[..i] && (len == 0 || (len < 64 && i == |data|))
    {
      hide Absorb;
      i := 0;
      if len > 0 {
        var space := 64 - len;
        i := if |data| < space then |data| else space;
        Buffer(data[..i]);
        if len == 64 {
          Flush();
        }
      }
    }

    /** Whole blocks straight from the input, while the buffer is empty. */
    method Stream(data: Bytes, start: nat) returns (i: nat)
      requires Holds() && start <= |data| && (len == 0 || (len < 64 && start == |data|))
      modifies this`regs, this`msg, this`whole
      ensures Holds() && start <= i <= |data| < i + 64 && msg == old(msg) + data[start..i]
      ensures len == 0 || i == |data|
    {
      hide Absorb;
      i := start;
      while i + 64 <= |data|
        invariant start <= i <= |data| && Holds() && msg == old(msg) + data[start..i]
        invariant len == 0 || (len < 64 && i == |data|)
      {
        assert data[start..i] + data[i..i + 64] == data[start..i + 64];
        Direct(data[i..i + 64]);
        i := i + 64;
      }
    }

    method Update(data: Bytes)
      requires Valid() && |data| < 0x1_0000_0000_0000_0000
      modifies this, buf
      ensures Valid() && msg == old(msg) + data
    {
      hide Absorb, BitCount;
      BitCountAdd(|msg|, |data|);
      bits := Add64(bits, BitCount(|data|));
      var i := TopUp(data);
      var j := Stream(data, i);
      ThreeParts(old(msg), data, i, j);
      if j < |data| {
        Buffer(data[j..]);
      }
    }

    /** Pads in the buffer, in place. The hasher is not to be used again. */
    method Final() returns (digest: Bytes)
      requires Valid()
      modifies this, buf
      ensures digest == Hash(old(msg))
    {
      hide Compress, Hash, Digest;
      ghost var rest := buf[..len];
      if len < 56 { OneMoreBlock(msg, whole, rest); } else { TwoMoreBlocks(msg, whole, rest); }
      buf[len] := 0x80;
      len := len + 1;
      if len > 56 {
        forall i | len <= i < 64 { buf[i] := 0; }
        assert buf[..] == rest + [0x80] + Zeros(63 - |rest|);
        regs := CompressBlock(regs, buf[..]);
        forall i | 0 <= i < 56 { buf[i] := 0; }
        assert buf[..56] == Zeros(56);
      } else {
        forall i | len <= i < 56 { buf[i] := 0; }
        assert buf[..56] == rest + [0x80] + Zeros(55 - |rest|);
      }
      ghost var head := buf[..56];
      var length := Be64(bits);
      forall i | 56 <= i < 64 { buf[i] := length[i - 56]; }
      assert buf[..] == head + length;
      regs := CompressBlock(regs, buf[..]);
      digest := Digest(regs);
    }
  }

  /** A message handed over in any pieces hashes like the message in one piece. */
  method HashPieces(pieces: seq<Bytes>) returns (digest: Bytes)
    requires forall i :: 0 <= i < |pieces| ==> |pieces[i]| < 0x1_0000_0000_0000_0000
    ensures digest == Hash(Concat(pieces))
  {
    var h := new Hasher();
    var i := 0;
    while i < |pieces|
      invariant 0 <= i <= |pieces| && h.Valid() && fresh(h) && fresh(h.buf)
      invariant h.msg == Concat(pieces[..i])
    {
      assert pieces[..i + 1][..i] == pieces[..i];
      h.Update(pieces[i]);
      i := i + 1;
    }
    assert pieces[..i] == pieces;
    digest := h.Final();
  }

  function Concat(pieces: seq<Bytes>): Bytes {
    if pieces == [] then [] else Concat(pieces[..|pieces| - 1]) + pieces[|pieces| - 1]
  }
}
