/** HMAC-SHA-256 as FIPS 198-1 defines it (section 4), the streaming implementation,
    and the comparison that looks at every byte. */
module Hmac {
  import opened Words
  import opened Octets
  import opened Sha256

  function XorByte(x: u8, y: u8): u8 {
    XorBound(x, y, 8);
    BitXor(x, y)
  }

  /** The key as one block: hashed first if it is longer than a block. */
  function KeyBlock(key: Bytes): (b: Bytes)
    ensures |b| == 64
  {
    var k := if |key| > 64 then Hash(key) else key;
    k + Zeros(64 - |k|)
  }

  function KeyPad(key: Bytes, x: u8): (b: Bytes)
    ensures |b| == 64
  {
    seq(64, i requires 0 <= i < 64 => XorByte(KeyBlock(key)[i], x))
  }

  function Mac(key: Bytes, msg: Bytes): (m: Bytes)
    ensures |m| == 32
  {
    Hash(KeyPad(key, 0x5C) + Hash(KeyPad(key, 0x36) + msg))
  }

  /** A short key is padded with zeros at its end, and every bit of the block is turned
      where the pad byte has a one. */
  lemma KeyPadBits(key: Bytes, x: u8, i: nat, b: nat)
    requires i < 64
    ensures |key| <= 64 ==>
              (BitAt(KeyPad(key, x)[i], b) <==> (i < |key| && BitAt(key[i], b)) != BitAt(x, b))
    ensures |key| > 64 ==>
              (BitAt(KeyPad(key, x)[i], b) <==> (i < 32 && BitAt(Hash(key)[i], b)) != BitAt(x, b))
  {
    hide Hash;
    XorBits(KeyBlock(key)[i], x, b);
    NoBits(b);
  }

  /** `p` is the key, at most a block long, filled up with zeros and turned by `x`. */
  predicate Turned(p: Bytes, key: Bytes, x: u8) {
    && |p| == 64
    && forall i, b :: 0 <= i < 64 && 0 <= b < 8 ==> (BitAt(p[i], b) <==> (i < |key| && BitAt(key[i], b)) != BitAt(x, b))
  }

  /** Section 4 of FIPS 198-1 without its steps: whichever two blocks are the key turned by
      5c and by 36, the MAC hashes the first and the hash of the second with the message. */
  lemma MacOfTurned(key: Bytes, msg: Bytes, outer: Bytes, inner: Bytes)
    requires |key| <= 64 && Turned(outer, key, 0x5C) && Turned(inner, key, 0x36)
    ensures Mac(key, msg) == Hash(outer + Hash(inner + msg))
  {
    hide Hash, KeyPad;
    OnlyTurned(outer, key, 0x5C);
    OnlyTurned(inner, key, 0x36);
  }

  lemma OnlyTurned(p: Bytes, key: Bytes, x: u8)
    requires |key| <= 64 && Turned(p, key, x)
    ensures p == KeyPad(key, x)
  {
    hide KeyPad;
    var q := KeyPad(key, x);
    forall i | 0 <= i < 64 ensures p[i] == q[i] {
      forall b | 0 <= b < 8 ensures BitAt(p[i], b) == BitAt(q[i], b) { KeyPadBits(key, x, i, b); }
      ShlValues(1);
      SameBits(p[i], q[i], 8);
    }
  }

  lemma {:induction false} NoBits(b: nat)
    ensures !BitAt(0, b)
  {
    if b > 0 { NoBits(b - 1); }
  }

  method Begun(data: Bytes) returns (h: Hasher)
    requires |data| < 0x1_0000_0000_0000_0000
    ensures fresh(h) && fresh(h.buf) && h.Valid() && h.msg == data
  {
    hide Absorb;
    h := new Hasher();
    h.Update(data);
    assert [] + data == data;
  }

  method MakeKeyBlock(key: Bytes) returns (b: Bytes)
    requires |key| < 0x1_0000_0000
    ensures b == KeyBlock(key)
  {
    hide Hash;
    if |key| > 64 {
      var h := Begun(key);
      var d := h.Final();
      b := d + Zeros(32);
    } else {
      b := key + Zeros(64 - |key|);
    }
  }

  class Context {
    var inner: Hasher
    var outer: Hasher
    ghost var key: Bytes
    ghost var msg: Bytes

    ghost predicate Valid()
      reads this, inner, inner.buf, outer, outer.buf
    {
      && inner.Valid() && outer.Valid() && inner != outer && inner.buf != outer.buf
      && inner.msg == KeyPad(key, 0x36) + msg && outer.msg == KeyPad(key, 0x5C)
    }

    /** Storage for a context; it is of no use before Init. */
    constructor ()
    {
      inner := new Hasher();
      outer := new Hasher();
      key, msg := [], [];
    }

    method Init(key: Bytes) returns (e: Err)
      requires |key| < 0x1_0000_0000
      modifies this
      ensures e == if key == [] then Inval else Ok
      ensures e == Ok ==> Valid() && this.key == key && msg == []
      ensures e == Ok ==> fresh(inner) && fresh(inner.buf) && fresh(outer) && fresh(outer.buf)
    {
      hide KeyBlock, XorByte, Absorb;
      if key == [] {
        return Inval;
      }
      var block := MakeKeyBlock(key);
      var ipad, opad := [], [];
      var i := 0;
      while i < 64
        invariant 0 <= i <= 64 && |ipad| == |opad| == i
        invariant forall j :: 0 <= j < i ==> ipad[j] == XorByte(block[j], 0x36) && opad[j] == XorByte(block[j], 0x5C)
      {
        ipad := ipad + [XorByte(block[i], 0x36)];
        opad := opad + [XorByte(block[i], 0x5C)];
        i := i + 1;
      }
      assert ipad == KeyPad(key, 0x36) && opad == KeyPad(key, 0x5C);
      Start(key, ipad, opad);
      e := Ok;
    }

    method Start(key: Bytes, ipad: Bytes, opad: Bytes)
      requires ipad == KeyPad(key, 0x36) && opad == KeyPad(key, 0x5C)
      modifies this
      ensures Valid() && this.key == key && msg == []
      ensures fresh(inner) && fresh(inner.buf) && fresh(outer) && fresh(outer.buf)
    {
      hide KeyPad, Hasher.Valid;
      inner := Begun(ipad);
      outer := Begun(opad);
      this.key, msg := key, [];
    }

    method Update(data: Bytes)
      requires Valid() && |data| < 0x1_0000_0000_0000_0000
      modifies this`msg, inner, inner.buf
      ensures Valid() && msg == old(msg) + data && key == old(key)
    {
      hide KeyPad, Absorb;
      inner.Update(data);
      msg := msg + data;
    }

    method Final() returns (mac: Bytes)
      requires Valid()
      modifies inner, inner.buf, outer, outer.buf
      ensures mac == Mac(key, msg)
    {
      hide Hash, KeyPad, Absorb;
      var digest := inner.Final();
      outer.Update(digest);
      mac := outer.Final();
    }
  }

  method MacOf(key: Bytes, msg: Bytes) returns (e: Err, mac: Bytes)
    requires |key| < 0x1_0000_0000 && |msg| < 0x1_0000_0000_0000_0000
    ensures e == if key == [] then Inval else Ok
    ensures e == Ok ==> mac == Mac(key, msg)
  {
    hide Mac, KeyPad, Hasher.Valid;
    var c := new Context();
    mac := [];
    e := c.Init(key);
    if e != Ok {
      return;
    }
    c.Update(msg);
    assert [] + msg == msg;
    mac := c.Final();
  }

  /** Every byte is looked at, and the answer is whether all agree. */
  method Verify(expected: Bytes, actual: Bytes, len: nat) returns (same: bool)
    requires len <= |expected| && len <= |actual|
    ensures same <==> expected[..len] == actual[..len]
  {
    var diff := 0;
    var i := 0;
    while i < len
      invariant 0 <= i <= len && 0 <= diff
      invariant diff == 0 <==> forall j :: 0 <= j < i ==> expected[j] == actual[j]
    {
      XorZero(expected[i], actual[i]);
      OrZero(diff, BitXor(expected[i], actual[i]));
      diff := BitOr(diff, BitXor(expected[i], actual[i]));
      i := i + 1;
    }
    same := diff == 0;
    assert same ==> forall j :: 0 <= j < len ==> expected[..len][j] == actual[..len][j];
  }
}
