/** Sealing a payload to the platform configuration, and unsealing it again. */
module Seal {
  import opened Words
  import opened Octets
  import opened Sha256
  import opened Hmac

  const SEAL_MAX: nat := 256
  const SEAL_MAGIC: u32 := 0x5653_4534

  /** "VSE-SEAL-v1" */
  const Label: Bytes := [0x56, 0x53, 0x45, 0x2D, 0x53, 0x45, 0x41, 0x4C, 0x2D, 0x76, 0x31]

  datatype Blob = Blob(magic: u32, len: u32, tag: Bytes, mac: Bytes, payload: Bytes)

  predicate Shaped(b: Blob) {
    |b.tag| == 32 && |b.mac| == 32 && |b.payload| == SEAL_MAX
  }

  /** The master key and the configuration that the platform reports. */
  datatype Platform = Platform(up: bool, master: Bytes, config: Bytes)

  predicate Sane(p: Platform) {
    |p.master| == 32 && |p.config| < 0x1_0000_0000
  }

  function BindTag(p: Platform): (t: Bytes)
    ensures |t| == 32
  {
    Mac(p.master, p.config)
  }

  function SealKey(p: Platform): (k: Bytes)
    ensures |k| == 32
  {
    Mac(p.master, Label + BindTag(p))
  }

  /** The byte string that is authenticated. */
  function Auth(b: Blob): Bytes {
    Be32(b.magic) + Be32(b.len) + b.tag + b.payload
  }

  function BlobMac(p: Platform, b: Blob): (m: Bytes)
    ensures |m| == 32
  {
    Mac(SealKey(p), Auth(b))
  }

  function Sealed(p: Platform, data: Bytes): (b: Blob)
    requires |data| <= SEAL_MAX
    ensures Shaped(b) && b.mac == BlobMac(p, b)
  {
    var b := Blob(SEAL_MAGIC, |data|, BindTag(p), Zeros(32), data + Zeros(SEAL_MAX - |data|));
    b.(mac := BlobMac(p, b))
  }

  /** The fields of a sealed blob: the magic word "VSE4", the length, the MAC of the
      configuration and the payload, filled up with zeros. */
  lemma SealedFields(p: Platform, data: Bytes)
    requires |data| <= SEAL_MAX
    ensures var b := Sealed(p, data);
            && b.magic == 0x5653_4534 && b.len == |data| && b.tag == Mac(p.master, p.config)
            && |b.payload| == 256 && b.payload[..|data|] == data && (forall i :: |data| <= i < 256 ==> b.payload[i] == 0)
  {
    hide Mac;
  }

  /** What is authenticated: magic and length in big-endian order, the tag and the whole
      payload area, under a key made from the label "VSE-SEAL-v1" and the tag. */
  lemma SealedMac(p: Platform, data: Bytes)
    requires |data| <= SEAL_MAX
    ensures var b := Sealed(p, data);
            var auth, tag := Auth(b), b.tag;
            && auth[..8] == [0x56, 0x53, 0x45, 0x34, 0, 0, |data| / 256, |data| % 256]
            && auth[8..40] == tag && auth[40..] == b.payload
            && b.mac == Mac(Mac(p.master, Label + tag), auth)
  {
    hide Mac;
    var b := Sealed(p, data);
    AuthFront(b.len);
    assert Auth(b)[..8] == Be32(b.magic) + Be32(b.len);
  }

  lemma AuthFront(n: nat)
    requires n <= 256
    ensures Be32(0x5653_4534) + Be32(n) == [0x56, 0x53, 0x45, 0x34, 0, 0, n / 256, n % 256]
  {
  }

  /** Unsealing hands out a payload exactly for these blobs. */
  predicate Accepts(p: Platform, b: Blob) {
    p.up && b.magic == SEAL_MAGIC && b.len <= SEAL_MAX && b.mac == BlobMac(p, b)
  }

  /** The authenticated string gives back magic, length, bind tag and payload. */
  lemma AuthInjective(b: Blob, c: Blob)
    requires |b.tag| == |c.tag| == 32 && Auth(b) == Auth(c)
    ensures b.magic == c.magic && b.len == c.len && b.tag == c.tag && b.payload == c.payload
  {
    hide Be32;
    var x, y := Auth(b), Auth(c);
    assert x[..4] == Be32(b.magic) && y[..4] == Be32(c.magic);
    assert x[4..8] == Be32(b.len) && y[4..8] == Be32(c.len);
    assert x[8..40] == b.tag && y[8..40] == c.tag;
    assert x[40..] == b.payload && y[40..] == c.payload;
    Be32Injective(b.magic, c.magic);
    Be32Injective(b.len, c.len);
  }

  /** Two different inputs with the same MAC. */
  predicate Collision(key: Bytes, msg: Bytes, key': Bytes, msg': Bytes) {
    (key != key' || msg != msg') && Mac(key, msg) == Mac(key', msg')
  }

  /** Whoever gets an altered blob with the old MAC accepted has found a collision. */
  lemma TamperingNeedsCollision(p: Platform, b: Blob, c: Blob)
    requires Shaped(b) && Shaped(c) && Accepts(p, b) && Accepts(p, c) && b != c && b.mac == c.mac
    ensures Collision(SealKey(p), Auth(b), SealKey(p), Auth(c))
  {
    hide Mac, SealKey;
    if Auth(b) == Auth(c) { AuthInjective(b, c); }
  }

  /** A blob opens on the platform that sealed it. If it opens under another
      configuration, one of the three MACs in its making has collided. */
  lemma BoundToConfig(p: Platform, q: Platform, data: Bytes)
    requires |data| <= SEAL_MAX && p.up && q.master == p.master
    ensures Accepts(p, Sealed(p, data))
    ensures var b := Sealed(p, data);
            Accepts(q, b) && q.config != p.config ==>
              || Collision(p.master, p.config, p.master, q.config)
              || Collision(p.master, Label + BindTag(p), p.master, Label + BindTag(q))
              || Collision(SealKey(p), Auth(b), SealKey(q), Auth(b))
  {
    hide Mac, Auth;
    var b, s, t := Sealed(p, data), BindTag(p), BindTag(q);
    if Label + s == Label + t {
      assert (Label + s)[|Label|..] == s && (Label + t)[|Label|..] == t;
    }
  }

  // ---------- the service ----------

  method ComputeSealKey(p: Platform) returns (tag: Bytes, key: Bytes)
    requires Sane(p)
    ensures tag == BindTag(p) && key == SealKey(p)
  {
    hide Mac;
    var e;
    e, tag := MacOf(p.master, p.config);
    e, key := MacOf(p.master, Label + tag);
  }

  method ComputeMac(key: Bytes, b: Blob) returns (mac: Bytes)
    requires |key| == 32 && Shaped(b)
    ensures mac == Mac(key, Auth(b))
  {
    hide Mac, KeyPad, Hasher.Valid;
    var c := new Context();
    var e := c.Init(key);
    c.Update(Be32(b.magic) + Be32(b.len));
    c.Update(b.tag);
    c.Update(b.payload);
    assert c.msg == Auth(b);
    mac := c.Final();
  }

  method SealData(p: Platform, data: Bytes) returns (e: Err, b: Blob)
    requires Sane(p)
    ensures e == if |data| > SEAL_MAX || !p.up then Inval else Ok
    ensures e == Ok ==> b == Sealed(p, data)
  {
    hide Mac, SealKey, BindTag, Auth;
    b := Blob(0, 0, Zeros(32), Zeros(32), Zeros(SEAL_MAX));
    if |data| > SEAL_MAX {
      return Inval, b;
    }
    if !p.up {
      return Inval, b;
    }
    var tag, key := ComputeSealKey(p);
    b := Blob(SEAL_MAGIC, |data|, tag, Zeros(32), data + Zeros(SEAL_MAX - |data|));
    var mac := ComputeMac(key, b);
    b := b.(mac := mac);
    e := Ok;
  }

  /** `room` is the caller's buffer size, `len` what it is told. */
  method Unseal(p: Platform, b: Blob, room: u32) returns (e: Err, out: Bytes, len: u32)
    requires Sane(p) && Shaped(b)
    ensures e == if Accepts(p, b) && b.len <= room then Ok else Inval
    ensures e == Ok ==> out == b.payload[..b.len]
    ensures e != Ok ==> out == []
    ensures len == if Accepts(p, b) then b.len else room
  {
    hide Mac, SealKey, BindTag, Auth;
    out, len := [], room;
    if !p.up || b.magic != SEAL_MAGIC || b.len > SEAL_MAX {
      return Inval, out, len;
    }
    var tag, key := ComputeSealKey(p);
    var recomputed := ComputeMac(key, b);
    var same := Verify(recomputed, b.mac, 32);
    assert recomputed[..32] == recomputed && b.mac[..32] == b.mac;
    if !same {
      return Inval, out, len;
    }
    len := b.len;
    if room < b.len {
      return Inval, out, len;
    }
    out := b.payload[..b.len];
    e := Ok;
  }

  /** Seal and unseal give the payload back, whenever there is room for it. */
  method RoundTrip(p: Platform, data: Bytes, room: u32) returns (e: Err, out: Bytes)
    requires Sane(p) && p.up && |data| <= SEAL_MAX
    ensures |data| <= room ==> e == Ok && out == data
    ensures |data| > room ==> e == Inval
  {
    hide Mac, SealKey, BindTag, Auth;
    var b, len;
    e, b := SealData(p, data);
    assert b.payload[..b.len] == data;
    e, out, len := Unseal(p, b, room);
  }
}
