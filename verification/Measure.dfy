/** What the boot-time measurements of guest images and of the hypervisor's own
    sections compute, and what they accept. Physical memory is a byte sequence. */
module Measure {
  import opened Words
  import opened Octets
  import opened Sha256
  import opened Hmac

  // ---------- guest images ----------

  datatype Guest = Guest(name: string, pa: nat, size: u64, provisioned: bool, golden: Bytes)

  datatype Verdict = Match | Mismatch | Learn | Skip

  /** Hash a region in 4096-byte pieces without copying it. */
  method HashRegion(mem: Bytes, pa: nat, len: u64) returns (digest: Bytes)
    requires pa + len <= |mem|
    ensures digest == Hash(mem[pa..pa + len])
  {
    hide Hash, Absorb;
    var h := new Hasher();
    var done := 0;
    while done < len
      invariant 0 <= done <= len && h.Valid() && fresh(h) && fresh(h.buf)
      invariant h.msg == mem[pa..pa + done]
      decreases len - done
    {
      var n := if len - done < 4096 then len - done else 4096;
      assert mem[pa..pa + done] + mem[pa + done..pa + done + n] == mem[pa..pa + done + n];
      h.Update(mem[pa + done..pa + done + n]);
      done := done + n;
    }
    digest := h.Final();
  }

  predicate Known(guests: seq<Guest>, name: string) {
    exists i :: 0 <= i < |guests| && guests[i].name == name
  }

  method Find(guests: seq<Guest>, name: string) returns (found: Option<nat>)
    ensures found.None? <==> !Known(guests, name)
    ensures found.Some? ==>
              && found.value < |guests| && guests[found.value].name == name
              && forall j :: 0 <= j < found.value ==> guests[j].name != name
  {
    var i := 0;
    while i < |guests|
      invariant 0 <= i <= |guests| && forall j :: 0 <= j < i ==> guests[j].name != name
    {
      if guests[i].name == name {
        return Some(i);
      }
      i := i + 1;
    }
    return None;
  }

  predicate Loaded(g: Guest, mem: Bytes) {
    g.pa + g.size <= |mem| && |g.golden| == 32
  }

  /** The image in memory hashes to the golden value. */
  predicate Genuine(g: Guest, mem: Bytes)
    requires Loaded(g, mem)
  {
    Hash(mem[g.pa..g.pa + g.size]) == g.golden
  }

  method Judge(g: Guest, mem: Bytes) returns (v: Verdict)
    requires Loaded(g, mem)
    ensures v == if !g.provisioned then Learn else if Genuine(g, mem) then Match else Mismatch
  {
    hide Hash;
    var measured := HashRegion(mem, g.pa, g.size);
    if !g.provisioned {
      return Learn;
    }
    var ok := Verify(g.golden, measured, 32);
    assert g.golden[..32] == g.golden && measured[..32] == measured;
    v := if ok then Match else Mismatch;
  }

  predicate FirstNamed(guests: seq<Guest>, name: string, i: int) {
    0 <= i < |guests| && guests[i].name == name && forall j :: 0 <= j < i ==> guests[j].name != name
  }

  predicate AllLoaded(guests: seq<Guest>, mem: Bytes) {
    forall i :: 0 <= i < |guests| ==> Loaded(guests[i], mem)
  }

  /** The descriptor of that name has a golden value and the image does not hash to it. */
  predicate Rejected(guests: seq<Guest>, mem: Bytes, name: string)
    requires AllLoaded(guests, mem)
  {
    exists i :: 0 <= i < |guests| && FirstNamed(guests, name, i) && guests[i].provisioned && !Genuine(guests[i], mem)
  }

  /** The first descriptor of that name decides; without one there is no verdict. */
  method MeasureGuest(guests: seq<Guest>, mem: Bytes, name: string) returns (v: Verdict)
    requires AllLoaded(guests, mem)
    ensures v == Skip <==> !Known(guests, name)
    ensures v == Mismatch <==> Rejected(guests, mem, name)
    ensures forall i :: FirstNamed(guests, name, i) ==> (v == Match <==> guests[i].provisioned && Genuine(guests[i], mem))
  {
    hide Genuine;
    var found := Find(guests, name);
    if found.None? {
      return Skip;
    }
    v := Judge(guests[found.value], mem);
    assert FirstNamed(guests, name, found.value);
  }

  // ---------- the hypervisor's own sections ----------

  /** A section [lo, hi) of memory, with the golden table at [g0, g1). */
  datatype Section = Section(lo: nat, hi: nat, g0: nat, g1: nat)

  predicate Encloses(s: Section, mem: Bytes) {
    s.lo <= s.g0 <= s.g1 <= s.hi <= |mem|
  }

  /** The section with the golden table cut out. */
  function Around(mem: Bytes, s: Section): Bytes
    requires Encloses(s, mem)
  {
    mem[s.lo..s.g0] + mem[s.g1..s.hi]
  }

  method MeasureText(key: Bytes, mem: Bytes, lo: nat, hi: nat) returns (e: Err, mac: Bytes)
    requires |key| == 32 && hi <= |mem| < 0x1_0000_0000_0000_0000
    ensures e == if hi <= lo then Inval else Ok
    ensures e == Ok ==> mac == Mac(key, mem[lo..hi])
  {
    if hi <= lo {
      return Inval, [];
    }
    e, mac := MacOf(key, mem[lo..hi]);
  }

  method MeasureRodata(key: Bytes, mem: Bytes, s: Section) returns (e: Err, mac: Bytes)
    requires |key| == 32 && s.g0 <= s.g1 && s.hi <= |mem| < 0x1_0000_0000_0000_0000
    ensures e == if s.hi <= s.lo || !Encloses(s, mem) then Inval else Ok
    ensures e == Ok ==> mac == Mac(key, Around(mem, s))
  {
    hide Mac, KeyPad, Hasher.Valid;
    mac := [];
    if s.hi <= s.lo {
      return Inval, mac;
    }
    if s.g0 < s.lo || s.g1 > s.hi {
      return Inval, mac;
    }
    var c := new Context();
    e := c.Init(key);
    if s.g0 > s.lo {
      c.Update(mem[s.lo..s.g0]);
    }
    if s.hi > s.g1 {
      c.Update(mem[s.g1..s.hi]);
    }
    assert c.msg == Around(mem, s);
    mac := c.Final();
  }

  /** What is authenticated changes with every byte of the section outside the golden
      table, and with no other byte of memory. */
  lemma SeenExactly(mem: Bytes, edited: Bytes, s: Section)
    requires Encloses(s, mem) && |edited| == |mem|
    ensures Around(edited, s) == Around(mem, s) <==>
              edited[s.lo..s.g0] == mem[s.lo..s.g0] && edited[s.g1..s.hi] == mem[s.g1..s.hi]
  {
    var n := s.g0 - s.lo;
    assert Around(mem, s)[..n] == mem[s.lo..s.g0] && Around(mem, s)[n..] == mem[s.g1..s.hi];
    assert Around(edited, s)[..n] == edited[s.lo..s.g0] && Around(edited, s)[n..] == edited[s.g1..s.hi];
  }

  /** Writing any golden table into the section leaves the measurement as it was. */
  lemma GoldenEditUnseen(key: Bytes, mem: Bytes, s: Section, table: Bytes)
    requires Encloses(s, mem) && |table| == s.g1 - s.g0
    ensures var edited := mem[..s.g0] + table + mem[s.g1..];
            |edited| == |mem| && Mac(key, Around(edited, s)) == Mac(key, Around(mem, s))
  {
    hide Mac, Around;
    var edited := mem[..s.g0] + table + mem[s.g1..];
    SeenExactly(mem, edited, s);
  }

  /** A golden value that was never filled in. */
  method IsBlank(golden: Bytes) returns (blank: bool)
    requires |golden| == 32
    ensures blank <==> golden == Zeros(32)
  {
    var acc := 0;
    var i := 0;
    while i < 32
      invariant 0 <= i <= 32 && 0 <= acc && (acc == 0 <==> forall j :: 0 <= j < i ==> golden[j] == 0)
    {
      OrZero(acc, golden[i]);
      acc := BitOr(acc, golden[i]);
      i := i + 1;
    }
    blank := acc == 0;
    assert blank ==> golden == Zeros(32);
    assert golden == Zeros(32) ==> forall j :: 0 <= j < 32 ==> golden[j] == Zeros(32)[j];
  }
}
