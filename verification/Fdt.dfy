/** The device-tree builder, writing the blob in place. */
module Fdt {
  import opened Words
  import opened Octets
  import opened FdtSpec

  class Builder {
    /** The caller's buffer. The structure block starts at byte 64 and may take all but
        the last 1024 bytes, which are left for the strings. */
    const b: array<u8>
    const strtab: array<u8>
    var pos: nat
    var strPos: nat
    ghost var out: Bytes
    ghost var strs: Bytes
    ghost var items: seq<Item>

    /** The position runs on when the buffer is full, and little is written then. */
    ghost predicate Written()
      reads this, b
    {
      && b.Length >= 1088 && pos == |out|
      && (pos <= b.Length - 1088 ==> b[64..64 + pos] == out)
      && (forall i :: 0 <= i < b.Length && (i < 64 || 64 + pos <= i) ==> b[i] == 0)
    }

    ghost predicate Named()
      reads this, strtab
    {
      strtab.Length == 1024 && strPos == |strs| && (strPos <= 1024 ==> strtab[..strPos] == strs)
    }

    ghost predicate Valid()
      reads this, b, strtab
    {
      && Written() && Named() && b != strtab
      && AllProper(items) && out == Struct(items, 0) && strs == Strings(items)
    }

    constructor (b: array<u8>)
      requires b.Length >= 1088
      modifies b
      ensures Valid() && items == [] && this.b == b && fresh(strtab)
    {
      this.b := b;
      strtab := new u8[1024](i => 0);
      pos, strPos, out, strs, items := 0, 0, [], [], [];
      new;
      forall i | 0 <= i < b.Length { b[i] := 0; }
    }

    // ---------- emitting ----------

    method EmitBytes(data: Bytes)
      requires Written()
      modifies this`pos, this`out, b
      ensures Written() && out == old(out) + data
      ensures pos > b.Length - 1088 ==> b[..] == old(b[..])
    {
      if pos + |data| <= b.Length - 1088 {
        Put(data);
      } else {
        pos := pos + |data|;
        out := out + data;
      }
    }

    /** Without asking whether there is room. */
    method Put(data: Bytes)
      requires Written() && 64 + pos + |data| <= b.Length
      modifies this`pos, this`out, b
      ensures Written() && out == old(out) + data
    {
      forall i | 0 <= i < |data| { b[64 + pos + i] := data[i]; }
      assert pos + |data| <= b.Length - 1088 ==> b[64..64 + pos + |data|] == out + data;
      pos := pos + |data|;
      out := out + data;
    }

    method Emit32(v: u32)
      requires Written()
      modifies this`pos, this`out, b
      ensures Written() && out == old(out) + Be32(v)
      ensures pos > b.Length - 1088 ==> b[..] == old(b[..])
    {
      hide Be32;
      EmitBytes(Be32(v));
    }

    method PadOut()
      requires Written()
      modifies this`pos, this`out, b
      ensures Written() && out == old(out) + Zeros(Pad(|old(out)|))
    {
      ghost var n := 0;
      PadSteps(|out|, n);
      while pos % 4 != 0
        invariant 0 <= n <= Pad(|old(out)|) && Written() && out == old(out) + Zeros(n)
        decreases Pad(|old(out)|) - n
      {
        PadSteps(|old(out)|, n);
        assert Zeros(n) + [0] == Zeros(n + 1);
        EmitBytes([0]);
        n := n + 1;
      }
      PadSteps(|old(out)|, n);
    }

    method EmitPadded(data: Bytes)
      requires Written() && |out| % 4 == 0
      modifies this`pos, this`out, b
      ensures Written() && out == old(out) + Aligned(data)
    {
      EmitBytes(data);
      PadShift(|old(out)|, |data|);
      PadOut();
    }

    method AddString(name: Bytes) returns (off: u32)
      requires Named()
      modifies this`strPos, this`strs, strtab
      ensures Named() && strs == old(strs) + name + [0] && off == |old(strs)| % 0x1_0000_0000
    {
      off := strPos % 0x1_0000_0000;
      var s := name + [0];
      if strPos + |s| <= 1024 {
        forall i | 0 <= i < |s| { strtab[strPos + i] := s[i]; }
        assert strtab[..strPos + |s|] == strs + s;
      }
      strPos := strPos + |s|;
      strs := strs + s;
    }

    // ---------- nodes and properties ----------

    method BeginNode(name: Bytes)
      requires Valid() && CString(name)
      modifies this, b
      ensures Valid() && items == old(items) + [Begin(name)]
    {
      hide Struct, Strings, Be32, Aligned;
      StructAppend(items, Begin(name), 0);
      StringsAppend(items, Begin(name));
      SumAligned(out, Be32(FDT_BEGIN_NODE));
      Emit32(FDT_BEGIN_NODE);
      EmitPadded(name + [0]);
      items := items + [Begin(name)];
    }

    method EndNode()
      requires Valid()
      modifies this, b
      ensures Valid() && items == old(items) + [End]
    {
      hide Struct, Strings, Be32;
      StructAppend(items, End, 0);
      StringsAppend(items, End);
      Emit32(FDT_END_NODE);
      items := items + [End];
    }

    /** The three words in front of every property value. */
    method PropHead(name: Bytes, len: u32)
      requires Valid()
      modifies this`pos, this`out, this`strPos, this`strs, b, strtab
      ensures Written() && Named() && strs == old(strs) + name + [0]
      ensures out == old(out) + (Be32(FDT_PROP) + Be32(len) + Be32(|old(strs)| % 0x1_0000_0000))
      ensures |out| == |old(out)| + 12 && |out| % 4 == 0
    {
      hide Struct, Strings, Be32;
      Emit32(FDT_PROP);
      Emit32(len);
      var off := AddString(name);
      Emit32(off);
      SumAligned(old(out), Be32(FDT_PROP) + Be32(len) + Be32(off));
    }

    method PropBytes(name: Bytes, value: Bytes)
      requires Valid() && CString(name) && |value| < 0x1_0000_0000
      modifies this, b, strtab
      ensures Valid() && items == old(items) + [Prop(name, value)]
    {
      hide Struct, Strings, Be32, Aligned;
      StructAppend(items, Prop(name, value), 0);
      StringsAppend(items, Prop(name, value));
      PropHead(name, |value|);
      EmitPadded(value);
      items := items + [Prop(name, value)];
    }

    method PropStr(name: Bytes, val: Bytes)
      requires Valid() && CString(name) && CString(val) && |val| < 0xFFFF_FFFF
      modifies this, b, strtab
      ensures Valid() && items == old(items) + [Prop(name, val + [0])]
    {
      PropBytes(name, val + [0]);
    }

    /** `val` is memory that holds at least `total` bytes. */
    method PropStringList(name: Bytes, val: Bytes, total: u32)
      requires Valid() && CString(name) && total <= |val|
      modifies this, b, strtab
      ensures Valid() && items == old(items) + [Prop(name, val[..total])]
    {
      PropBytes(name, val[..total]);
    }

    method PropU32(name: Bytes, v: u32)
      requires Valid() && CString(name)
      modifies this, b, strtab
      ensures Valid() && items == old(items) + [Prop(name, Be32(v))]
    {
      hide Struct, Strings, Be32;
      StructAppend(items, Prop(name, Be32(v)), 0);
      StringsAppend(items, Prop(name, Be32(v)));
      PropHead(name, 4);
      Emit32(v);
      assert Aligned(Be32(v)) == Be32(v);
      items := items + [Prop(name, Be32(v))];
    }

    /** Two 64-bit cells, written without asking whether there is room: what the source
        needs is that the buffer itself does not end before. */
    method PropCells2(name: Bytes, hi: u64, lo: u64)
      requires Valid() && CString(name) && 64 + pos + 28 <= b.Length
      modifies this, b, strtab
      ensures Valid() && items == old(items) + [Prop(name, Be64(hi) + Be64(lo))]
    {
      hide Struct, Strings, Be32, Be64;
      var value := Be64(hi) + Be64(lo);
      StructAppend(items, Prop(name, value), 0);
      StringsAppend(items, Prop(name, value));
      PropHead(name, 16);
      Put(Be64(hi));
      Put(Be64(lo));
      assert Aligned(value) == value;
      items := items + [Prop(name, value)];
    }

    method PropEmpty(name: Bytes)
      requires Valid() && CString(name)
      modifies this, b, strtab
      ensures Valid() && items == old(items) + [Prop(name, [])]
    {
      hide Struct, Strings, Be32;
      StructAppend(items, Prop(name, []), 0);
      StringsAppend(items, Prop(name, []));
      PropHead(name, 0);
      assert Aligned([]) == [];
      items := items + [Prop(name, [])];
    }

    // ---------- the blob ----------

    /** Copy into the buffer at a place of its own. */
    method Place(at: nat, data: Bytes)
      requires at + |data| <= b.Length
      modifies b
      ensures forall i :: 0 <= i < b.Length ==> b[i] == if at <= i < at + |data| then data[i - at] else old(b[i])
    {
      forall i | 0 <= i < |data| { b[at + i] := data[i]; }
    }

    /** The end token is written if there is room for it; the bytes are zero if not. */
    method EndOfStruct()
      requires Valid() && 64 + pos + 4 <= b.Length
      modifies this`pos, this`out, b
      ensures Written() && out == StructBlock(items) && pos == old(pos) + 4
      ensures pos > b.Length - 1088 ==> b[64 + pos - 1] == 0
    {
      hide Struct, Be32;
      Emit32(FDT_END);
      assert b[64 + pos - 1] == b[..][64 + pos - 1];
    }

    /** End token, strings, header. The blob is what the calls stand for, exactly if the
        structure block did not run into the room left for the strings. */
    method Finish() returns (total: nat)
      requires Valid() && 64 + pos + 4 + strPos <= b.Length && strPos <= 1024
      modifies this`pos, this`out, b
      ensures total == TotalSize(|StructBlock(items)|, |Strings(items)|)
      ensures Fits(items) && total <= b.Length ==> (b[..total] == BlobOf(items) <==> old(pos) + 4 <= b.Length - 1088)
    {
      hide StructBlock, Strings, Header, Struct;
      EndOfStruct();
      total := TotalSize(pos, strPos);
      ghost var s := out;
      assert pos <= b.Length - 1088 ==> forall i :: 0 <= i < pos ==> b[64 + i] == b[64..64 + pos][i] == s[i];
      Place(64 + pos, strtab[..strPos]);
      Place(0, Header(pos, strPos));
      if pos <= b.Length - 1088 {
        Layout(b[..], pos, strPos, s, strs, total);
      } else if Fits(items) {
        BlobEnd(items);
      }
    }
  }

  /** The last byte of the structure block is the low byte of the end token. */
  lemma BlobEnd(items: seq<Item>)
    requires AllProper(items) && Fits(items)
    ensures var n := |StructBlock(items)|; n >= 4 && BlobOf(items)[64 + n - 1] == FDT_END
  {
    hide Header, Struct, Strings;
  }

  lemma Layout(b: Bytes, pos: nat, strPos: nat, s: Bytes, n: Bytes, total: nat)
    requires |s| == pos && |n| == strPos && 64 + pos + strPos <= |b| && total == TotalSize(pos, strPos)
    requires forall i :: 0 <= i < |b| ==>
               b[i] == if i < 40 then Header(pos, strPos)[i] else if i < 64 then 0
                       else if i < 64 + pos then s[i - 64]
                       else if i < 64 + pos + strPos then n[i - 64 - pos] else 0
    ensures total <= |b| ==> b[..total] == Header(pos, strPos) + Zeros(24) + s + n + Zeros(Pad(64 + pos + strPos))
  {
    hide Header;
    if total <= |b| {
      var k := 64 + pos + strPos;
      assert b[..40] == Header(pos, strPos) && b[40..64] == Zeros(24) && b[64..64 + pos] == s && b[64 + pos..k] == n;
      assert b[k..total] == Zeros(Pad(k));
      assert b[..total] == b[..40] + b[40..64] + b[64..64 + pos] + b[64 + pos..k] + b[k..total];
    }
  }

  lemma PadSteps(n: nat, k: nat)
    ensures k <= Pad(n) ==> ((n + k) % 4 == 0 <==> k == Pad(n))
  {
    PadFills(n);
    if k < Pad(n) { DivMod(n + k, 4, n / 4, n % 4 + k); }
  }

  lemma PadShift(m: nat, n: nat)
    requires m % 4 == 0
    ensures Pad(m + n) == Pad(n)
  {
    DivMod(m + n, 4, m / 4 + n / 4, n % 4);
  }
}
