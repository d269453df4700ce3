/** The flattened device tree: the structure and strings blocks that a sequence of node
    and property calls stands for, and the decoding of them (sections 5.3 to 5.5 of the
    Devicetree Specification). */
module FdtSpec {
  import opened Words
  import opened Octets

  const FDT_BEGIN_NODE: u32 := 1
  const FDT_END_NODE: u32 := 2
  const FDT_PROP: u32 := 3
  const FDT_NOP: u32 := 4
  const FDT_END: u32 := 9

  datatype Item = Begin(name: Bytes) | Prop(name: Bytes, value: Bytes) | End

  predicate CString(s: Bytes) {
    forall i :: 0 <= i < |s| ==> s[i] != 0
  }

  /** Names are C strings; a length is a 32-bit word. */
  predicate Proper(it: Item) {
    match it
    case Begin(name) => CString(name)
    case Prop(name, value) => CString(name) && |value| < 0x1_0000_0000
    case End => true
  }

  // ---------- encoding ----------

  function Pad(n: nat): nat {
    if n % 4 == 0 then 0 else 4 - n % 4
  }

  function Aligned(b: Bytes): (r: Bytes)
    ensures |r| % 4 == 0 && |r| == |b| + Pad(|b|)
  {
    PadFills(|b|);
    b + Zeros(Pad(|b|))
  }

  lemma PadFills(n: nat)
    ensures (n + Pad(n)) % 4 == 0
  {
    DivMod(n + Pad(n), 4, if n % 4 == 0 then n / 4 else n / 4 + 1, 0);
  }

  lemma SumAligned(a: Bytes, b: Bytes)
    requires |a| % 4 == 0 && |b| % 4 == 0
    ensures |a + b| % 4 == 0
  {
    DivMod(|a + b|, 4, |a| / 4 + |b| / 4, 0);
  }

  function ItemBytes(it: Item, off: nat): (r: Bytes)
    requires Proper(it)
    ensures |r| % 4 == 0 && |r| >= 4
  {
    match it
    case Begin(name) =>
      SumAligned(Be32(FDT_BEGIN_NODE), Aligned(name + [0]));
      Be32(FDT_BEGIN_NODE) + Aligned(name + [0])
    case Prop(_, value) =>
      var head := Be32(FDT_PROP) + Be32(|value|) + Be32(off % 0x1_0000_0000);
      SumAligned(head, Aligned(value));
      head + Aligned(value)
    case End => Be32(FDT_END_NODE)
  }

  function ItemString(it: Item): Bytes {
    if it.Prop? then it.name + [0] else []
  }

  predicate AllProper(items: seq<Item>) {
    forall i :: 0 <= i < |items| ==> Proper(items[i])
  }

  /** The structure block from the point where the strings block has `off` bytes. */
  function Struct(items: seq<Item>, off: nat): (r: Bytes)
    requires AllProper(items)
    ensures |r| % 4 == 0
  {
    if items == [] then []
    else
      SumAligned(ItemBytes(items[0], off), Struct(items[1..], off + |ItemString(items[0])|));
      ItemBytes(items[0], off) + Struct(items[1..], off + |ItemString(items[0])|)
  }

  function Strings(items: seq<Item>): Bytes {
    if items == [] then [] else ItemString(items[0]) + Strings(items[1..])
  }

  lemma {:induction false} StringsAppend(items: seq<Item>, it: Item)
    ensures Strings(items + [it]) == Strings(items) + ItemString(it)
  {
    if items == [] {
      assert [it][1..] == [];
    } else {
      assert (items + [it])[1..] == items[1..] + [it];
      StringsAppend(items[1..], it);
    }
  }

  /** One more call appends to both blocks. */
  lemma {:induction false} StructAppend(items: seq<Item>, it: Item, off: nat)
    requires AllProper(items) && Proper(it)
    ensures Struct(items + [it], off) == Struct(items, off) + ItemBytes(it, off + |Strings(items)|)
  {
    hide ItemBytes, ItemString;
    if items == [] {
      assert [it][1..] == [];
      assert Struct([it], off) == ItemBytes(it, off) + [];
    } else {
      assert (items + [it])[1..] == items[1..] + [it];
      StructAppend(items[1..], it, off + |ItemString(items[0])|);
    }
  }

  // ---------- decoding ----------

  /** The NUL-terminated string at the front. */
  function CStr(b: Bytes): (r: Option<Bytes>)
    ensures r.Some? ==> |r.value| < |b|
  {
    if b == [] then None
    else if b[0] == 0 then Some([])
    else
      match CStr(b[1..])
      case None => None
      case Some(s) => Some([b[0]] + s)
  }

  lemma {:induction false} CStrReads(s: Bytes, rest: Bytes)
    requires CString(s)
    ensures CStr(s + [0] + rest) == Some(s)
  {
    var b := s + [0] + rest;
    if s != [] {
      assert b[1..] == s[1..] + [0] + rest;
      CStrReads(s[1..], rest);
      assert [s[0]] + s[1..] == s;
    }
  }

  function StringAt(strings: Bytes, off: int): Option<Bytes> {
    if 0 <= off <= |strings| then CStr(strings[off..]) else None
  }

  datatype Step = Step(item: Option<Item>, rest: Bytes)

  /** One token with what belongs to it. A NOP stands for nothing. */
  function Token(b: Bytes, strings: Bytes): (r: Option<Step>)
    ensures r.Some? ==> |r.value.rest| < |b|
  {
    if |b| < 4 then None
    else if U32(b) == FDT_BEGIN_NODE then
      match CStr(b[4..])
      case None => None
      case Some(name) =>
        var n := |name| + 1 + Pad(|name| + 1);
        if 4 + n > |b| then None else Some(Step(Some(Begin(name)), b[4 + n..]))
    else if U32(b) == FDT_END_NODE then Some(Step(Some(End), b[4..]))
    else if U32(b) == FDT_NOP then Some(Step(None, b[4..]))
    else if U32(b) == FDT_PROP && |b| >= 12 then
      var len, name := U32(b[4..]), StringAt(strings, U32(b[8..]));
      if name.None? || 12 + len + Pad(len) > |b| then None
      else Some(Step(Some(Prop(name.value, b[12..12 + len])), b[12 + len + Pad(len)..]))
    else None
  }

  /** All items up to the end token. */
  function Decode(b: Bytes, strings: Bytes): Option<seq<Item>>
    decreases |b|
  {
    if |b| >= 4 && U32(b) == FDT_END then Some([])
    else
      match Token(b, strings)
      case None => None
      case Some(t) =>
        match Decode(t.rest, strings)
        case None => None
        case Some(items) => if t.item.Some? then Some([t.item.value] + items) else Some(items)
  }

  lemma TokenBegin(name: Bytes, rest: Bytes, strings: Bytes)
    requires CString(name)
    ensures Token(Be32(FDT_BEGIN_NODE) + Aligned(name + [0]) + rest, strings) == Some(Step(Some(Begin(name)), rest))
  {
    hide Be32, U32;
    var tail := Aligned(name + [0]) + rest;
    var b := Be32(FDT_BEGIN_NODE) + tail;
    assert b == Be32(FDT_BEGIN_NODE) + Aligned(name + [0]) + rest;
    U32Be32(FDT_BEGIN_NODE, tail);
    var z := Zeros(Pad(|name| + 1));
    assert tail == name + [0] + (z + rest);
    CStrReads(name, z + rest);
    var n := |name| + 1 + Pad(|name| + 1);
    assert b[4 + n..] == rest;
  }

  lemma TokenEnd(rest: Bytes, strings: Bytes)
    ensures Token(Be32(FDT_END_NODE) + rest, strings) == Some(Step(Some(End), rest))
  {
    hide Be32, U32;
    U32Be32(FDT_END_NODE, rest);
  }

  lemma TokenProp(name: Bytes, value: Bytes, off: nat, rest: Bytes, strings: Bytes)
    requires |value| < 0x1_0000_0000 && off < 0x1_0000_0000 && StringAt(strings, off) == Some(name)
    ensures Token(Be32(FDT_PROP) + Be32(|value|) + Be32(off) + Aligned(value) + rest, strings)
         == Some(Step(Some(Prop(name, value)), rest))
  {
    hide Be32, U32, StringAt;
    var t3 := Aligned(value) + rest;
    var t2 := Be32(off) + t3;
    var t1 := Be32(|value|) + t2;
    var b := Be32(FDT_PROP) + t1;
    assert b == Be32(FDT_PROP) + Be32(|value|) + Be32(off) + Aligned(value) + rest;
    U32Be32(FDT_PROP, t1);
    U32Be32(|value|, t2);
    U32Be32(off, t3);
    assert b[4..] == t1 && b[8..] == t1[4..] == t2 && b[12..] == t2[4..] == t3;
    var len := |value|;
    assert b[12..12 + len] == t3[..len] == value;
    assert b[12 + len + Pad(len)..] == t3[len + Pad(len)..] == rest;
  }

  lemma DecodeCons(it: Item, b: Bytes, rest: Bytes, strings: Bytes, items: seq<Item>)
    requires Token(b, strings) == Some(Step(Some(it), rest)) && |b| >= 4 && U32(b) != FDT_END
    requires Decode(rest, strings) == Some(items)
    ensures Decode(b, strings) == Some([it] + items)
  {
  }

  lemma DecodeEnd(rest: Bytes, strings: Bytes)
    ensures Decode([] + Be32(FDT_END) + rest, strings) == Some([])
  {
    U32Be32(FDT_END, rest);
    assert [] + Be32(FDT_END) + rest == Be32(FDT_END) + rest;
  }

  /** Decoding gives every item back, with every name offset resolved. */
  lemma {:induction false} DecodeStruct(items: seq<Item>, off: nat, before: Bytes, after: Bytes, rest: Bytes)
    requires AllProper(items) && off == |before| && off + |Strings(items)| < 0x1_0000_0000
    ensures Decode(Struct(items, off) + Be32(FDT_END) + rest, before + Strings(items) + after) == Some(items)
  {
    hide Token, Decode, ItemBytes, ItemString, Be32, U32;
    if items == [] {
      DecodeEnd(rest, before + [] + after);
    } else {
      var it, more := items[0], items[1..];
      var name := ItemString(it);
      var tail := Struct(more, off + |name|) + Be32(FDT_END) + rest;
      assert Struct(items, off) + Be32(FDT_END) + rest == ItemBytes(it, off) + tail;
      DecodeStruct(more, off + |name|, before + name, after, rest);
      assert before + name + Strings(more) + after == before + Strings(items) + after;
      TokenItem(it, off, tail, before, Strings(more) + after);
      assert before + name + (Strings(more) + after) == before + Strings(items) + after;
      NotEnd(it, off, tail);
      DecodeCons(it, ItemBytes(it, off) + tail, tail, before + Strings(items) + after, more);
      assert [it] + more == items;
    }
  }

  lemma TokenItem(it: Item, off: nat, rest: Bytes, before: Bytes, after: Bytes)
    requires Proper(it) && off == |before| < 0x1_0000_0000
    ensures Token(ItemBytes(it, off) + rest, before + ItemString(it) + after) == Some(Step(Some(it), rest))
  {
    hide Token, Be32;
    var strings := before + ItemString(it) + after;
    match it
    case Begin(name) => TokenBegin(name, rest, strings);
    case End => TokenEnd(rest, strings);
    case Prop(name, value) =>
      assert strings[off..] == name + [0] + after;
      CStrReads(name, after);
      DivMod(off, 0x1_0000_0000, 0, off);
      TokenProp(name, value, off, rest, strings);
  }

  lemma NotEnd(it: Item, off: nat, rest: Bytes)
    requires Proper(it)
    ensures U32(ItemBytes(it, off) + rest) != FDT_END
  {
    hide Be32, U32;
    match it
    case Begin(name) =>
      var t := Aligned(name + [0]) + rest;
      U32Be32(FDT_BEGIN_NODE, t);
      assert ItemBytes(it, off) + rest == Be32(FDT_BEGIN_NODE) + t;
    case End => U32Be32(FDT_END_NODE, rest);
    case Prop(_, value) =>
      var t := Be32(|value|) + Be32(off % 0x1_0000_0000) + Aligned(value) + rest;
      U32Be32(FDT_PROP, t);
      assert ItemBytes(it, off) + rest == Be32(FDT_PROP) + t;
  }

  /** The token in front of every item, by value. */
  lemma ItemFront(it: Item, off: nat)
    requires Proper(it)
    ensures ItemBytes(it, off)[..4] == [0, 0, 0, if it.Begin? then 1 else if it.End? then 2 else 3]
  {
    match it
    case Begin(name) => assert ItemBytes(it, off)[..4] == Be32(FDT_BEGIN_NODE);
    case End => assert ItemBytes(it, off)[..4] == Be32(FDT_END_NODE);
    case Prop(_, value) => assert ItemBytes(it, off)[..4] == Be32(FDT_PROP);
  }

  // ---------- trees ----------

  datatype Property = Property(name: Bytes, value: Bytes)

  datatype Node = Node(name: Bytes, props: seq<Property>, kids: seq<Node>)

  /** A node's properties come before its children. */
  function Flatten(t: Node): seq<Item> {
    [Begin(t.name)] + Props(t.props) + FlattenAll(t.kids) + [End]
  }

  function Props(ps: seq<Property>): seq<Item> {
    if ps == [] then [] else [Prop(ps[0].name, ps[0].value)] + Props(ps[1..])
  }

  function FlattenAll(ts: seq<Node>): seq<Item> {
    if ts == [] then [] else Flatten(ts[0]) + FlattenAll(ts[1..])
  }

  datatype Parsed<T> = Parsed(value: T, rest: seq<Item>)

  function ParseProps(items: seq<Item>): (r: Parsed<seq<Property>>)
    ensures |r.rest| <= |items|
  {
    if items == [] || !items[0].Prop? then Parsed([], items)
    else
      var p := ParseProps(items[1..]);
      Parsed([Property(items[0].name, items[0].value)] + p.value, p.rest)
  }

  function ParseNode(items: seq<Item>): (r: Option<Parsed<Node>>)
    ensures r.Some? ==> |r.value.rest| < |items|
    decreases |items|, 0
  {
    if items == [] || !items[0].Begin? then None
    else
      var ps := ParseProps(items[1..]);
      match ParseKids(ps.rest)
      case None => None
      case Some(ks) =>
        if ks.rest == [] || ks.rest[0] != End then None
        else Some(Parsed(Node(items[0].name, ps.value, ks.value), ks.rest[1..]))
  }

  function ParseKids(items: seq<Item>): (r: Option<Parsed<seq<Node>>>)
    ensures r.Some? ==> |r.value.rest| <= |items|
    decreases |items|, 1
  {
    if items == [] || !items[0].Begin? then Some(Parsed([], items))
    else
      match ParseNode(items)
      case None => None
      case Some(k) =>
        match ParseKids(k.rest)
        case None => None
        case Some(ks) => Some(Parsed([k.value] + ks.value, ks.rest))
  }

  lemma {:induction false} ParsePropsReads(ps: seq<Property>, rest: seq<Item>)
    requires rest == [] || !rest[0].Prop?
    ensures ParseProps(Props(ps) + rest) == Parsed(ps, rest)
  {
    hide Props;
    if ps == [] {
      NoProps(rest);
    } else {
      var p, more := ps[0], ps[1..];
      assert ps == [p] + more;
      PropsCons(p, more);
      ParsePropsReads(more, rest);
      assert (Props(ps) + rest)[1..] == Props(more) + rest;
    }
  }

  lemma KidsFront(ts: seq<Node>, rest: seq<Item>)
    ensures ts != [] ==> FlattenAll(ts) + rest != [] && (FlattenAll(ts) + rest)[0] == Begin(ts[0].name)
  {
  }

  /** A tree is read back from the calls that make it. */
  lemma {:induction false} ParseReads(t: Node, rest: seq<Item>)
    ensures ParseNode(Flatten(t) + rest) == Some(Parsed(t, rest))
    decreases t, 0
  {
    hide ParseProps, Props;
    var items := Flatten(t) + rest;
    var tail := FlattenAll(t.kids) + ([End] + rest);
    assert items[1..] == Props(t.props) + tail;
    KidsFront(t.kids, [End] + rest);
    ParsePropsReads(t.props, tail);
    ParseKidsReads(t.kids, [End] + rest);
  }

  lemma {:induction false} ParseKidsReads(ts: seq<Node>, rest: seq<Item>)
    requires rest != [] && !rest[0].Begin?
    ensures ParseKids(FlattenAll(ts) + rest) == Some(Parsed(ts, rest))
    decreases ts, 1
  {
    hide ParseNode, Flatten;
    if ts == [] {
      assert FlattenAll(ts) + rest == rest;
    } else {
      var more := FlattenAll(ts[1..]) + rest;
      assert FlattenAll(ts) + rest == Flatten(ts[0]) + more;
      KidsBegin(ts[0], more);
      ParseReads(ts[0], more);
      ParseKidsReads(ts[1..], rest);
      assert [ts[0]] + ts[1..] == ts;
    }
  }

  lemma KidsBegin(t: Node, rest: seq<Item>)
    ensures (Flatten(t) + rest) != [] && (Flatten(t) + rest)[0].Begin?
  {
  }

  lemma PropsCons(p: Property, ps: seq<Property>)
    ensures Props([p] + ps) == [Prop(p.name, p.value)] + Props(ps)
  {
    assert ([p] + ps)[1..] == ps;
  }

  lemma {:induction false} PropsParsed(items: seq<Item>)
    ensures var p := ParseProps(items); items == Props(p.value) + p.rest
    decreases |items|
  {
    hide Props;
    if items != [] && items[0].Prop? {
      var tail := items[1..];
      PropsParsed(tail);
      PropsCons(Property(items[0].name, items[0].value), ParseProps(tail).value);
      assert items == [items[0]] + tail;
    } else {
      NoProps(items);
    }
  }

  lemma NoProps(items: seq<Item>)
    ensures Props([]) + items == items
  {
  }

  /** Whatever parses is what some tree flattens to: nothing that is not properly nested,
      or has a property behind a child, is taken. */
  lemma {:induction false} ParsedIsFlat(items: seq<Item>)
    ensures var r := ParseNode(items); r.Some? ==> items == Flatten(r.value.value) + r.value.rest
    decreases |items|, 0
  {
    hide ParseProps, Props, ParseKids, FlattenAll;
    var r := ParseNode(items);
    if r.Some? {
      var tail := items[1..];
      var ps := ParseProps(tail);
      PropsParsed(tail);
      var ks := ParseKids(ps.rest).value;
      KidsParsed(ps.rest);
      Rejoin(items, tail, r.value.value, ps.rest, ks.rest, r.value.rest);
    }
  }

  lemma Rejoin(items: seq<Item>, tail: seq<Item>, t: Node, kids: seq<Item>, end: seq<Item>, rest: seq<Item>)
    requires items == [Begin(t.name)] + tail && tail == Props(t.props) + kids
    requires kids == FlattenAll(t.kids) + end && end == [End] + rest
    ensures items == Flatten(t) + rest
  {
    hide Props, FlattenAll;
  }

  lemma {:induction false} KidsParsed(items: seq<Item>)
    ensures var r := ParseKids(items); r.Some? ==> items == FlattenAll(r.value.value) + r.value.rest
    decreases |items|, 1
  {
    hide ParseNode, Flatten;
    var r := ParseKids(items);
    if r.Some? && items != [] && items[0].Begin? {
      ParsedIsFlat(items);
      var k := ParseNode(items).value;
      KidsParsed(k.rest);
      var ks := ParseKids(k.rest).value;
      assert r.value.value[1..] == ks.value;
      assert items == Flatten(k.value) + (FlattenAll(ks.value) + ks.rest);
    }
  }

  /** A sequence of calls is a tree, exactly if parsing takes all of it. */
  lemma TreeExactly(items: seq<Item>, t: Node)
    ensures ParseNode(items) == Some(Parsed(t, [])) <==> items == Flatten(t)
  {
    hide ParseNode, Flatten;
    ParsedIsFlat(items);
    ParseReads(t, []);
    assert Flatten(t) + [] == Flatten(t);
  }

  // ---------- string lists (section 2.2.4) ----------

  predicate AllCStrings(ss: seq<Bytes>) {
    forall i :: 0 <= i < |ss| ==> CString(ss[i])
  }

  /** NUL-terminated strings one after the other. */
  function Listed(ss: seq<Bytes>): Bytes {
    if ss == [] then [] else ss[0] + [0] + Listed(ss[1..])
  }

  ghost predicate StringList(v: Bytes) {
    exists ss :: AllCStrings(ss) && v == Listed(ss)
  }

  lemma {:induction false} ListedEnds(ss: seq<Bytes>)
    ensures Listed(ss) == [] || Listed(ss)[|Listed(ss)| - 1] == 0
  {
    if ss != [] { ListedEnds(ss[1..]); }
  }

  /** What ends in NUL starts with a string. */
  lemma {:induction false} FirstString(v: Bytes)
    requires v != [] && v[|v| - 1] == 0
    ensures var s := CStr(v); s.Some? && CString(s.value) && v == s.value + [0] + v[|s.value| + 1..]
  {
    if v[0] != 0 { FirstString(v[1..]); }
  }

  lemma {:induction false} EndsListed(v: Bytes) returns (ss: seq<Bytes>)
    requires v == [] || v[|v| - 1] == 0
    ensures AllCStrings(ss) && Listed(ss) == v
    decreases |v|
  {
    ss := [];
    if v != [] {
      FirstString(v);
      var s := CStr(v).value;
      var more := EndsListed(v[|s| + 1..]);
      ss := [s] + more;
      assert ss[1..] == more;
    }
  }

  lemma StringListExact(v: Bytes)
    ensures StringList(v) <==> v == [] || v[|v| - 1] == 0
  {
    if StringList(v) {
      var ss :| AllCStrings(ss) && v == Listed(ss);
      ListedEnds(ss);
    }
    if v == [] || v[|v| - 1] == 0 {
      var ss := EndsListed(v);
    }
  }

  /** "arm,pl011", NUL, "arm,primecell", NUL as it lies in memory. */
  const UartNames: Bytes := [
    0x61, 0x72, 0x6D, 0x2C, 0x70, 0x6C, 0x30, 0x31, 0x31, 0x00,
    0x61, 0x72, 0x6D, 0x2C, 0x70, 0x72, 0x69, 0x6D, 0x65, 0x63, 0x65, 0x6C, 0x6C, 0x00
  ]

  /** A list cut out of memory is a list of strings exactly when the cut is behind a NUL.
      The length 23 that the UART node gives is one short of that. */
  lemma CutStringList(val: Bytes, total: nat)
    requires total <= |val|
    ensures StringList(val[..total]) <==> total == 0 || val[total - 1] == 0
    ensures !StringList(UartNames[..23]) && StringList(UartNames[..24])
  {
    StringListExact(val[..total]);
    StringListExact(UartNames[..23]);
    StringListExact(UartNames[..24]);
    assert UartNames[..23][22] == 0x6C;
  }

  // ---------- the whole blob (section 5.2) ----------

  const FDT_MAGIC: u32 := 0xD00D_FEED

  function StructBlock(items: seq<Item>): (r: Bytes)
    requires AllProper(items)
    ensures |r| % 4 == 0
  {
    SumAligned(Struct(items, 0), Be32(FDT_END));
    Struct(items, 0) + Be32(FDT_END)
  }

  function TotalSize(structSize: nat, stringsSize: nat): nat {
    64 + structSize + stringsSize + Pad(64 + structSize + stringsSize)
  }

  predicate Fits(items: seq<Item>)
    requires AllProper(items)
  {
    TotalSize(|StructBlock(items)|, |Strings(items)|) < 0x1_0000_0000
  }

  /** The header's ten words. */
  function Header(structSize: nat, stringsSize: nat): (r: Bytes)
    ensures |r| == 40
  {
    var total := TotalSize(structSize, stringsSize);
    Be32(FDT_MAGIC) + Be32(total % 0x1_0000_0000) + Be32(64) + Be32((64 + structSize) % 0x1_0000_0000) + Be32(48)
    + Be32(17) + Be32(16) + Be32(0) + Be32(stringsSize % 0x1_0000_0000) + Be32(structSize % 0x1_0000_0000)
  }

  /** Header, empty memory reservation block, structure block, strings block. */
  function BlobOf(items: seq<Item>): (r: Bytes)
    requires AllProper(items) && Fits(items)
    ensures |r| == TotalSize(|StructBlock(items)|, |Strings(items)|)
  {
    var s, n := StructBlock(items), Strings(items);
    Header(|s|, |n|) + Zeros(24) + s + n + Zeros(Pad(64 + |s| + |n|))
  }

  function Field(b: Bytes, i: nat): int
    requires |b| >= 40 && i < 10
  {
    U32(b[4 * i..])
  }

  predicate InBlob(b: Bytes, off: int, size: int) {
    0 <= off && 0 <= size && off + size <= |b|
  }

  function ReadBlob(b: Bytes): Option<Node> {
    if |b| < 40 || Field(b, 0) != FDT_MAGIC || Field(b, 6) > 17 then None
    else if !InBlob(b, Field(b, 2), Field(b, 9)) || !InBlob(b, Field(b, 3), Field(b, 8)) then None
    else
      var st, strings := b[Field(b, 2)..Field(b, 2) + Field(b, 9)], b[Field(b, 3)..Field(b, 3) + Field(b, 8)];
      match Decode(st, strings)
      case None => None
      case Some(items) =>
        match ParseNode(items)
        case None => None
        case Some(p) => if p.rest == [] then Some(p.value) else None
  }

  lemma HeaderField(s: nat, n: nat, i: nat, rest: Bytes)
    requires TotalSize(s, n) < 0x1_0000_0000 && i < 10
    ensures Field(Header(s, n) + rest, i) ==
              [0xD00D_FEED, TotalSize(s, n), 64, 64 + s, 48, 17, 16, 0, n, s][i]
  {
    hide Be32, U32;
    var v: seq<int> := [FDT_MAGIC, TotalSize(s, n), 64, 64 + s, 48, 17, 16, 0, n, s];
    var w: u32 := v[i];
    forall x: nat | x < 0x1_0000_0000 ensures x % 0x1_0000_0000 == x { DivMod(x, 0x1_0000_0000, 0, x); }
    var b := Header(s, n) + rest;
    assert b[4 * i..] == Be32(w) + b[4 * i + 4..];
    U32Be32(w, b[4 * i + 4..]);
  }

  lemma BlobParts(items: seq<Item>)
    requires AllProper(items) && Fits(items)
    ensures var b, s, n := BlobOf(items), |StructBlock(items)|, |Strings(items)|;
            && Field(b, 0) == FDT_MAGIC && Field(b, 6) == 16 && Field(b, 2) == 64 && Field(b, 9) == s
            && Field(b, 3) == 64 + s && Field(b, 8) == n
            && b[64..64 + s] == StructBlock(items) && b[64 + s..64 + s + n] == Strings(items)
  {
    hide Header, StructBlock, Strings, Field;
    var s, n := StructBlock(items), Strings(items);
    var b, rest := BlobOf(items), Zeros(24) + s + n + Zeros(Pad(64 + |s| + |n|));
    assert b == Header(|s|, |n|) + rest;
    HeaderField(|s|, |n|, 0, rest);
    HeaderField(|s|, |n|, 2, rest);
    HeaderField(|s|, |n|, 3, rest);
    HeaderField(|s|, |n|, 6, rest);
    HeaderField(|s|, |n|, 8, rest);
    HeaderField(|s|, |n|, 9, rest);
  }

  /** The blob reads back as a tree exactly when the calls that made it were the calls
      for that tree. */
  lemma BlobReads(items: seq<Item>, t: Node)
    requires AllProper(items) && Fits(items)
    ensures ReadBlob(BlobOf(items)) == Some(t) <==> items == Flatten(t)
  {
    hide BlobOf, Field, Decode, ParseNode, Flatten, Struct, Be32;
    var s, n := StructBlock(items), Strings(items);
    BlobParts(items);
    DecodeStruct(items, 0, [], [], []);
    assert s + [] == s && [] + n + [] == n;
    TreeExactly(items, t);
  }

  /** The blob starts with the magic number d00dfeed and its structure block ends with the
      end token. */
  lemma BlobFront(items: seq<Item>)
    requires AllProper(items) && Fits(items)
    ensures var b, n := BlobOf(items), |StructBlock(items)|;
            && n >= 4 && b[..4] == [0xD0, 0x0D, 0xFE, 0xED] && b[64 + n - 4..64 + n] == [0, 0, 0, 9]
  {
    hide Struct, Strings, Header;
    var s, n := StructBlock(items), Strings(items);
    HeaderFront(|s|, |n|);
    assert BlobOf(items)[..4] == Header(|s|, |n|)[..4];
    assert BlobOf(items)[64..64 + |s|] == s;
    assert BlobOf(items)[64 + |s| - 4..64 + |s|] == s[|s| - 4..] == Be32(FDT_END);
  }

  lemma HeaderFront(s: nat, n: nat)
    ensures Header(s, n)[..4] == [0xD0, 0x0D, 0xFE, 0xED]
  {
    assert Be32(FDT_MAGIC) == [0xD0, 0x0D, 0xFE, 0xED];
    hide Be32;
    assert Header(s, n)[..4] == Be32(FDT_MAGIC);
  }
}
