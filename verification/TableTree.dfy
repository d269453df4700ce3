/** The shape of the table pool as a value: which pool page serves which window,
    and why the words in it spell out the page map of every VM. */
module TableTree {
  import opened Words
  import opened Stage2Spec

  /** Why a pool page was handed out, and so which single entry points to it. */
  datatype Role = Root | Mid(window: (int, int)) | Bottom(window: (int, int))

  /** `mem` is the pool, `role` says what each allocated page is for, `mid` and
      `bot` locate the table of a 1 GB and of a 2 MB window. */
  datatype Tree = Tree(view: S2, mid: map<(int, int), int>, bot: map<(int, int), int>,
                       role: seq<Role>, mem: seq<seq<int>>)

  function TableDesc(p: int): int {
    p * 4096 + 3
  }

  function NextTable(desc: int): int {
    desc / 4096
  }

  function DirEntry(tables: map<(int, int), int>, w: (int, int)): int {
    if w in tables then TableDesc(tables[w]) else 0
  }

  function LeafEntry(s: S2, x: (int, int)): int {
    if x in s.leaf then s.leaf[x] else 0
  }

  // ---------- one pool page per window, one window per pool page ----------

  predicate RootOk(t: Tree, r: int) {
    r in t.view.roots ==> 0 <= r < |t.role| && t.role[r] == Root
  }

  predicate MidOk(t: Tree, w: (int, int)) {
    w in t.mid ==> w.0 in t.view.roots && 0 <= w.1 < 512 && 0 <= t.mid[w] < |t.role| && t.role[t.mid[w]] == Mid(w)
  }

  predicate BotOk(t: Tree, w: (int, int)) {
    w in t.bot ==> (w.0, w.1 / 512) in t.mid && 0 <= w.1 < 0x4_0000 && 0 <= t.bot[w] < |t.role| && t.role[t.bot[w]] == Bottom(w)
  }

  predicate LeafOk(t: Tree, x: (int, int)) {
    x in t.view.leaf ==> (x.0, x.1 / 512) in t.bot && 0 <= x.1 < 0x800_0000 && t.view.leaf[x] % 4 == 3
  }

  predicate Sized(t: Tree) {
    && t.mid.Keys == t.view.gigs
    && t.bot.Keys == t.view.megs
    && |t.role| == Tables(t.view) <= POOL_PAGES
    && |t.mem| == POOL_PAGES
    && (forall p :: 0 <= p < POOL_PAGES ==> |t.mem[p]| == 512)
  }

  ghost predicate Owned(t: Tree) {
    && (forall r: int :: RootOk(t, r))
    && (forall w: (int, int) :: MidOk(t, w))
    && (forall w: (int, int) :: BotOk(t, w))
    && (forall x: (int, int) :: LeafOk(t, x))
  }

  ghost predicate Shape(t: Tree) {
    Sized(t) && Owned(t)
  }

  // ---------- what the words hold ----------

  ghost predicate RootCell(t: Tree, r: int, i: int)
    requires Shape(t)
  {
    assert RootOk(t, r);
    r in t.view.roots && 0 <= i < 512 ==> t.mem[r][i] == DirEntry(t.mid, (r, i))
  }

  ghost predicate MidCell(t: Tree, r: int, m: int)
    requires Shape(t)
  {
    assert MidOk(t, (r, m / 512));
    (r, m / 512) in t.mid ==> t.mem[t.mid[(r, m / 512)]][m % 512] == DirEntry(t.bot, (r, m))
  }

  ghost predicate LeafCell(t: Tree, r: int, k: int)
    requires Shape(t)
  {
    assert BotOk(t, (r, k / 512));
    (r, k / 512) in t.bot ==> t.mem[t.bot[(r, k / 512)]][k % 512] == LeafEntry(t.view, (r, k))
  }

  ghost predicate WellFormed(t: Tree) {
    && Shape(t)
    && (forall r: int, i: int :: RootCell(t, r, i))
    && (forall r: int, m: int :: MidCell(t, r, m))
    && (forall r: int, k: int :: LeafCell(t, r, k))
  }

  /** The words met on the way from root `r` down to key `k`. */
  lemma PathWords(t: WfTree, r: int, k: int)
    requires r in t.view.roots && 0 <= k < 0x800_0000
    ensures 0 <= r < POOL_PAGES
    ensures (r, k / 0x4_0000) !in t.mid ==>
              t.mem[r][k / 0x4_0000] == 0 && (r, k / 512) !in t.bot && (r, k) !in t.view.leaf
    ensures (r, k / 0x4_0000) in t.mid ==>
              var l2 := t.mid[(r, k / 0x4_0000)];
              0 <= l2 < POOL_PAGES && t.mem[r][k / 0x4_0000] == TableDesc(l2)
              && t.mem[l2][k / 512 % 512] == DirEntry(t.bot, (r, k / 512))
    ensures (r, k / 512) !in t.bot ==> (r, k) !in t.view.leaf
    ensures (r, k / 512) in t.bot ==>
              var l3 := t.bot[(r, k / 512)];
              0 <= l3 < POOL_PAGES && t.mem[l3][k % 512] == LeafEntry(t.view, (r, k))
              && ((r, k) in t.view.leaf ==> t.view.leaf[(r, k)] % 4 == 3)
  {
    assert k / 0x4_0000 == k / 512 / 512;
    assert RootOk(t, r) && RootCell(t, r, k / 0x4_0000);
    assert MidOk(t, (r, k / 0x4_0000)) && MidCell(t, r, k / 512);
    assert BotOk(t, (r, k / 512)) && LeafCell(t, r, k);
    assert LeafOk(t, (r, k));
  }

  lemma TableDescs(p: int)
    requires 0 <= p < POOL_PAGES
    ensures TableDesc(p) % 4 == 3 && TableDesc(p) % 2 == 1
    ensures NextTable(TableDesc(p)) == p == TableDesc(p) % 0x1_0000_0000_0000 / 4096
  {
    DivMod(TableDesc(p), 4, 1024 * p, 3);
    DivMod(TableDesc(p), 2, 2048 * p + 1, 1);
    DivMod(TableDesc(p), 4096, p, 3);
    DivMod(TableDesc(p), 0x1_0000_0000_0000, 0, TableDesc(p));
  }

  lemma Capacity(t: WfTree)
    ensures |t.role| == Tables(t.view) <= POOL_PAGES
  {
  }

  // ---------- the four updates ----------

  /** The next pool page, zeroed. */
  function Zeroed(mem: seq<seq<int>>, p: int): seq<seq<int>>
    requires 0 <= p < |mem|
  {
    var row: seq<int> := seq(512, i => 0);
    mem[p := row]
  }

  function Poke(mem: seq<seq<int>>, p: int, i: int, v: int): seq<seq<int>>
    requires 0 <= p < |mem| && 0 <= i < |mem[p]|
  {
    var row: seq<int> := mem[p][i := v];
    mem[p := row]
  }

  function AddRoot(t: Tree): Tree
    requires |t.role| < |t.mem|
  {
    t.(view := Create(t.view, |t.role|), role := t.role + [Root], mem := Zeroed(t.mem, |t.role|))
  }

  function AddMid(t: Tree, r: int, i: int): Tree
    requires |t.role| < |t.mem| && 0 <= r < |t.mem| && 0 <= i < 512 && |t.mem[r]| == 512
  {
    t.(view := t.view.(gigs := t.view.gigs + {(r, i)}), mid := t.mid[(r, i) := |t.role|],
       role := t.role + [Mid((r, i))], mem := Poke(Zeroed(t.mem, |t.role|), r, i, TableDesc(|t.role|)))
  }

  function AddBottom(t: Tree, r: int, m: int): Tree
    requires |t.role| < |t.mem| && (r, m / 512) in t.mid
    requires 0 <= t.mid[(r, m / 512)] < |t.mem| && |t.mem[t.mid[(r, m / 512)]]| == 512
  {
    t.(view := t.view.(megs := t.view.megs + {(r, m)}), bot := t.bot[(r, m) := |t.role|],
       role := t.role + [Bottom((r, m))],
       mem := Poke(Zeroed(t.mem, |t.role|), t.mid[(r, m / 512)], m % 512, TableDesc(|t.role|)))
  }

  function SetLeaf(t: Tree, r: int, k: int, desc: int): Tree
    requires (r, k / 512) in t.bot
    requires 0 <= t.bot[(r, k / 512)] < |t.mem| && |t.mem[t.bot[(r, k / 512)]]| == 512
  {
    t.(view := t.view.(leaf := t.view.leaf[(r, k) := desc]),
       mem := Poke(t.mem, t.bot[(r, k / 512)], k % 512, desc))
  }

  function ClearLeaf(t: Tree, r: int, k: int): Tree
    requires (r, k / 512) in t.bot
    requires 0 <= t.bot[(r, k / 512)] < |t.mem| && |t.mem[t.bot[(r, k / 512)]]| == 512
  {
    t.(view := t.view.(leaf := t.view.leaf - {(r, k)}),
       mem := Poke(t.mem, t.bot[(r, k / 512)], k % 512, 0))
  }

  // ---------- they keep the tree well formed ----------

  lemma AddRootOwned(t: Tree)
    requires Shape(t) && |t.role| < POOL_PAGES
    ensures Owned(AddRoot(t))
  {
    var u := AddRoot(t);
    forall r: int ensures RootOk(u, r) { assert RootOk(t, r); }
    forall w: (int, int) ensures MidOk(u, w) { assert MidOk(t, w); }
    forall w: (int, int) ensures BotOk(u, w) { assert BotOk(t, w); }
    forall x: (int, int) ensures LeafOk(u, x) { assert LeafOk(t, x); }
  }

  lemma AddRootCells(t: Tree)
    requires WellFormed(t) && |t.role| < POOL_PAGES
    ensures WellFormed(AddRoot(t))
    ensures |t.role| !in t.view.roots
  {
    var u := AddRoot(t);
    assert RootOk(t, |t.role|);
    AddRootOwned(t);
    forall r: int, i: int ensures RootCell(u, r, i) {
      assert RootCell(t, r, i);
      assert RootOk(t, r);
      assert MidOk(t, (r, i));
    }
    forall r: int, m: int ensures MidCell(u, r, m) {
      assert MidCell(t, r, m);
      assert MidOk(t, (r, m / 512));
    }
    forall r: int, k: int ensures LeafCell(u, r, k) {
      assert LeafCell(t, r, k);
      assert BotOk(t, (r, k / 512));
    }
  }

  lemma RowsStay(mem: seq<seq<int>>, page: int, r: int, i: int, v: int)
    requires |mem| == POOL_PAGES && 0 <= page < POOL_PAGES && 0 <= r < POOL_PAGES && 0 <= i < 512
    requires forall p :: 0 <= p < POOL_PAGES ==> |mem[p]| == 512
    ensures var mem' := Poke(Zeroed(mem, page), r, i, v);
            |mem'| == POOL_PAGES && forall p :: 0 <= p < POOL_PAGES ==> |mem'[p]| == 512
  {
  }

  lemma OneMoreKey(tables: map<(int, int), int>, w: (int, int), page: int)
    requires w !in tables
    ensures tables[w := page].Keys == tables.Keys + {w} && |tables.Keys + {w}| == |tables.Keys| + 1
  {
  }

  lemma AddMidSized(t: Tree, r: int, i: int)
    requires Sized(t) && |t.role| < POOL_PAGES && 0 <= r < POOL_PAGES && 0 <= i < 512 && (r, i) !in t.mid
    ensures Sized(AddMid(t, r, i))
  {
    hide Poke, Zeroed;
    RowsStay(t.mem, |t.role|, r, i, TableDesc(|t.role|));
    OneMoreKey(t.mid, (r, i), |t.role|);
  }

  lemma AddMidOwned(t: Tree, r: int, i: int)
    requires Shape(t) && |t.role| < POOL_PAGES
    requires r in t.view.roots && 0 <= i < 512 && (r, i) !in t.mid
    ensures 0 <= r < POOL_PAGES && Owned(AddMid(t, r, i))
  {
    assert RootOk(t, r);
    var u := AddMid(t, r, i);
    forall r: int ensures RootOk(u, r) { assert RootOk(t, r); }
    forall w: (int, int) ensures MidOk(u, w) { assert MidOk(t, w); }
    forall w: (int, int) ensures BotOk(u, w) { assert BotOk(t, w); }
    forall x: (int, int) ensures LeafOk(u, x) { assert LeafOk(t, x); }
  }

  lemma AddMidRootCell(t: Tree, r: int, i: int, r': int, i': int)
    requires WellFormed(t) && |t.role| < POOL_PAGES
    requires 0 <= r < POOL_PAGES && r in t.view.roots && 0 <= i < 512 && (r, i) !in t.mid && Shape(AddMid(t, r, i))
    ensures RootCell(AddMid(t, r, i), r', i')
  {
    assert RootOk(t, r);
    assert RootCell(t, r', i');
    assert RootOk(t, r');
  }

  lemma AddMidMidCell(t: Tree, r: int, i: int, r': int, m: int)
    requires WellFormed(t) && |t.role| < POOL_PAGES
    requires 0 <= r < POOL_PAGES && r in t.view.roots && 0 <= i < 512 && (r, i) !in t.mid && Shape(AddMid(t, r, i))
    ensures MidCell(AddMid(t, r, i), r', m)
  {
    assert RootOk(t, r);
    assert MidCell(t, r', m);
    assert MidOk(t, (r', m / 512));
    assert BotOk(t, (r', m));
  }

  lemma AddMidLeafCell(t: Tree, r: int, i: int, r': int, k: int)
    requires WellFormed(t) && |t.role| < POOL_PAGES
    requires 0 <= r < POOL_PAGES && r in t.view.roots && 0 <= i < 512 && (r, i) !in t.mid && Shape(AddMid(t, r, i))
    ensures LeafCell(AddMid(t, r, i), r', k)
  {
    assert RootOk(t, r);
    assert LeafCell(t, r', k);
    assert BotOk(t, (r', k / 512));
  }

  lemma AddMidCells(t: Tree, r: int, i: int)
    requires WellFormed(t) && |t.role| < POOL_PAGES
    requires r in t.view.roots && 0 <= i < 512 && (r, i) !in t.mid
    ensures 0 <= r < POOL_PAGES && WellFormed(AddMid(t, r, i))
  {
    assert |t.mem| == POOL_PAGES && RootOk(t, r);
    hide Owned, RootCell, MidCell, LeafCell, Sized;
    AddMidSized(t, r, i);
    AddMidOwned(t, r, i);
    var u := AddMid(t, r, i);
    forall r': int, i': int ensures RootCell(u, r', i') { AddMidRootCell(t, r, i, r', i'); }
    forall r': int, m: int ensures MidCell(u, r', m) { AddMidMidCell(t, r, i, r', m); }
    forall r': int, k: int ensures LeafCell(u, r', k) { AddMidLeafCell(t, r, i, r', k); }
  }

  lemma AddBottomOwned(t: Tree, r: int, m: int)
    requires Shape(t) && |t.role| < POOL_PAGES
    requires (r, m / 512) in t.mid && 0 <= m < 0x4_0000 && (r, m) !in t.bot
    ensures 0 <= t.mid[(r, m / 512)] < POOL_PAGES && Owned(AddBottom(t, r, m))
  {
    assert MidOk(t, (r, m / 512));
    var u := AddBottom(t, r, m);
    forall r: int ensures RootOk(u, r) { assert RootOk(t, r); }
    forall w: (int, int) ensures MidOk(u, w) { assert MidOk(t, w); }
    forall w: (int, int) ensures BotOk(u, w) { assert BotOk(t, w); }
    forall x: (int, int) ensures LeafOk(u, x) { assert LeafOk(t, x); }
  }

  lemma AddBottomCells(t: Tree, r: int, m: int)
    requires WellFormed(t) && |t.role| < POOL_PAGES
    requires (r, m / 512) in t.mid && 0 <= m < 0x4_0000 && (r, m) !in t.bot
    ensures 0 <= t.mid[(r, m / 512)] < POOL_PAGES && WellFormed(AddBottom(t, r, m))
  {
    AddBottomOwned(t, r, m);
    assert MidOk(t, (r, m / 512));
    var u := AddBottom(t, r, m);
    forall r': int, i: int ensures RootCell(u, r', i) {
      assert RootCell(t, r', i);
      assert RootOk(t, r');
    }
    forall r': int, m': int ensures MidCell(u, r', m') {
      assert MidCell(t, r', m');
      assert MidOk(t, (r', m' / 512));
      SameEntry(m, m');
    }
    forall r': int, k: int ensures LeafCell(u, r', k) {
      assert LeafCell(t, r', k);
      assert BotOk(t, (r', k / 512));
      assert LeafOk(t, (r', k));
    }
  }

  lemma SameEntry(a: int, b: int)
    ensures a / 512 == b / 512 && a % 512 == b % 512 ==> a == b
  {
  }

  lemma SetLeafCells(t: Tree, r: int, k: int, desc: int)
    requires WellFormed(t) && (r, k / 512) in t.bot && 0 <= k < 0x800_0000 && desc % 4 == 3
    ensures 0 <= t.bot[(r, k / 512)] < POOL_PAGES && WellFormed(SetLeaf(t, r, k, desc))
  {
    assert BotOk(t, (r, k / 512));
    var u := SetLeaf(t, r, k, desc);
    LeafShape(t, u);
    forall r': int, i: int ensures RootCell(u, r', i) {
      assert RootCell(t, r', i);
      assert RootOk(t, r');
    }
    forall r': int, m: int ensures MidCell(u, r', m) {
      assert MidCell(t, r', m);
      assert MidOk(t, (r', m / 512));
    }
    forall r': int, k': int ensures LeafCell(u, r', k') {
      assert LeafCell(t, r', k');
      assert BotOk(t, (r', k' / 512));
      SameEntry(k, k');
    }
  }

  lemma ClearLeafCells(t: Tree, r: int, k: int)
    requires WellFormed(t) && (r, k / 512) in t.bot
    ensures 0 <= t.bot[(r, k / 512)] < POOL_PAGES && WellFormed(ClearLeaf(t, r, k))
  {
    assert BotOk(t, (r, k / 512));
    var u := ClearLeaf(t, r, k);
    LeafShape(t, u);
    forall r': int, i: int ensures RootCell(u, r', i) {
      assert RootCell(t, r', i);
      assert RootOk(t, r');
    }
    forall r': int, m: int ensures MidCell(u, r', m) {
      assert MidCell(t, r', m);
      assert MidOk(t, (r', m / 512));
    }
    forall r': int, k': int ensures LeafCell(u, r', k') {
      assert LeafCell(t, r', k');
      assert BotOk(t, (r', k' / 512));
      SameEntry(k, k');
    }
  }

  /** An update of leaf entries alone keeps the shape. */
  lemma LeafShape(t: Tree, u: Tree)
    requires Shape(t)
    requires u == t.(view := t.view.(leaf := u.view.leaf), mem := u.mem)
    requires |u.mem| == POOL_PAGES && forall p :: 0 <= p < POOL_PAGES ==> |u.mem[p]| == 512
    requires forall x: (int, int) :: LeafOk(t, x) ==> LeafOk(u, x)
    ensures Shape(u)
  {
    forall r: int ensures RootOk(u, r) { assert RootOk(t, r); }
    forall w: (int, int) ensures MidOk(u, w) { assert MidOk(t, w); }
    forall w: (int, int) ensures BotOk(u, w) { assert BotOk(t, w); }
    forall x: (int, int) ensures LeafOk(u, x) { assert LeafOk(t, x); }
  }

  /** Before the first allocation. */
  ghost function InitialTree(): (t: Tree)
    ensures WellFormed(t)
  {
    var row: seq<int> := seq(512, i => 0);
    var t := Tree(Empty, map[], map[], [], seq(POOL_PAGES, p => row));
    assert forall x: (int, int) :: LeafOk(t, x);
    assert forall x: (int, int) :: MidOk(t, x) && BotOk(t, x);
    t
  }

  type WfTree = t: Tree | WellFormed(t) ghost witness InitialTree()
}
