/** What every entry point keeps. Each operation is summed up by what it does to
    one VM's cell - run state, trust level, fault count, failover count - while
    everything else about all VMs stays put. */
module HvInv {
  import opened Words
  import opened Stage2Spec
  import opened VmSpec
  import opened HvSpec

  // ---------- structure that never changes after boot ----------

  predicate SameTables(s: S2, t: S2) {
    s.roots == t.roots && s.gigs == t.gigs && s.megs == t.megs
  }

  predicate Live(state: VmState) {
    state == Ready || state == Running || state == Suspended
  }

  /** A live VM translates page `k` as its region list says; a stopped VM has none
      of its region pages mapped. */
  predicate MapAt(vm: Vm, s: S2, k: int) {
    && (Live(vm.state) && VmExpected(vm.kind, vm.mem, k).Some? ==>
          LookUp(s, vm.root, k) == VmExpected(vm.kind, vm.mem, k))
    && (vm.state == Stopped && AnyCovers(vm.mem, k) ==> LookUp(s, vm.root, k).None?)
  }

  ghost predicate MapsOk(vm: Vm, s: S2) {
    forall k :: MapAt(vm, s, k)
  }

  ghost predicate VmOk(h: Hv, i: int)
    requires 0 <= i < |h.vms|
  {
    var vm := h.vms[i];
    && vm.id == i + 1 && vm.root in h.s2.roots && AllAligned(vm.mem)
    && Reserved(h.s2, vm.root, vm.kind, vm.mem) && MapsOk(vm, h.s2)
  }

  /** vCPUs taken from the pool by the first n VMs: once at boot, once per failover. */
  function Use(h: Hv, n: int): int
    requires Sized(h) && 0 <= n <= |h.vms|
  {
    if n == 0 then 0 else Use(h, n - 1) + Sets(h.vms[n - 1].kind, 1 + h.backups[n - 1].count)
  }

  /** That many sets of vCPUs for a VM of this kind. */
  function Sets(kind: Kind, n: nat): nat {
    if kind == Android then 2 * n else n
  }

  function BootVcpus(h: Hv, n: int): int
    requires 0 <= n <= |h.vms|
  {
    if n == 0 then 0 else BootVcpus(h, n - 1) + VcpusOf(h.vms[n - 1].kind)
  }

  predicate BackupOk(b: Backup) {
    b.count <= FAILOVER_MAX_ATTEMPTS && (if b.registered then b.critical else b.count == 0)
  }

  ghost predicate Base(h: Hv) {
    && Sized(h) && h.trust.up && h.failoverUp
    && (forall i :: 0 <= i < |h.vms| ==> VmOk(h, i))
    && (forall i, j :: 0 <= i < j < |h.vms| ==> h.vms[i].root != h.vms[j].root)
    && (forall i :: 0 <= i < MAX_VMS ==> BackupOk(h.backups[i]))
    && (forall i :: |h.vms| <= i < MAX_VMS ==> h.trust.recs[i].level == Unknown && !h.backups[i].registered)
    && |h.vcpus| == Use(h, |h.vms|)
    && BootVcpus(h, |h.vms|) <= 4
  }

  lemma BaseSized(h: Hv)
    requires Base(h)
    ensures Sized(h)
  {
  }

  // ---------- one VM's cell ----------

  datatype Cell = Cell(state: VmState, level: Level, faults: u32, registered: bool, count: u32)

  function CellOf(h: Hv, i: int): Cell
    requires Sized(h) && 0 <= i < |h.vms|
  {
    Cell(h.vms[i].state, h.trust.recs[i].level, h.trust.recs[i].faults, h.backups[i].registered, h.backups[i].count)
  }

  function CSuspend(c: Cell): Cell {
    if c.state == Running then c.(state := Suspended) else c
  }

  function CRevoke(c: Cell): Cell {
    c.(level := Revoked, state := Stopped)
  }

  function CFailover(c: Cell): Cell {
    if c.count >= FAILOVER_MAX_ATTEMPTS then CRevoke(c)
    else c.(count := c.count + 1, state := Running, level := Degraded)
  }

  function CQuarantine(c: Cell): Cell {
    if Blocked(c.level) then c
    else
      var q := CSuspend(c).(level := Quarantine);
      if c.registered then CFailover(q) else q
  }

  function CRestore(c: Cell): Cell {
    if c.level != Quarantine then c
    else c.(level := Degraded, faults := 0, state := if c.state == Suspended then Running else c.state)
  }

  function CReport(c: Cell): Cell {
    if c.level == Revoked then c
    else
      var d := c.(faults := Inc32(c.faults));
      if d.faults >= THRESH_QUARANTINE then CQuarantine(d)
      else if d.faults >= THRESH_DEGRADED && d.level == Trusted then d.(level := Degraded)
      else d
  }

  // ---------- frames ----------

  predicate SameIdentity(v: Vm, w: Vm) {
    v.id == w.id && v.kind == w.kind && v.mem == w.mem && v.root == w.root && v.entry == w.entry && v.dtb == w.dtb
  }

  /** From h to g only VM `id` moved, and its cell is now `c`. */
  ghost predicate Moved(h: Hv, g: Hv, id: int, c: Cell)
    requires Base(h) && Exists(h, id)
  {
    && Base(g) && |g.vms| == |h.vms| && SameTables(g.s2, h.s2)
    && SameIdentity(g.vms[id - 1], h.vms[id - 1])
    && CellOf(g, id - 1) == c
    && (forall j :: 0 <= j < |h.vms| && j != id - 1 ==> g.vms[j] == h.vms[j])
    && (forall j :: 0 <= j < MAX_VMS && j != id - 1 ==>
          g.trust.recs[j] == h.trust.recs[j] && g.backups[j] == h.backups[j])
  }

  // ---------- the life-cycle steps ----------

  lemma {:induction false} UseSame(h: Hv, g: Hv, n: int)
    requires Sized(h) && Sized(g) && 0 <= n <= |h.vms| && n <= |g.vms|
    requires forall j :: 0 <= j < n ==> g.vms[j].kind == h.vms[j].kind && g.backups[j].count == h.backups[j].count
    ensures Use(g, n) == Use(h, n) && BootVcpus(g, n) == BootVcpus(h, n)
  {
    if n > 0 { UseSame(h, g, n - 1); }
  }

  lemma {:induction false} UseOneMore(h: Hv, g: Hv, n: int, i: int)
    requires Sized(h) && Sized(g) && 0 <= i < n <= |h.vms| && n <= |g.vms|
    requires forall j :: 0 <= j < n ==> g.vms[j].kind == h.vms[j].kind
    requires forall j :: 0 <= j < n && j != i ==> g.backups[j].count == h.backups[j].count
    requires g.backups[i].count == h.backups[i].count + 1
    ensures Use(g, n) == Use(h, n) + VcpusOf(h.vms[i].kind) && BootVcpus(g, n) == BootVcpus(h, n)
  {
    if i == n - 1 {
      UseSame(h, g, n - 1);
    } else {
      UseOneMore(h, g, n - 1, i);
    }
  }

  /** Four vCPUs at boot and three restarts each: sixteen, the size of the pool. */
  lemma {:induction false} UseBound(h: Hv, n: int)
    requires Sized(h) && 0 <= n <= |h.vms|
    requires forall j :: 0 <= j < n ==> h.backups[j].count <= FAILOVER_MAX_ATTEMPTS
    ensures Use(h, n) <= 4 * BootVcpus(h, n)
  {
    if n > 0 { UseBound(h, n - 1); }
  }

  /** There is always room for all the restarts that a VM has left. */
  lemma {:induction false} RoomLeft(h: Hv, n: int, i: int)
    requires Sized(h) && 0 <= i < n <= |h.vms|
    requires forall j :: 0 <= j < n ==> h.backups[j].count <= FAILOVER_MAX_ATTEMPTS
    ensures Use(h, n) + Sets(h.vms[i].kind, FAILOVER_MAX_ATTEMPTS - h.backups[i].count) <= 4 * BootVcpus(h, n)
  {
    if i == n - 1 {
      UseBound(h, n - 1);
    } else {
      RoomLeft(h, n - 1, i);
    }
  }

  lemma GoodAll(mem: seq<Region>)
    requires AllAligned(mem)
    ensures Good(mem) == |mem|
  {
  }

  lemma RebuildTables(h: Hv, id: int)
    requires Sized(h) && Exists(h, id) && VmOk(h, id - 1)
    ensures var vm := h.vms[id - 1];
            SameTables(Built(VmStop(h, id).s2, vm.root, vm.kind, vm.mem), h.s2)
  {
    var vm := h.vms[id - 1];
    RebuildTakesNoPage(h.s2, vm.root, vm.kind, vm.mem);
    BuiltWindows(h.s2, vm.root, vm.kind, vm.mem);
    assert h.s2.gigs + VmGigs(vm.root, vm.kind, vm.mem) == h.s2.gigs;
    assert h.s2.megs + VmMegs(vm.root, vm.kind, vm.mem) == h.s2.megs;
  }

  lemma FinalizeEffect(h: Hv, id: int)
    requires Sized(h) && Exists(h, id) && AllAligned(h.vms[id - 1].mem)
    requires |h.vcpus| + VcpusOf(h.vms[id - 1].kind) <= VCPU_POOL
    ensures var vm := h.vms[id - 1];
            var n := VcpusOf(vm.kind);
            VmFinalize(h, id) == Res(h.(vms := h.vms[id - 1 := vm.(state := Ready, vcpus := NextVcpus(|h.vcpus|, n))],
                                        vcpus := h.vcpus + FreshVcpus(vm, n),
                                        s2 := Built(h.s2, vm.root, vm.kind, vm.mem)), Ok)
  {
    GoodAll(h.vms[id - 1].mem);
  }

  /** The state a successful restart leads to, part by part. */
  predicate Restarted(h: Hv, g: Hv, id: int, entry: u64, now: u64)
    requires Sized(h) && Exists(h, id) && Sized(g)
  {
    var vm := h.vms[id - 1];
    var n := VcpusOf(vm.kind);
    && g.vms == h.vms[id - 1 := vm.(state := Running, vcpus := NextVcpus(|h.vcpus|, n))]
    && |g.vcpus| == |h.vcpus| + n
    && g.vcpus[|h.vcpus|] == Vcpu(vm.id, 0, VReady, entry, 0)
    && (n > 1 ==> g.vcpus[|h.vcpus| + 1] == Vcpu(vm.id, 1, VReady, vm.entry, vm.dtb))
    && g.trust == TrustSet(h, id, Degraded, now).trust
    && g.backups == h.backups && g.ids == h.ids && g.failoverUp == h.failoverUp
    && g.s2 == Built(VmStop(h, id).s2, vm.root, vm.kind, vm.mem)
    && SameTables(g.s2, h.s2)
  }

  /** With vCPUs left in the pool a restart cannot fail, whatever state the VM was
      in: it ends running on fresh vCPUs that enter the backup, on the same table
      pages. */
  lemma RestartEffect(h: Hv, id: int, entry: u64, now: u64)
    requires Sized(h) && Exists(h, id) && VmOk(h, id - 1)
    requires |h.vcpus| + VcpusOf(h.vms[id - 1].kind) <= VCPU_POOL
    ensures Restart(h, id, entry, now).err == Ok
    ensures Restarted(h, Restart(h, id, entry, now).hv, id, entry, now)
  {
    var st := VmStop(h, id);
    FinalizeEffect(st, id);
    RebuildTables(h, id);
    hide VmFinalize, Launch, Restarted, VmOk;
    var f := VmFinalize(st, id).hv;
    LaunchEffect(f, id, |h.vcpus|, entry, now);
    LaunchedIsRestarted(h, st, f, Launch(f, id, entry, now).hv, id, entry, now);
  }

  lemma LaunchedIsRestarted(h: Hv, st: Hv, f: Hv, g: Hv, id: int, entry: u64, now: u64)
    requires Sized(h) && Exists(h, id) && st == VmStop(h, id) && Sized(f) && Sized(g)
    requires var vm := h.vms[id - 1];
             var n := VcpusOf(vm.kind);
             && f.vms == st.vms[id - 1 := vm.(state := Ready, vcpus := NextVcpus(|h.vcpus|, n))]
             && f.vcpus == st.vcpus + FreshVcpus(vm, n)
             && f.s2 == Built(st.s2, vm.root, vm.kind, vm.mem) && SameTables(f.s2, h.s2)
             && f == st.(vms := f.vms, vcpus := f.vcpus, s2 := f.s2)
    requires g.trust == TrustSet(f, id, Degraded, now).trust
    requires g == f.(vms := f.vms[id - 1 := f.vms[id - 1].(state := Running)],
                     vcpus := f.vcpus[|h.vcpus| := f.vcpus[|h.vcpus|].(elr := entry, x0 := 0)], trust := g.trust)
    ensures Restarted(h, g, id, entry, now)
  {
  }

  lemma LaunchEffect(f: Hv, id: int, i: nat, entry: u64, now: u64)
    requires Sized(f) && Exists(f, id) && f.vms[id - 1].state == Ready
    requires |f.vms[id - 1].vcpus| > 0 && f.vms[id - 1].vcpus[0] == i
    ensures var r := Launch(f, id, entry, now);
            && r.err == Ok && r.hv.trust == TrustSet(f, id, Degraded, now).trust
            && r.hv == f.(vms := f.vms[id - 1 := f.vms[id - 1].(state := Running)],
                          vcpus := f.vcpus[i := f.vcpus[i].(elr := entry, x0 := 0)], trust := r.hv.trust)
  {
  }

  /** The page maps of all VMs but the one with this root are untouched. */
  ghost predicate OthersMapped(s: S2, t: S2, root: int) {
    forall r, k :: r != root ==> LookUp(t, r, k) == LookUp(s, r, k)
  }

  lemma OtherVmOk(h: Hv, g: Hv, i: int, root: int)
    requires 0 <= i < |h.vms| == |g.vms| && VmOk(h, i) && SameTables(g.s2, h.s2)
    requires g.vms[i] == h.vms[i] && h.vms[i].root != root && OthersMapped(h.s2, g.s2, root)
    ensures VmOk(g, i)
  {
    forall k ensures MapAt(g.vms[i], g.s2, k) {
      assert MapAt(h.vms[i], h.s2, k);
      assert LookUp(g.s2, g.vms[i].root, k) == LookUp(h.s2, h.vms[i].root, k);
    }
  }

  lemma SameMaps(v: Vm, w: Vm, s: S2)
    requires MapsOk(v, s) && SameIdentity(v, w)
    requires v.state == w.state || (Live(v.state) && Live(w.state))
    ensures MapsOk(w, s)
  {
    forall k ensures MapAt(w, s, k) { assert MapAt(v, s, k); }
  }

  /** Only run state, vCPUs, trust record and count of one VM changed. */
  lemma UseFrame(h: Hv, g: Hv, id: int)
    requires Sized(h) && Sized(g) && Exists(h, id) && |g.vms| == |h.vms|
    requires SameIdentity(g.vms[id - 1], h.vms[id - 1])
    requires forall j :: 0 <= j < |h.vms| && j != id - 1 ==> g.vms[j] == h.vms[j] && g.backups[j] == h.backups[j]
    requires |h.vcpus| == Use(h, |h.vms|)
    requires (g.backups[id - 1].count == h.backups[id - 1].count && |g.vcpus| == |h.vcpus|)
          || (g.backups[id - 1].count == h.backups[id - 1].count + 1
              && |g.vcpus| == |h.vcpus| + VcpusOf(h.vms[id - 1].kind))
    ensures |g.vcpus| == Use(g, |g.vms|) && BootVcpus(g, |g.vms|) == BootVcpus(h, |h.vms|)
  {
    if g.backups[id - 1].count == h.backups[id - 1].count {
      UseSame(h, g, |h.vms|);
    } else {
      UseOneMore(h, g, |h.vms|, id - 1);
    }
  }

  lemma BaseFrame(h: Hv, g: Hv, id: int)
    requires Base(h) && Exists(h, id) && Sized(g) && g.trust.up && g.failoverUp
    requires |g.vms| == |h.vms| && SameTables(g.s2, h.s2) && SameIdentity(g.vms[id - 1], h.vms[id - 1])
    requires OthersMapped(h.s2, g.s2, h.vms[id - 1].root) && MapsOk(g.vms[id - 1], g.s2)
    requires forall j :: 0 <= j < |h.vms| && j != id - 1 ==> g.vms[j] == h.vms[j]
    requires forall j :: 0 <= j < MAX_VMS && j != id - 1 ==>
               g.trust.recs[j] == h.trust.recs[j] && g.backups[j] == h.backups[j]
    requires BackupOk(g.backups[id - 1])
    requires (g.backups[id - 1].count == h.backups[id - 1].count && |g.vcpus| == |h.vcpus|)
          || (g.backups[id - 1].count == h.backups[id - 1].count + 1
              && |g.vcpus| == |h.vcpus| + VcpusOf(h.vms[id - 1].kind))
    ensures Moved(h, g, id, CellOf(g, id - 1))
  {
    hide Use, BootVcpus;
    forall i | 0 <= i < |h.vms| ensures VmOk(g, i) {
      assert VmOk(h, i) && VmOk(h, id - 1);
      if i != id - 1 {
        OtherVmOk(h, g, i, h.vms[id - 1].root);
      }
    }
    UseFrame(h, g, id);
  }

  /** The same when the tables are untouched and a live VM stayed live. */
  lemma QuietFrame(h: Hv, g: Hv, id: int)
    requires Base(h) && Exists(h, id) && Sized(g) && g.trust.up && g.failoverUp
    requires |g.vms| == |h.vms| && g.s2 == h.s2 && SameIdentity(g.vms[id - 1], h.vms[id - 1])
    requires g.vms[id - 1].state == h.vms[id - 1].state || (Live(g.vms[id - 1].state) && Live(h.vms[id - 1].state))
    requires forall j :: 0 <= j < |h.vms| && j != id - 1 ==> g.vms[j] == h.vms[j]
    requires forall j :: 0 <= j < MAX_VMS && j != id - 1 ==>
               g.trust.recs[j] == h.trust.recs[j] && g.backups[j] == h.backups[j]
    requires BackupOk(g.backups[id - 1]) && g.backups[id - 1].count == h.backups[id - 1].count
    requires |g.vcpus| == |h.vcpus|
    ensures Moved(h, g, id, CellOf(g, id - 1))
  {
    assert VmOk(h, id - 1);
    SameMaps(h.vms[id - 1], g.vms[id - 1], h.s2);
    BaseFrame(h, g, id);
  }

  lemma MovedTwice(h: Hv, g: Hv, k: Hv, id: int, c: Cell, d: Cell)
    requires Base(h) && Exists(h, id) && Moved(h, g, id, c) && Moved(g, k, id, d)
    ensures Moved(h, k, id, d)
  {
  }

  lemma StopMaps(vm: Vm, s: S2)
    requires AllAligned(vm.mem)
    ensures MapsOk(vm.(state := Stopped), Cleared(s, vm.root, vm.mem))
    ensures OthersMapped(s, Cleared(s, vm.root, vm.mem), vm.root)
  {
    forall r, k ensures r != vm.root ==> LookUp(Cleared(s, vm.root, vm.mem), r, k) == LookUp(s, r, k) {
      ClearedAligned(s, vm.root, vm.mem, r, k);
    }
    forall k ensures MapAt(vm.(state := Stopped), Cleared(s, vm.root, vm.mem), k) {
      ClearedAligned(s, vm.root, vm.mem, vm.root, k);
    }
  }

  lemma StopMove(h: Hv, id: int)
    requires Base(h) && Exists(h, id)
    ensures Moved(h, VmStop(h, id), id, CellOf(h, id - 1).(state := Stopped))
  {
    var vm := h.vms[id - 1];
    assert VmOk(h, id - 1);
    if vm.state == Stopped {
      QuietFrame(h, h, id);
    } else {
      ClearedTables(h.s2, vm.root, vm.mem);
      StopMaps(vm, h.s2);
      BaseFrame(h, VmStop(h, id), id);
    }
  }

  lemma SuspendMove(h: Hv, id: int)
    requires Base(h) && Exists(h, id)
    ensures Moved(h, VmSuspend(h, id).hv, id, CSuspend(CellOf(h, id - 1)))
  {
    QuietFrame(h, VmSuspend(h, id).hv, id);
  }

  lemma ResumeMove(h: Hv, id: int)
    requires Base(h) && Exists(h, id)
    ensures var c := CellOf(h, id - 1);
            Moved(h, VmResume(h, id).hv, id, if c.state == Suspended then c.(state := Running) else c)
  {
    QuietFrame(h, VmResume(h, id).hv, id);
  }

  lemma RecMove(h: Hv, id: int, rec: TrustRec)
    requires Base(h) && Exists(h, id)
    ensures Moved(h, WithRec(h, id, rec), id, CellOf(h, id - 1).(level := rec.level, faults := rec.faults))
  {
    QuietFrame(h, WithRec(h, id, rec), id);
  }

  lemma LevelMove(h: Hv, id: int, level: Level, now: u64)
    requires Base(h) && Exists(h, id)
    ensures Moved(h, TrustSet(h, id, level, now), id, CellOf(h, id - 1).(level := level))
  {
    QuietFrame(h, TrustSet(h, id, level, now), id);
  }

  lemma RevokeMove(h: Hv, id: int, now: u64)
    requires Base(h) && Exists(h, id)
    ensures Moved(h, TrustRevoke(h, id, now).hv, id, CRevoke(CellOf(h, id - 1)))
  {
    var g := TrustSet(h, id, Revoked, now);
    LevelMove(h, id, Revoked, now);
    StopMove(g, id);
    MovedTwice(h, g, VmStop(g, id), id, CellOf(g, id - 1), CRevoke(CellOf(h, id - 1)));
  }

  /** Failover never fails between boot and exhaustion: it restarts the VM, or
      revokes it when three restarts were spent. */
  lemma FailoverMove(h: Hv, id: int, now: u64)
    requires Base(h) && Exists(h, id) && h.backups[id - 1].registered
    ensures Moved(h, DoFailover(h, id, now).hv, id, CFailover(CellOf(h, id - 1)))
    ensures DoFailover(h, id, now).err == if h.backups[id - 1].count < FAILOVER_MAX_ATTEMPTS then Ok else Busy
  {
    if h.backups[id - 1].count >= FAILOVER_MAX_ATTEMPTS {
      RevokeMove(h, id, now);
    } else {
      RestartMove(h, id, now);
    }
  }

  /** A registered VM finds the vCPUs for all its restarts in the pool. */
  lemma VcpusLeft(h: Hv, id: int)
    requires Base(h) && Exists(h, id)
    ensures h.backups[id - 1].count <= FAILOVER_MAX_ATTEMPTS
    ensures |h.vcpus| + Sets(h.vms[id - 1].kind, FAILOVER_MAX_ATTEMPTS - h.backups[id - 1].count) <= VCPU_POOL
    ensures VmOk(h, id - 1)
  {
    forall j | 0 <= j < |h.vms| ensures h.backups[j].count <= FAILOVER_MAX_ATTEMPTS {
      assert BackupOk(h.backups[j]);
    }
    RoomLeft(h, |h.vms|, id - 1);
  }

  lemma VmStaysOk(h: Hv, g: Hv, id: int)
    requires Base(h) && Exists(h, id) && g == h.(backups := g.backups) && |g.backups| == MAX_VMS
    ensures Sized(g) && VmOk(g, id - 1)
  {
    assert VmOk(h, id - 1);
  }

  lemma RestartMove(h: Hv, id: int, now: u64)
    requires Base(h) && Exists(h, id) && h.backups[id - 1].registered
    requires h.backups[id - 1].count < FAILOVER_MAX_ATTEMPTS
    ensures Moved(h, DoFailover(h, id, now).hv, id, CFailover(CellOf(h, id - 1)))
    ensures DoFailover(h, id, now).err == Ok
  {
    hide Restart, Moved, Restarted, VmOk, Base, CFailover, CellOf;
    BaseSized(h);
    var bd := h.backups[id - 1];
    var g := h.(backups := h.backups[id - 1 := bd.(count := bd.count + 1)]);
    VcpusLeft(h, id);
    VmStaysOk(h, g, id);
    RestartEffect(g, id, bd.entry, now);
    RestartedMove(h, g, Restart(g, id, bd.entry, now).hv, id, bd.entry, now);
  }

  lemma RestartedMove(h: Hv, g: Hv, k: Hv, id: int, entry: u64, now: u64)
    requires Base(h) && Exists(h, id) && h.backups[id - 1].registered
    requires h.backups[id - 1].count < FAILOVER_MAX_ATTEMPTS
    requires g == h.(backups := h.backups[id - 1 := h.backups[id - 1].(count := h.backups[id - 1].count + 1)])
    requires Sized(g) && Sized(k) && Restarted(g, k, id, entry, now)
    ensures Moved(h, k, id, CFailover(CellOf(h, id - 1)))
  {
    assert BackupOk(h.backups[id - 1]) && VmOk(h, id - 1);
    RestartMaps(g, k, id);
    BaseFrame(h, k, id);
  }

  /** After a restart every region page translates as it did the first time. */
  lemma RestartMaps(h: Hv, g: Hv, id: int)
    requires Sized(h) && Exists(h, id) && Sized(g) && |g.vms| == |h.vms| && AllAligned(h.vms[id - 1].mem)
    requires SameIdentity(h.vms[id - 1], g.vms[id - 1]) && g.vms[id - 1].state == Running
    requires var vm := h.vms[id - 1]; g.s2 == Built(VmStop(h, id).s2, vm.root, vm.kind, vm.mem)
    ensures MapsOk(g.vms[id - 1], g.s2) && OthersMapped(h.s2, g.s2, h.vms[id - 1].root)
  {
    var vm := h.vms[id - 1];
    var st := VmStop(h, id).s2;
    forall r, k ensures r != vm.root ==> LookUp(g.s2, r, k) == LookUp(h.s2, r, k) {
      ClearedAligned(h.s2, vm.root, vm.mem, r, k);
      BuiltLeaf(st, vm.root, vm.kind, vm.mem, r, k);
    }
    var vm', s' := g.vms[id - 1], g.s2;
    forall k ensures MapAt(vm', s', k) {
      BuiltLeaf(st, vm.root, vm.kind, vm.mem, vm.root, k);
    }
  }

  lemma QuarantineMove(h: Hv, id: int, now: u64)
    requires Base(h) && Exists(h, id)
    ensures Moved(h, TrustQuarantine(h, id, now).hv, id, CQuarantine(CellOf(h, id - 1)))
  {
    var c := CellOf(h, id - 1);
    if Blocked(c.level) {
      QuietFrame(h, h, id);
    } else {
      var q := TrustSet(h, id, Quarantine, now);
      var q' := q.(trust := q.trust.(quarantines := Inc32(q.trust.quarantines)));
      var s := VmSuspend(q', id).hv;
      QuietFrame(h, q', id);
      SuspendMove(q', id);
      MovedTwice(h, q', s, id, CellOf(q', id - 1), CellOf(s, id - 1));
      if c.registered {
        assert BackupOk(s.backups[id - 1]);
        FailoverMove(s, id, now);
        MovedTwice(h, s, DoFailover(s, id, now).hv, id, CellOf(s, id - 1), CFailover(CellOf(s, id - 1)));
      }
    }
  }

  lemma RestoreMove(h: Hv, id: int, now: u64)
    requires Base(h) && Exists(h, id)
    ensures Moved(h, TrustRestore(h, id, now).hv, id, CRestore(CellOf(h, id - 1)))
  {
    var rec := h.trust.recs[id - 1];
    if rec.level != Quarantine {
      QuietFrame(h, h, id);
    } else {
      var a := WithRec(h, id, rec.(faults := 0));
      var b := TrustSet(a, id, Degraded, now);
      var k := VmResume(b, id).hv;
      RecMove(h, id, rec.(faults := 0));
      LevelMove(a, id, Degraded, now);
      ResumeMove(b, id);
      MovedTwice(h, a, b, id, CellOf(a, id - 1), CellOf(b, id - 1));
      MovedTwice(h, b, k, id, CellOf(b, id - 1), CellOf(k, id - 1));
    }
  }

  lemma ReportMove(h: Hv, id: int, faultType: u32, detail: u64, now: u64)
    requires Base(h) && Exists(h, id)
    ensures Moved(h, ReportFault(h, id, faultType, detail, now).hv, id, CReport(CellOf(h, id - 1)))
  {
    var old' := h.trust.recs[id - 1];
    if old'.level == Revoked {
      QuietFrame(h, h, id);
    } else {
      var rec := old'.(faults := Inc32(old'.faults), lastType := faultType, lastDetail := detail, lastFaultAt := now);
      var g := WithRec(h.(trust := h.trust.(total := Inc32(h.trust.total))), id, rec);
      QuietFrame(h, g, id);
      if rec.faults >= THRESH_QUARANTINE {
        QuarantineMove(g, id, now);
        MovedTwice(h, g, TrustQuarantine(g, id, now).hv, id, CellOf(g, id - 1), CQuarantine(CellOf(g, id - 1)));
      } else {
        LevelMove(g, id, Degraded, now);
        MovedTwice(h, g, TrustSet(g, id, Degraded, now), id, CellOf(g, id - 1), CellOf(g, id - 1).(level := Degraded));
      }
    }
  }
}
